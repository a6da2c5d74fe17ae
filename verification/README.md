# duckdoor: a verified model

duckdoor is a read-only query gateway in front of DuckDB. A configuration names backends (SQLite and DuckDB
databases, Parquet files) and logical views over them. A daemon keeps a pool of worker threads, each with its
own connection; command-line tools change the configuration file under a lock and ask the daemon to reload.

The model follows the repository's four cores.

* **The query pool** (`WorkerPool`, `PoolRuns`, `Gateway`, `GatewayInvariant`, `GatewayProperties`, `Probing`,
  `EngineThreads`, `GatewayGenerations`, `GatewayRuns`). Workers with capacity-one channels, the round-robin counter, one-shot replies, timeouts,
  cancellation, crashes, startup, `Stop` or disconnection on drop, and the replacement of whole pool generations
  are one transition system. Its steps are the points at which threads can interleave. `WorkerPool` is one
  generation; `Gateway` runs any number of generations and calls together. The results are about every run.
* **Configuration transactions** (`Transactions`, `TransactionInvariant`, `TransactionProperties`,
  `TransactionHistory`, `TransactionPromise`, `TransactionLimits`, `TransactionRecovery`, `TransactionExactness`,
  `RepositoryTransactions`, `CommandMeaning`, `RepositoryCommands`, `ConfigStore`, `ConfigStoreRuns`, `Commands`).
  Any number of mutators and one daemon share a lock file, a configuration file, a pid file and the daemon's pool.
  The protocol is stated for any rules of validation, change and pool building whose normal forms are fixed.
  `RepositoryTransactions` puts in the repository's own: a pool can be built if all views compile and DuckDB opens
  the result, and the latter is an arbitrary predicate.
* **The logical-view compiler** (`ViewCompiler`, `ViewDescription`, `ViewMeaning`, `ViewText`, `ViewSources`, `SqlText`,
  `SqlGrammar`, `SqlPrinting`, `SqlSources`, `SqlMeaning`). The emitted SQL is text; a lexer and a parser for it, with
  the quoting rules of ISO/IEC 9075-2 sections 5.2 and 5.3, and a bag semantics for what they accept, say what that
  text means.
* **Loops over text and trees** (`Config`, `ViewSpecs`, `SqlGuard`, `ErrorText`), with `Sorting`, `Strings`,
  `Lists` and `Wrappers` underneath.

Code that works by updating something is a method with that state: `EngineThreads` and `ConfigStore` hold the
classes, `ViewSpecs.ApplyMappings` and `ConfigStore.EnableInPlace` work on arrays. Each is proved against the
functions that the lemmas are about. Configurations, views and statements are values and are datatypes.

Lemmas carry `{:induction false}` wherever the verifier would otherwise try induction by itself: every induction
in the project is written out.

Some results are negative.

* What mutators return does not always tell whether a daemon that is up serves the file. Where the first configuration
  can be served, it does exactly if the last of them that wrote the file has committed
  (`RepositoryTransactions.FromServable`): after a rollback, say, a daemon that started meanwhile can serve the change
  that was taken back (`TransactionLimits.RolledBackChangeCanBeServed`), and so can one that has been up all along and
  whose reply was lost (`TransactionLimits.LostReplyServesChange`). A restart always repairs it
  (`TransactionRecovery.RestartAlwaysHelps`). `TransactionExactness.OutcomesDecide` is the condition for all first
  configurations.
* A client that gives up on a reload whose handler continues can take the daemon back behind a committed change
  (`TransactionLimits.GivingUpBreaksTheHandshake`), exactly if the handler stores a pool older than what was promised
  meanwhile (`TransactionLimits.LateStoresDoHarm`). The results about transactions hold for all runs without such a
  late store; runs in which nobody gives up are among them (`TransactionProperties.PatientRunsAreOrderly`).
* A catalog name that contains a dot can let the source guard accept a name that no relation has
  (`SqlGuard.DottedNamesDisagree`). `SqlGuard.GuardAgreesExactly` gives the catalogs for which it never does.
* A data type with unbalanced parentheses passes validation, and the statement of its view does not read back as the
  view (`ViewMeaning.UnbalancedTypeBreaksStatement`); it does exactly if the types are balanced
  (`ViewMeaning.CompiledTextParses`).
* Where the 64-bit counter wraps, consecutive calls can start at the same worker, exactly if the number of workers is
  not a power of two (`Probing.ConsecutiveStarts` says: does not divide the counter's range).

`dafny verify dfyconfig.toml` checks the whole project.

## Model

| member | source | states |
|---|---|---|
| `WorkerPool.StepKeeps` | src/engine.rs:125-193 | Every step of the constructor, the owner and the workers of one pool keeps its invariant: what is in each slot, who has been told to stop, which handles and relations have been collected. |
| `WorkerPool.FoundMeaning` | src/engine.rs:168-181 | The allowed relations are the union of what the collected workers found, and nothing else. |
| `PoolRuns.ConstructionSucceeds` | src/engine.rs:140-193 | For every order of startups, a returned pool has one idle worker per sender, the handle at each index is that worker's, and its relations are the union of the workers' (both directions). |
| `PoolRuns.ConstructorIsNeverStuck` | src/engine.rs:168-181 | `new` never blocks for good on its own channels: a waiting receive waits for a worker that has a step, and the blocking send of `Stop` never waits. |
| `PoolRuns.StepDecreases` | src/engine.rs:358-395 | Every step except an accepted offer lowers a measure on backlog, running queries and live senders; an offer raises it by at most two. |
| `PoolRuns.RunsAreBounded` | src/engine.rs:274-280 | No run of a pool is longer than its measure plus three steps for each accepted query. |
| `PoolRuns.OnlyDrainedPoolsRest` | src/engine.rs:385-394 | A pool has a step to make exactly as long as it is not closed with every worker gone, whether its `Stop` was accepted or refused. |
| `PoolRuns.DownDrains` | src/engine.rs:168-181 | A dropped pool, and one whose construction failed, makes at most its measure of further steps and can rest only with no worker left running. |
| `PoolRuns.DownStaysDown` | src/engine.rs:274-280 | Such a pool never accepts another query and never comes back. |
| `PoolRuns.AcceptedIsTaken` | src/engine.rs:385-394 | A query stays in its slot until its worker takes it up; only a crashed worker loses it. What was accepted before a drop is taken before `Stop`. |
| `PoolRuns.AcceptedIsNeverStuck` | src/engine.rs:385-394 | An accepted query waits for nothing but its own worker, which always has a step, and each of whose steps lowers its backlog. |
| `PoolRuns.StartupMeaning` | src/engine.rs:358-384 | How a worker can start: ready with what it found, failed, or without a word, in which case it is lost to the constructor. |
| `PoolRuns.CollectMeaning` | src/engine.rs:168-181 | What the constructor does with each ready message: keep handle and relations, start stopping everybody on a failure, give up on a worker that is gone, or wait. |
| `PoolRuns.TellMeaning` | src/engine.rs:274-280 | Telling one worker to stop puts `Stop` into its slot if that is free and leaves a message that is there; the drop never waits, the constructor waits for a free slot; nothing else changes. |
| `PoolRuns.FailureStopsAll` | src/engine.rs:174-181 | In every run, each worker that a failed construction has told holds `Stop` or has left its loop. |
| `GatewayInvariant.NextKeeps` | src/engine.rs:195-227 | Every interleaving step of calls, workers, timeouts, cancellations, builds, stores and drops keeps the invariant of the whole engine. |
| `GatewayProperties.ReachableIsSafe` | src/engine.rs:195-227 | The invariant holds in every reachable state. |
| `GatewayProperties.ExactlyOneFate` | src/engine.rs:195-227 | In every reachable state each call is in exactly one of: with its caller, in one slot, on one worker, over; and the slot or worker is that of its own pool and home. |
| `GatewayProperties.AtMostOnce` | src/engine.rs:217-226 | A call runs at most once, has at most one outcome, fires at most one interrupt; the interrupt is fired exactly for timeouts and cancellations, at the selected worker of the loaded pool. |
| `GatewayProperties.OutcomesMeanWhatTheySay` | src/engine.rs:216-226 | Rejected and busy calls never ran; an answer is the reply of the worker that ran the call; a stopped worker really crashed. |
| `GatewayProperties.HistoryIsKept` | src/engine.rs:298-301 | Over any run a call keeps its generation, and no recorded refusal, run, outcome or interrupt is taken back. |
| `GatewayProperties.PoolsRunAlone` | src/engine.rs:287-310 | The part of a run that concerns one generation is a run of that pool alone, so all results about single pools hold inside the engine. |
| `GatewayProperties.DroppedPoolsDrain` | src/engine.rs:274-280 | In any run of the engine a dropped generation makes boundedly many more steps and rests only when every worker has stopped. |
| `GatewayProperties.DrainedPoolsOweNothing` | src/engine.rs:385-394 | When the last worker of a generation is gone, each accepted call was answered by its worker, or that worker crashed. |
| `GatewayProperties.ActiveIsComplete` | src/engine.rs:303-310 | The active pool always has all its workers ready, their handles in order, and exactly the relations they found. |
| `GatewayProperties.CallsKeepTheirGeneration` | src/engine.rs:298-301 | While a call is under way the pool it loaded is open and complete, whatever reloads happen meanwhile. |
| `GatewayGenerations.CallsLoadTheActive` | src/engine.rs:298-301 | Over any run: every call was added by a load that took the generation active at that moment, with the request it was made with. |
| `GatewayGenerations.ReplacedGetsNoCallers` | src/engine.rs:298-310 | A generation that is not active and is not stored again never gets another call. |
| `GatewayGenerations.NewCallsGetTheActive` | src/engine.rs:298-301 | Without a store or a shutdown in between every new call gets the active generation. |
| `GatewayGenerations.OutcomesNameTheirSteps` | src/engine.rs:197-227 | A call ends as timed out only by running out of time, as cancelled only by being cancelled, and so on for every outcome. |
| `GatewayGenerations.WaitingCanBeInterrupted` | src/engine.rs:217-226 | A waiting call can run out of time or be cancelled at any moment and ends as such. |
| `GatewayGenerations.UnusedCanBeDropped` | src/engine.rs:287-310 | A generation can be dropped exactly if it is complete, not active, and no call is under way in it. |
| `GatewayRuns.EveryOutcomeHappens` | src/engine.rs:195-227 | Each outcome is the end of some call in some reachable state: answers with any value, crashes, timeouts, cancellations, busy workers and rejections. |
| `GatewayProperties.CallsAreNeverStuck` | src/engine.rs:195-227 | Timeouts and cancellations aside, every unfinished call either has a step of its own that gets it further by a bounded rank, or waits for its own worker, and that worker has a step. |
| `GatewayProperties.CheckedAgainstItsGeneration` | src/engine.rs:195-197 | At any later time: a call was rejected exactly if the guard rejects it for the relations of the generation it loaded, with that error. |
| `GatewayProperties.OnlyStoreReplaces` | src/engine.rs:303-310 | Building, failing to build and dropping pools leave the active pool untouched; only a store replaces it. |
| `GatewayProperties.FailedBuildsAreNeverActive` | src/engine.rs:303-310 | A pool whose construction failed, or that is dropped, is never the active one afterwards. |
| `GatewayProperties.AdmissionIsBounded` | src/engine.rs:197-216 | A pool never has more than two accepted unanswered calls for each worker. |
| `Probing.ProbeOrder` | src/engine.rs:204-205 | From any start the probe offsets visit every worker exactly once. |
| `Probing.BusyMeansAllRefused` | src/engine.rs:216 | A call that ends busy has asked every worker of its pool exactly once, and each was gone or had a full slot when asked. |
| `Probing.ConsecutiveStarts` | src/engine.rs:197 | The starts of `n` consecutive counter values are all different if and only if the 64-bit counter does not wrap among them or `n` divides its range. |
| `Probing.DrawsAreConsecutive` | src/engine.rs:197 | A call starts at the remainder of the counter and moves it by one, wrapping; nothing else moves it. |
| `EngineThreads.Engine.Probe` | src/engine.rs:195-216 | The probe loop, interleaved with any other threads, is a run of the step system; it ends with the message in the selected slot, or refused by all. |
| `EngineThreads.Engine.TrySend` | src/engine.rs:206-213 | `try_send`: the message comes back exactly if the slot is full or the worker gone; otherwise it is in that slot, and no other worker, pool or call is touched. |
| `EngineThreads.Engine.Reload` | src/engine.rs:303-310 | `reload`, interleaved with any other threads, other reloads and shutdown included, is a run of the step system. It stores its own pool, complete, as its last step, or never stores it; a failed build by itself leaves the active pool alone. |
| `EngineThreads.InterruptOnDrop.Drop` | src/engine.rs:266-272 | Dropping the guard fires its handle once if it is armed, and not at all otherwise. |
| `EngineThreads.Await` | src/engine.rs:217-226 | The end of `query`: the outcome of each kind of wake-up, and the handle fires exactly for a timeout or a cancellation. |
| `EngineThreads.CollectReady` | src/engine.rs:168-182 | The constructor's loop succeeds exactly if every worker is ready, gives handles in order and the union of relations, or stops at the first failure. |
| `EngineThreads.WorkerLoop` | src/engine.rs:385-394 | The receive loop answers exactly the queries in front of the first `Stop`, in order. |
| `EngineThreads.BeforeStopMeaning` | src/engine.rs:385-394 | Which queries those are: all of them up to the first `Stop`, or all if there is none. |
| `TransactionInvariant.StepKeeps` | src/main.rs:1071-1127 | Every step of any number of mutators and of the daemon keeps the protocol's invariant, clients that give up included, unless an abandoned handler stores a pool older than what was promised. |
| `TransactionProperties.PatientRunsAreOrderly` | src/daemon.rs:227-231 | Runs in which no client gives up on its reload have no abandoned handlers, so the results below hold for all of them. |
| `TransactionProperties.MutualExclusion` | src/main.rs:1080-1089 | At most one mutator is between taking and releasing the lock. |
| `TransactionProperties.HolderAdvances` | src/main.rs:1080-1089 | Whenever the lock is held, its holder, or the handler it waits for, has a step that gets the holder further by a bounded rank: nobody waits for the lock for good. |
| `TransactionProperties.PidFileMeaning` | src/daemon.rs:254-261 | The pid file names a live daemon exactly while one has written its pid; a mutator returns success without a reload exactly if there is no pid file or a dead pid, and then no daemon has started. |
| `RepositoryTransactions.EveryVersionIsValid` | src/config.rs:208-222 | At every instant, also for readers without the lock, the file is one complete valid configuration; everything ever saved is in normal form. |
| `TransactionProperties.Serializable` | src/main.rs:1071-1078 | Whenever the lock is free, the file reads as the kept commands applied one after another, in lock order, to the first configuration. |
| `TransactionProperties.SerializableContents` | src/config.rs:217-222 | Once anything was written, the file is that normal form itself. |
| `TransactionHistory.FileHistory` | src/main.rs:1071-1127 | At every instant the log determines every content the file has ever had: the first one, then what each lock holder wrote, with the present holder counted by what it has written so far. |
| `TransactionHistory.SavedVersionsActivate` | src/main.rs:1093-1107 | Nothing is ever saved from which no pool can be built, except that a rollback can restore the first configuration. |
| `TransactionHistory.ServedVersionActivates` | src/engine.rs:287-310 | Whatever a daemon serves, at start or after a reload, a pool can be built from it. |
| `RepositoryTransactions.SavedViewsCompile` | src/engine.rs:633-639 | Every view of every saved configuration compiles, also after rollbacks; the only possible exception is a first configuration that was written by other means and restored. |
| `RepositoryTransactions.ServedViewsCompile` | src/engine.rs:120-132 | Every view of what a daemon serves compiles. |
| `RepositoryTransactions.UncompilableIsRefused` | src/main.rs:1093-1107 | A command whose result has a view that does not compile is refused and leaves the file alone. |
| `TransactionProperties.OutcomesAreTrue` | src/main.rs:1091-1127 | For every lock holder: failed loads, changes, probes and saves leave the file alone, a completed rollback leaves exactly the previous configuration, all other outcomes leave the command's effect; and each holder finds what the one before left. |
| `RepositoryTransactions.SecondAddIsRefused` | src/main.rs:422-433 | An add whose name is already in the file when it takes the lock is refused and changes nothing, whatever its unlocked check said. |
| `RepositoryTransactions.SecondViewIsRefused` | src/main.rs:662-681 | Adding a view does not look again under the lock: a second add of the same view is refused by validation all the same, before anything is written. |
| `CommandMeaning.CommandMakes` | src/main.rs:422-1020 | What each command makes of a loaded configuration, by name: exactly the backend or view it means is added, gone or switched, every other one is as it was, and so are the settings. |
| `CommandMeaning.CommandVerdict` | src/main.rs:422-792 | Exactly when a command is refused outright and when there is nothing to do. |
| `RepositoryCommands.CommittedIsMade` | src/main.rs:1071-1078 | A command that has gone through has done to the file just that. |
| `RepositoryCommands.BackendsAreKept` | src/main.rs:1071-1078 | Whenever the lock is free, the file has each backend exactly as the commands about it that went through have left it, in lock order: no update is lost and none is made up. |
| `RepositoryCommands.ViewsAreKept` | src/main.rs:1071-1078 | The same for views. |
| `TransactionProperties.Handshake` | src/main.rs:1108-1112 | After a mutator has returned success, any daemon that is up or comes up at any later time has its pool from that version or a later one, and that version is the command's effect. |
| `TransactionProperties.DaemonIsCurrent` | src/main.rs:1108-1126 | Whenever the lock is free and the last mutator that wrote the file has committed, a daemon that is up serves exactly the configuration on disk, whatever went wrong before. |
| `TransactionExactness.OutcomesDecide` | src/main.rs:1108-1126 | The exact condition, for any rules: a sequence of returned outcomes promises that a daemon that is up serves the file whenever the lock is free, if and only if the last of them that wrote the file is a commit, or the first configuration could not be served and either nothing can be saved at all, or the first change that stayed is the last write and no different change was on disk before it. For every other sequence there is a reachable state with just these outcomes in which the daemon serves something else. |
| `RepositoryTransactions.RepositoryOutcomesDecide` | src/main.rs:1071-1127 | The same for the repository's own validation, commands and view compiler, from every valid configuration, whether or not its views compile. |
| `RepositoryTransactions.FromServable` | src/main.rs:1108-1126 | From a configuration whose views compile and which DuckDB opens: if and only if the last mutator that wrote the file has committed. |
| `RepositoryTransactions.FromUnservable` | src/engine.rs:673-683 | One valid configuration with a view that demands a missing backend: there a single change left without a reload keeps the promise although nobody has committed, and a single rollback breaks it. |
| `TransactionExactness.ResetLosesUpdates` | src/config.rs:184-188 | A process that found no configuration file before the first one was written and writes the default later, without the lock: it loses updates if and only if the file no longer holds the default. |
| `TransactionExactness.CommittedCanBeReset` | src/config.rs:184-188 | And it can: a reachable state in which a commit is lost that way. |
| `RepositoryTransactions.RepositoryRulesAreSound` | src/config.rs:275-367 | The repository's validation meets what the protocol proofs need: its normal forms are fixed, whatever DuckDB accepts. |
| `TransactionLimits.RolledBackChangeCanBeServed` | src/main.rs:1112-1125 | For every command whose result differs and can be served: a daemon that starts during a failing change can end up serving the change that was rolled back, with the lock free and the previous configuration on disk. |
| `RepositoryTransactions.RolledBackRemovalCanBeServed` | src/main.rs:467-498 | The same for one concrete configuration and `remove --all`. |
| `TransactionLimits.LostReplyServesChange` | src/main.rs:1112-1125 | The same without a daemon that starts: from every reachable state in which a daemon serves the file and the lock is free, a command that changes something can end rolled back while the daemon goes on serving its change, because the reply to its reload is lost and the second reload does not arrive. |
| `TransactionRecovery.RestartServesFile` | src/daemon.rs:146-155 | From every state, reachable or not, a restart ends with the last content of the file being served if a pool can be built from it, whether the old daemon stops or is killed; nothing mutators have done changes. |
| `TransactionRecovery.RestartAlwaysHelps` | src/daemon.rs:146-155 | If the first configuration can be served, then a restart leads to a daemon that serves the file from every reachable state, however the log ends. |
| `TransactionLimits.GivingUpBreaksTheHandshake` | src/main.rs:1112-1117 | If a client may give up while its handler continues, a mutator can return success and the daemon then go back to an abandoned change. |
| `TransactionLimits.LateStoresDoHarm` | src/engine.rs:303-310 | The exact condition: storing the pool of an abandoned handler takes the daemon behind a promised change if and only if that pool is older than what was promised, which is the last commit or the change of a holder whose reload was answered. |
| `TransactionLimits.FreshReadsAreTimely` | src/engine.rs:303-310 | An abandoned handler that has yet to read does no harm: what it reads is the file of that moment, never older than what was promised. |
| `RepositoryTransactions.AbandonedRemovalCanBeServed` | src/daemon.rs:227-231 | One concrete instance with the repository's own rules: `remove --all` is abandoned, a disabling commits, and the daemon then serves the removal. |
| `ConfigStore.Store.Save` | src/config.rs:217-222 | `save_config`: writes the normal form if the configuration is valid and the write succeeds, and nothing otherwise. |
| `ConfigStore.Store.SaveAndReload` | src/main.rs:1091-1127 | Outcome, file, version and the configurations the daemon was asked to load, for every way the world can answer. |
| `ConfigStore.Store.Transact` | src/main.rs:1071-1078 | A whole transaction under the lock: its outcome, for every way the world can answer, the file before and after as the outcome says, and, if it goes through, exactly the command's change by name. |
| `ConfigStoreRuns.TransactIsARun` | src/main.rs:1071-1127 | The outcome and the file that `Transact` gives are those of a run of the protocol: from every reachable state with the lock free, for every way the world can answer that fits the state, one mutator runs from taking the lock to that outcome. |
| `ConfigStore.EnableInPlace` | src/main.rs:504-528 | The first backend with the name is updated where it stands; all others stay. |
| `Config.ValidateConfig` | src/config.rs:275-367 | Succeeds exactly on valid configurations, leaves both lists sorted, and gives a true reason otherwise. |
| `Config.CheckView` | src/config.rs:322-364 | The per-view checks accept exactly the valid views. |
| `Config.CheckBackends` | src/config.rs:290-312 | The backend loop accepts exactly lists of valid backends with distinct names, and names a real fault otherwise. |
| `Config.CheckViews` | src/config.rs:313-365 | The view loop accepts exactly lists of valid views with distinct qualified names, and names a real fault otherwise. |
| `Config.NormalFormIgnoresOrder` | src/config.rs:275-367 | Validity and normal form do not depend on the order backends and views are listed in. |
| `Config.NormalFormIsFixed` | src/config.rs:208-222 | Loading what was saved changes nothing: validation of a normal form gives it back. |
| `Config.NormalFormOrder` | src/config.rs:291-312 | The normal form lists the same backends by name and the same views by qualified name, in the order of a dictionary, and changes nothing else. |
| `Config.ValidConfigMeaning` | src/config.rs:275-367 | Settings, backends and views are each valid and no name is given twice. |
| `Config.ValidViewMeaning` | src/config.rs:314-364 | What a view has to be like: names, a source column apart from its columns, an input, no backend twice, mappings of its own columns only. |
| `Config.ValidBackendMeaning` | src/config.rs:292-313 | A name and an absolute path; only Parquet backends are given a relation, `data` by default. |
| `Config.ValidNameMeaning` | src/config.rs:224-235 | Identifiers, character by character. |
| `Config.ValidRelationMeaning` | src/config.rs:248-257 | `TABLE` or `SCHEMA.TABLE`, and nothing else. |
| `Config.BareViewName` | src/config.rs:236-246 | A view name without a dot is in the schema `unified`. |
| `Config.ParseQualifiedViewNameMeaning` | src/config.rs:236-246 | The parser accepts exactly the two spellings of a view with valid names and inverts `qualified_name`. |
| `Config.QualifiedNameIsInjective` | src/config.rs:85-89 | Qualified names of valid identifiers are equal only for the same schema and name. |
| `Sorting.SortOfPermutation` | src/config.rs:291-312 | Sorting by distinct keys gives the same list for every permutation. |
| `Sorting.SortKeeps` | src/config.rs:291-312 | Sorting gives a permutation that is sorted, in the sense of `Sorting.SortedMeaning`. |
| `Strings.BeforeMeaning` | src/config.rs:291-312 | The order of strings: a proper prefix comes first, and otherwise the smaller character at the first difference. |
| `Sorting.SortedMeaning` | src/config.rs:291-312 | Sorted with distinct keys means in the order of a dictionary. |
| `Sorting.SortedKeysMeaning` | src/engine.rs:718-729 | The keys of a map come each once, in the order of a dictionary: so do the columns of a view. |
| `ViewSpecs.ParseColumns` | src/main.rs:932-960 | Succeeds exactly if every spec parses and no name repeats, and then declares exactly those columns. |
| `ViewSpecs.ApplyMappings` | src/main.rs:962-1020 | Updates the inputs in place: succeeds exactly if every mapping is well-formed, names an input and a column and repeats no key, and then adds exactly those entries. |
| `ViewSpecs.MappingOrderIsIrrelevant` | src/main.rs:962-1020 | Every permutation of a mapping list is accepted or refused alike and gives the same inputs. |
| `ViewSpecs.MappedInputsAreValid` | src/config.rs:339-364 | Accepted mappings satisfy the mapping clauses of configuration validation. |
| `ViewSpecs.ParseView` | src/main.rs:612-665 | The three parsers together build exactly the view the arguments describe, or refuse. |
| `ViewSpecs.ViewRoundTrip` | src/main.rs:902-1020 | Printing any valid view as specs and parsing them rebuilds it. |
| `ViewSpecs.ParsedViewIsValid` | src/config.rs:322-364 | What the parsers accept passes configuration validation if and only if its data types are valid, its source column is not one of its columns, and it has inputs: these three are left to validation. |
| `ViewSpecs.InputRoundTrip` | src/main.rs:902-930 | An input spec reads back as its backend and relation. |
| `ViewSpecs.ParseViewInputMeaning` | src/main.rs:902-930 | Exactly the texts `BACKEND=TABLE` and `BACKEND=SCHEMA.TABLE` of valid names are read, as what they say. |
| `ViewSpecs.ParseColumnMeaning` | src/main.rs:932-960 | Exactly the texts `NAME=TYPE` with a valid name are read; the type is everything after the first equals sign. |
| `ViewSpecs.ParseMappingMeaning` | src/main.rs:962-1020 | Exactly the texts `BACKEND:LOGICAL=PHYSICAL` are read, split at the first colon and the first equals sign after it. |
| `ViewSpecs.RepeatedInput` | src/main.rs:622-637 | Finds a backend named twice exactly if there is one. |
| `SqlGuard.VisitMeaning` | src/sql.rs:73-117 | The walk accepts exactly if every relation and function node at any depth passes its own check. |
| `SqlGuard.AcceptanceIsMonotone` | src/sql.rs:119-149 | What is accepted for a set of relations is accepted for every larger set. |
| `SqlGuard.AcceptedTexts` | src/sql.rs:56-71 | A text is accepted exactly if it parses to one read-only statement whose nodes all pass. |
| `SqlGuard.AcceptedExactly` | src/sql.rs:56-192 | The same without the guard's own functions: no node at any depth calls a function named `read_..`, `parquet_..`, `.._scan` or one of six others, in whatever case and however qualified, uses a computed, single-quoted or path-like name, or names something like a file that is not registered. |
| `SqlGuard.SourcesAreRefused` | src/sql.rs:119-192 | Such calls and path-like names are refused at any depth, whatever is registered. |
| `SqlGuard.BlockedFunctionMeaning` | src/sql.rs:167-192 | Exactly those functions are refused and no others. |
| `SqlGuard.RefusalsAreTrue` | src/sql.rs:56-117 | The reason given for a refusal is the first that applies, and true. |
| `SqlGuard.RegisteredRelations` | src/engine.rs:397-415 | The loop builds exactly the full name, the name without `main` and the name without `memory` of each catalog row, in lower case. |
| `SqlGuard.IndexMeaning` | src/engine.rs:397-415 | The set holds exactly those spellings, written out. |
| `SqlGuard.GuardAgreesExactly` | src/engine.rs:406-413 | The exact condition on the catalog: for all dot-free plain names, a file-shaped name is accepted if and only if some relation is named so, ignoring ASCII case, precisely if each file-shaped spelling without path characters that the index holds, split at its dots, is itself a name of a relation. |
| `SqlGuard.GuardAgreesWithIndex` | src/sql.rs:119-149 | In particular guard and catalog agree if no catalog name has a dot. |
| `SqlGuard.DottedNamesDisagree` | src/engine.rs:406-413 | A catalog that fails the condition: a table `a.parquet` lets the file-shaped name `main.a.parquet` through, which is blocked without the table and names nothing. |
| `ErrorText.FormatQueryError` | src/engine.rs:417-430 | The loop ends, returns a prefix of its input, is reached by stripping placeholders only, and leaves none. |
| `ErrorText.PlaceheldMeaning` | src/engine.rs:417-430 | What a placeholder is, letter by letter. |
| `ErrorText.CleanedFromIsUnique` | src/engine.rs:417-430 | Stripping placeholders leads to one clean message only. |
| `ErrorText.PlaceholdersAreRemoved` | src/engine.rs:417-430 | On a clean message followed by any number of placeholders the loop returns exactly the message. |
| `SqlText.StepQuoted` | src/engine.rs:550-552 | Any identifier, quoted, lexes as one token that reads back as it. |
| `SqlText.StepLiteral` | src/engine.rs:554-556 | Any string, escaped and quoted, lexes as one token that reads back as it. |
| `SqlText.LexText` | src/engine.rs:709-754 | Text put together from names, values and fixed text lexes to their tokens one after another. |
| `SqlGrammar.ScriptRoundTrip` | src/engine.rs:744-754 | Parsing the tokens of a view script gives back the script. |
| `SqlPrinting.ScriptTextRoundTrip` | src/engine.rs:709-754 | The text of a view script lexes and parses back to it if and only if the parentheses of every data type are balanced. |
| `SqlSources.RegisterRoundTrip` | src/engine.rs:473-506 | The text that registers a backend reads back as its kind, path or files, its name and its relation, for arbitrary paths. |
| `SqlSources.RegisterOptions` | src/engine.rs:473-506 | Databases are attached read-only as what they are; the columns of Parquet files are united by name. |
| `SqlSources.ValuesText` | src/engine.rs:558-567 | The text of a file list is that of `sql_path_list`. |
| `ViewCompiler.CompileView` | src/engine.rs:642-766 | Succeeds exactly if the view compiles, returns exactly the specified status and statement, and gives a true reason otherwise. |
| `ViewCompiler.CompileViews` | src/engine.rs:633-639 | Compiles all views or none: succeeds exactly if every view compiles, with all their results in order, and gives a true reason of the first that does not otherwise. |
| `ViewCompiler.CompilingIgnoresOrder` | src/engine.rs:673-683 | Whether the views compile does not depend on the order backends and views are listed in: the probe of an unsorted configuration answers for the sorted one that is saved. |
| `ViewCompiler.ResolveInputs` | src/engine.rs:666-737 | The loop over the inputs pushes exactly the selects of the resolved ones and the reasons of the skipped ones, in order. |
| `ViewCompiler.CompileInput` | src/engine.rs:709-735 | The text built for one input is that of its select: the source column, then the casts in key order or a star, from the quoted relation. |
| `ViewText.SelectIsSpelled` | src/engine.rs:709-735 | That text, written out from the view's own fields: mapped columns under their logical names, cast to their declared types, from the quoted path of the input. |
| `ViewText.StatementIsSpelled` | src/engine.rs:739-755 | The whole statement, written out, with or without declared columns; there is one exactly if the view is enabled and some input can be used. |
| `ViewText.CompilesMeaning` | src/engine.rs:655-707 | Exactly when a view compiles: its schema is not taken by an enabled backend, no demanded input is missing or disabled, and Parquet inputs name the relation there is. |
| `ViewText.StatusMeaning` | src/engine.rs:645-765 | The status is ready exactly if there is a statement, unavailable exactly if no input can be used; each skipped source has the true reason. |
| `ViewMeaning.ResolvedAreUsable` | src/engine.rs:667-703 | The inputs resolved are exactly those whose backend is registered and enabled, in order. |
| `ViewDescription.TablePathMeaning` | src/engine.rs:768-772 | The path of an input's table is its backend followed by the dot-free parts that spell its relation. |
| `ViewMeaning.CompiledTextParses` | src/engine.rs:744-754 | The emitted statement parses back to its script exactly if the declared types are balanced. |
| `ViewMeaning.UnbalancedTypeBreaksStatement` | src/config.rs:263-273 | A valid configuration with a column of type `)`: its view compiles, and the emitted statement does not read back as the view. |
| `ViewMeaning.CompilationPreservesMeaning` | src/engine.rs:667-755 | The emitted text, lexed, parsed and evaluated, denotes the bag union of the usable inputs' rows as the view describes them (`ViewDescription`, which uses nothing of the compiler): renamed, cast and tagged; it is undefined exactly if an input cannot be read. |
| `ViewMeaning.ModesAreEquivalent` | src/engine.rs:744-747 | With declared columns `union_all` and `union_all_by_name` denote the same relation for every contents of the tables. |
| `ViewMeaning.SourceColumnSelectsOneInput` | src/engine.rs:710-716 | Filtering on the source column gives back exactly one input's rows. |
| `ViewSources.SourceColumnSelectsFromStatement` | src/engine.rs:710-716 | The same for the emitted statement: of the bag it denotes, the rows that the source column attributes to an input are exactly that input's, each as often as the input has it. |
| `SqlMeaning.UnionsAgree` | src/engine.rs:744-747 | Over relations with the same distinct columns the two unions are the same. |
| `ViewSources.SourcesSplitInputs` | src/engine.rs:670-737 | Resolved and skipped sources split the inputs, in order; an input is resolved exactly if its backend is registered and enabled. |
| `ViewSources.StatementExists` | src/engine.rs:739-765 | A statement exists exactly if the view is enabled and some input is resolved. |
| `ViewSources.ErrorPolicyResolvesAll` | src/engine.rs:676-707 | Success under the error policy means that every input was resolved. |
| `ViewSources.DisablingFiltersInputs` | src/engine.rs:691-703 | Disabling a backend removes exactly its inputs from those resolved. |
| `ViewSources.DisablingKeepsCompiling` | src/engine.rs:691-703 | Under the skip policy a view that compiles still compiles after a backend is disabled. |
| `ViewSources.DisablingRemovesItsRows` | src/main.rs:500-529 | The rows before are the rows after and the rows of the disabled backend's inputs, as bags. |
| `ViewSources.DisablingShrinksStatement` | src/main.rs:500-529 | The same for the two emitted statements: what the one before denotes is what the one after denotes and the rows of the disabled backend's inputs, as bags. |
| `ViewSources.ToggleRestores` | src/main.rs:500-529 | Disabling and enabling again gives back the configuration and the identical statement. |
| `ViewSources.DisabledIsNormal` | src/main.rs:500-529 | What disabling a backend leaves of a normal form is a normal form: it is saved and loaded as it is. |
| `RepositoryTransactions.ToggleTransactions` | src/main.rs:500-529 | Disabling and enabling again as two transactions through the file: the first goes through exactly if a pool can be built without the backend, and the second then restores the saved configuration itself. |
| `Commands.FindBackendIsFirst` | src/engine.rs:671-675 | If a backend with the name exists, the one found is the first of them. |

## Left out

- DuckDB itself (running queries, extensions, `information_schema`, catalog errors), `glob` and path canonicalisation: what they return is an argument or a free choice of a step. Casts are an arbitrary function of type and value.
- TOML, JSON and HTTP encoding: a configuration file is the configuration it encodes, a reload request is one step that arrives or fails. `atomic_write` is one replacement of the whole file or nothing; crashes in the middle of it are not modelled.
- Reports after a transaction (`configuration_reloaded`, the inspection of an added view) are not part of it: they can still fail after a commit.
- The unlocked checks of `add`, `remove`, `view add` and `view remove`, and `test_backend`, are free to refuse; what they look at is not modelled.
- Unlocked `duckdoor reload` and manual edits of the file are not steps of the transactions.
- TransactionInvariant.StepKeeps: does not cover the late store of an abandoned handler, because it breaks the invariant (`TransactionLimits.LateStoresDoHarm`). A mutator that dies while its request is in flight gives up and then dies.
- ConfigStoreRuns.TransactIsARun: speaks of one mutator that runs without others in between; the interleavings are those of the step system. The step system and `Transact` share the outcome, the file and the lock, not the list of configurations the daemon was asked to load.
- Every process creates the default configuration first if it finds none, without the lock. The runs start with the file in place and without a process that still is to create it; `TransactionExactness.ResetLosesUpdates` says when such a process does harm.
- TransactionExactness.OutcomesDecide: needs rules under which something servable can always be changed into something else servable. `RepositoryTransactions.RepositoryOutcomesDecide` gets that from one assumption about DuckDB: what it opens, it also opens with fewer enabled views. Which normal forms DuckDB can open at all does not change during a run; a single attempt can fail at any time.
- One daemon at a time: the gap between unlocking and removing the pid file is not modelled.
- WorkerPool.StepKeeps: dropping the senders of a pool is one step; a worker sees only its own sender, so the order among them has no effect. `run_query` is assumed to return.
- GatewayProperties.AtMostOnce: says which handle is fired, not which query the interrupt hits; the guard is armed while the query may still be queued, so a late interrupt may hit the query of another call on that worker.
- EngineThreads.WorkerLoop: takes the channel as the sequence of messages it will deliver, without the timing of sends; that part is in the step system.
- EngineThreads.CollectReady: takes the ready messages as already sent.
- ViewMeaning.CompilationPreservesMeaning: needs declared columns. Views without them are `SELECT *`; their text is modelled and parsed, but under `UNION ALL BY NAME` their columns change with the branches, so nothing is said about their rows. Column names are compared exactly, not ignoring case.
- SqlPrinting.ScriptTextRoundTrip: a data type is the tokens up to the closing parenthesis of its cast; only parentheses have to be balanced, brackets are ordinary symbols.
- ViewSources.DisablingRemovesItsRows: states the effect on the rows the statement denotes; whether DuckDB can still read the other sources is not modelled.
- SqlGuard.VisitMeaning: the syntax tree is reduced to the nodes the visitor looks at; the parser is an argument.
- ViewSpecs.ParseView: error messages are reduced to their kinds; how the command line hands over its arguments is not modelled.
- ErrorText.FormatQueryError: works on the text of the error chain, whose formatting is not modelled. Text is a sequence of characters; a suffix is cut at a character boundary in the source as well.
- Config.ValidateConfig: the listen address is not checked here, because the source parses it elsewhere; paths are absolute if they start with a slash.
- `resolve_parquet_files`, `harden_connection`, `validate_init_sql`, `value_to_json`, `run_query`'s row cap, table output, `status`, `logs`, `doctor`, token generation: easy members or plumbing.
