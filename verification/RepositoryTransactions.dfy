/** The protocol of configuration transactions with the repository's own validation, commands and view compiler. */
module RepositoryTransactions {
  import opened Wrappers
  import opened Lists
  import opened Strings
  import opened Sorting
  import opened Commands
  import opened Config
  import opened ViewCompiler
  import opened ViewSources
  import opened Transactions
  import opened TransactionProperties
  import opened TransactionHistory
  import opened TransactionPromise
  import opened TransactionLimits
  import opened TransactionExactness

  // ----- the repository's rules -----

  /** A pool can be built from a normal form if its views compile and DuckDB, with the files that are there, opens
      what they compile to. `opens` is the second part. */
  function RepositoryRules(opens: Configuration -> bool): Rules {
    Rules(c => Validated(c), (k, c) => Mutate(k, c), c => ViewsCompile(c) && opens(c))
  }

  lemma RulesOfRepository(opens: Configuration -> bool, command: Command, c: Configuration)
    ensures var rules := RepositoryRules(opens);
            && rules.validated(c) == Validated(c) && rules.mutate(command, c) == Mutate(command, c)
            && rules.activates(c) == (ViewsCompile(c) && opens(c))
  {
  }

  /** Validation's normal forms are fixed. */
  lemma RepositoryRulesAreSound(opens: Configuration -> bool)
    ensures RepositoryRules(opens).Sound()
  {
    var rules := RepositoryRules(opens);
    forall c, n | rules.validated(c) == Some(n) ensures rules.validated(n) == Some(n) {
      NormalFormIsFixed(c, n);
    }
  }

  // ----- what the file holds -----

  lemma AcceptedIsValid(opens: Configuration -> bool, c: Configuration)
    ensures RepositoryRules(opens).validated(c).Some? ==> ValidConfig(c)
    ensures RepositoryRules(opens).validated(c) == Some(c) ==> Normal(c) == c
  {
  }

  /** At every instant, whoever reads it and whether or not they hold the lock, the file is one complete
      valid configuration; in particular the names in it are unique. */
  lemma EveryVersionIsValid(opens: Configuration -> bool, config: Configuration, s: System, version: nat)
    requires Reachable(RepositoryRules(opens), config, s) && version < |s.writes|
    ensures ValidConfig(s.writes[version])
    ensures version > 0 ==> Normal(s.writes[version]) == s.writes[version]
  {
    EveryVersionIsAccepted(RepositoryRules(opens), config, s, version);
    AcceptedIsValid(opens, s.writes[version]);
  }

  /** Every view of every saved configuration compiles, unless a rollback has restored the first configuration and
      that had views that do not. */
  lemma SavedViewsCompile(opens: Configuration -> bool, config: Configuration, s: System, version: nat)
    requires Reachable(RepositoryRules(opens), config, s) && 0 < version < |s.writes|
    ensures ViewsCompile(s.writes[version]) || s.writes[version] == Normal(config)
    ensures ViewsCompile(Normal(config)) ==> ViewsCompile(s.writes[version])
  {
    SavedVersionsActivate(RepositoryRules(opens), config, s, version);
    EveryVersionIsValid(opens, config, s, version);
    RulesOfRepository(opens, RemoveAll, s.writes[version]);
    RulesOfRepository(opens, RemoveAll, config);
  }

  /** Every view of what a daemon serves compiles: each has the status and the statement that the compiler gives
      it. */
  lemma ServedViewsCompile(opens: Configuration -> bool, config: Configuration, s: System)
    requires Reachable(RepositoryRules(opens), config, s) && s.daemon.Up?
    ensures s.daemon.version < |s.writes|
    ensures var served := s.writes[s.daemon.version]; ValidConfig(served) && ViewsCompile(Normal(served))
  {
    ServedVersionActivates(RepositoryRules(opens), config, s);
    EveryVersionIsValid(opens, config, s, s.daemon.version);
    RulesOfRepository(opens, RemoveAll, s.writes[s.daemon.version]);
    RulesOfRepository(opens, RemoveAll, Normal(s.writes[s.daemon.version]));
  }

  lemma NoEffectUncompiled(opens: Configuration -> bool, command: Command, previous: Configuration)
    requires var result := Mutate(command, previous); result.Changed? && !ViewsCompile(result.config)
    ensures var rules := RepositoryRules(opens);
            rules.Effect(command, previous).None? && rules.mutate(command, previous) != Unchanged
  {
    var updated := Mutate(command, previous).config;
    RulesOfRepository(opens, command, previous);
    RulesOfRepository(opens, command, updated);
    RulesOfRepository(opens, command, Normal(updated));
    if ValidConfig(updated) {
      ValidityOfNormal(updated);
      CompilingIgnoresOrder(updated, Normal(updated));
    }
  }

  /** A command whose result has a view that does not compile is refused and leaves the file alone. */
  lemma UncompilableIsRefused(opens: Configuration -> bool, config: Configuration, s: System, i: nat)
    requires Reachable(RepositoryRules(opens), config, s) && i < |s.log|
    requires var result := Mutate(s.log[i].command, Normal(s.log[i].before));
             result.Changed? && !ViewsCompile(result.config)
    ensures s.log[i].outcome == Denied || s.log[i].outcome == Died(BeforeSave)
    ensures s.log[i].after == s.log[i].before
  {
    OutcomesAreTrue(RepositoryRules(opens), config, s, i);
    RulesOfRepository(opens, RemoveAll, s.log[i].before);
    NoEffectUncompiled(opens, s.log[i].command, Normal(s.log[i].before));
  }

  // ----- adding the same name twice -----

  /** Two adds of one name may both pass their unlocked checks; the one that takes the lock second is refused
      and leaves the file alone. */
  lemma SecondAddIsRefused(opens: Configuration -> bool, config: Configuration, s: System, i: nat,
                           backend: Backend)
    requires Reachable(RepositoryRules(opens), config, s) && i < |s.log| && s.log[i].command == AddBackend(backend)
    requires exists b :: b in s.log[i].before.backends && b.name == backend.name
    ensures s.log[i].outcome == Denied || s.log[i].outcome == Died(BeforeSave)
    ensures s.log[i].after == s.log[i].before
  {
    var e := s.log[i];
    OutcomesAreTrue(RepositoryRules(opens), config, s, i);
    AddOfTakenName(opens, e.before, Validated(e.before).value, backend);
  }

  lemma AddOfTakenName(opens: Configuration -> bool, before: Configuration, previous: Configuration, backend: Backend)
    requires Validated(before) == Some(previous)
    requires exists b :: b in before.backends && b.name == backend.name
    ensures Mutate(AddBackend(backend), previous) == Refused
    ensures RepositoryRules(opens).mutate(AddBackend(backend), previous) == Refused
    ensures RepositoryRules(opens).Effect(AddBackend(backend), previous).None?
  {
    var b :| b in before.backends && b.name == backend.name;
    SortKeeps(before.backends, BackendKey);
    assert b in multiset(before.backends);
    assert b in previous.backends;
  }

  /** The same for views: adding one appends it without looking, and validation refuses the second. */
  lemma SecondViewIsRefused(opens: Configuration -> bool, config: Configuration, s: System, i: nat,
                            view: LogicalView)
    requires Reachable(RepositoryRules(opens), config, s) && i < |s.log| && s.log[i].command == AddView(view)
    requires exists v :: v in s.log[i].before.views && v.schema == view.schema && v.name == view.name
    ensures s.log[i].outcome == Denied || s.log[i].outcome == Died(BeforeSave)
    ensures s.log[i].after == s.log[i].before
  {
    var e := s.log[i];
    OutcomesAreTrue(RepositoryRules(opens), config, s, i);
    ViewOfTakenName(opens, e.before, Validated(e.before).value, view);
  }

  lemma ViewOfTakenName(opens: Configuration -> bool, before: Configuration, previous: Configuration, view: LogicalView)
    requires Validated(before) == Some(previous)
    requires exists v :: v in before.views && v.schema == view.schema && v.name == view.name
    ensures RepositoryRules(opens).Effect(AddView(view), previous).None?
    ensures RepositoryRules(opens).mutate(AddView(view), previous) != Unchanged
  {
    var v :| v in before.views && v.schema == view.schema && v.name == view.name;
    SortKeeps(before.views, ViewKey);
    assert v in multiset(before.views);
    assert v in previous.views;
    TakenViewIsInvalid(previous, v, view);
  }

  lemma TakenViewIsInvalid(previous: Configuration, v: LogicalView, view: LogicalView)
    requires v in previous.views && v.schema == view.schema && v.name == view.name
    ensures !DistinctViews(previous.views + [view])
  {
    var (k, views) := (IndexOfView(previous.views, v), previous.views + [view]);
    assert views[k] == v && views[|previous.views|] == view;
  }

  function IndexOfView(views: seq<LogicalView>, v: LogicalView): (k: nat)
    requires v in views
    ensures k < |views| && views[k] == v
  {
    if views[0] == v then 0 else 1 + IndexOfView(views[1..], v)
  }

  // ----- disabling and enabling again -----

  /** Disabling an enabled backend and enabling it again are two transactions that give back the saved configuration
      itself, as long as a pool can be built from both. */
  lemma {:induction false} ToggleTransactions(opens: Configuration -> bool, config: Configuration, name: string)
    requires Validated(config) == Some(config) && RepositoryRules(opens).CanServe(config)
    requires FindBackend(config.backends, name).Some? && FindBackend(config.backends, name).value.enabled
    ensures var (rules, off) := (RepositoryRules(opens), ViewSources.Disabled(config, name));
            && rules.Effect(SetEnabled(name, false), config) == (if rules.CanServe(off) then Some(off) else None)
            && rules.Effect(SetEnabled(name, true), off) == Some(config)
  {
    var off := ViewSources.Disabled(config, name);
    ToggleRestores(config, name, ASLEEP);
    DisabledIsNormal(config, name);
    RulesOfRepository(opens, SetEnabled(name, false), config);
    RulesOfRepository(opens, SetEnabled(name, true), off);
  }

  // ----- examples -----

  const EXAMPLE_BACKEND := Backend("a", Sqlite, "/a", None, true)

  const EXAMPLE := Configuration(1, "127.0.0.1:8080", 1, 1, 1, 1, [EXAMPLE_BACKEND], [])

  const EMPTIED := EXAMPLE.(backends := [])

  const TURNED_OFF := EXAMPLE.(backends := [EXAMPLE_BACKEND.(enabled := false)])

  lemma ExampleIsNormal()
    ensures Validated(EXAMPLE) == Some(EXAMPLE) && Validated(EMPTIED) == Some(EMPTIED)
    ensures Mutate(RemoveAll, EXAMPLE) == Changed(EMPTIED)
  {
    var views: seq<LogicalView> := [];
    assert ValidName("a") && AbsolutePath("/a") && ValidBackend(EXAMPLE_BACKEND);
    assert Sort([EXAMPLE_BACKEND], BackendKey) == [EXAMPLE_BACKEND];
    assert Sort(views, ViewKey) == [] && Sort([], BackendKey) == [];
    assert ValidConfig(EXAMPLE) && Normal(EXAMPLE) == EXAMPLE;
    assert ValidConfig(EMPTIED) && Normal(EMPTIED) == EMPTIED;
  }

  lemma ExampleCanBeEmptied(opens: Configuration -> bool)
    requires opens(EMPTIED)
    ensures RepositoryRules(opens).validated(EXAMPLE) == Some(EXAMPLE)
    ensures RepositoryRules(opens).Effect(RemoveAll, EXAMPLE) == Some(EMPTIED)
  {
    ExampleIsNormal();
  }

  lemma ExampleCanBeTurnedOff(opens: Configuration -> bool)
    requires opens(TURNED_OFF)
    ensures RepositoryRules(opens).Effect(SetEnabled("a", false), EXAMPLE) == Some(TURNED_OFF)
  {
    var disabled := EXAMPLE_BACKEND.(enabled := false);
    assert ValidName("a") && AbsolutePath("/a") && ValidBackend(disabled);
    assert WithEnabled([EXAMPLE_BACKEND], "a", false) == [disabled] + [];
    assert Sort([disabled], BackendKey) == [disabled];
  }

  /** Removing every backend, rolled back, and served. */
  lemma RolledBackRemovalCanBeServed(opens: Configuration -> bool) returns (s: System)
    requires opens(EMPTIED)
    ensures Reachable(RepositoryRules(opens), EXAMPLE, s) && s.lock.None?
    ensures |s.log| == 1 && s.log[0].outcome == RolledBack
    ensures s.writes == [EXAMPLE, EMPTIED, EXAMPLE] && s.daemon == Up(1, None)
  {
    RepositoryRulesAreSound(opens);
    ExampleCanBeEmptied(opens);
    s := RolledBackChangeCanBeServed(RepositoryRules(opens), EXAMPLE, RemoveAll, EMPTIED);
  }

  /** A removal is abandoned, a disabling commits, and the daemon goes back to the removal. */
  lemma AbandonedRemovalCanBeServed(opens: Configuration -> bool) returns (s: System)
    requires opens(EMPTIED) && opens(TURNED_OFF)
    ensures ReachedAnyhow(RepositoryRules(opens), EXAMPLE, s) && s.lock.None? && HasCommitted(s, 1, 3)
    ensures s.writes == [EXAMPLE, EMPTIED, EXAMPLE, TURNED_OFF] && s.daemon == Up(1, None)
  {
    RepositoryRulesAreSound(opens);
    ExampleCanBeEmptied(opens);
    ExampleCanBeTurnedOff(opens);
    s := GivingUpBreaksTheHandshake(RepositoryRules(opens), EXAMPLE, RemoveAll, SetEnabled("a", false), EMPTIED,
                                    TURNED_OFF);
  }

  // ----- something can always be changed -----

  predicate NoMoreViews(c: Configuration, d: Configuration) {
    d == c.(views := d.views) && forall v :: v in d.views && v.enabled ==> v in c.views
  }

  /** Taking enabled views away does not keep a pool from opening. */
  ghost predicate Lenient(opens: Configuration -> bool) {
    forall c, d :: opens(c) && NoMoreViews(c, d) ==> opens(d)
  }

  lemma FewerViewsActivate(opens: Configuration -> bool, c: Configuration, d: Configuration)
    requires Lenient(opens) && ViewsCompile(c) && opens(c) && NoMoreViews(c, d)
    ensures ViewsCompile(d) && opens(d)
  {
    forall v | v in d.views ensures Compiles(d, v) {
      if v.enabled { assert Compiles(c, v); }
    }
  }

  const ASLEEP := LogicalView("v", "unified", false, UnionAll, Skip, None, map[], [ViewInput("a", "t", map[])])

  function ChangeOf(c: Configuration): Command {
    if c.views == [] then AddView(ASLEEP) else RemoveView(c.views[0].schema, c.views[0].name)
  }

  function Fewer(c: Configuration): Configuration {
    c.(views := if c.views == [] then [ASLEEP] else c.views[1..])
  }

  lemma AsleepIsValid()
    ensures ValidView(ASLEEP)
  {
    assert ValidName("a") && ValidName("t") && ValidName("v") && ValidName("unified");
    SplitPartsAreClean("t", '.');
    assert ValidRelation("t");
  }

  lemma OneViewIsNormal(c: Configuration, view: LogicalView)
    requires Validated(c) == Some(c) && ValidView(view)
    ensures Validated(c.(views := [view])) == Some(c.(views := [view]))
  {
    assert Sort([view], ViewKey) == [view];
  }

  lemma TailIsNormal(c: Configuration)
    requires Validated(c) == Some(c) && c.views != []
    ensures Validated(c.(views := c.views[1..])) == Some(c.(views := c.views[1..]))
  {
    SortKeeps(c.views, ViewKey);
    TailSorted(c.views, ViewKey);
    SortOfSorted(c.views[1..], ViewKey);
  }

  lemma FewerIsNormal(c: Configuration)
    requires Validated(c) == Some(c)
    ensures Validated(Fewer(c)) == Some(Fewer(c))
  {
    if c.views == [] {
      AsleepIsValid();
      OneViewIsNormal(c, ASLEEP);
    } else {
      TailIsNormal(c);
    }
  }

  lemma NormalIsSorted(c: Configuration)
    requires Validated(c) == Some(c)
    ensures Sort(c.backends, BackendKey) == c.backends && DistinctViews(c.views)
  {
  }

  lemma {:induction false} OthersStay(views: seq<LogicalView>)
    requires views != [] && DistinctViews(views)
    ensures Filter(OtherView(views[0].schema, views[0].name), views) == views[1..]
  {
    var other := OtherView(views[0].schema, views[0].name);
    forall v | v in views[1..] ensures other(v) {
      var i :| 0 <= i < |views[1..]| && views[1..][i] == v;
      assert views[i + 1] == v;
    }
    FilterAll(other, views[1..]);
  }

  lemma ChangeGivesFewer(c: Configuration)
    requires Validated(c) == Some(c)
    ensures Mutate(ChangeOf(c), c) == Changed(Fewer(c))
  {
    NormalIsSorted(c);
    if c.views == [] {
      AddGivesOne(c, ASLEEP);
    } else {
      RemoveGivesRest(c);
    }
  }

  lemma AddGivesOne(c: Configuration, view: LogicalView)
    requires c.views == [] && Sort(c.backends, BackendKey) == c.backends
    ensures Mutate(AddView(view), c) == Changed(c.(views := [view]))
  {
    assert [] + [view] == [view];
  }

  lemma RemoveGivesRest(c: Configuration)
    requires c.views != [] && DistinctViews(c.views) && Sort(c.backends, BackendKey) == c.backends
    ensures Mutate(RemoveView(c.views[0].schema, c.views[0].name), c) == Changed(c.(views := c.views[1..]))
  {
    OthersStay(c.views);
  }

  lemma CanBeChanged(opens: Configuration -> bool, c: Configuration)
    requires Lenient(opens) && Validated(c) == Some(c) && ViewsCompile(c) && opens(c)
    ensures Changes(RepositoryRules(opens), ChangeOf(c), c)
  {
    FewerIsNormal(c);
    ChangeGivesFewer(c);
    FewerViewsActivate(opens, c, Fewer(c));
    RulesOfRepository(opens, ChangeOf(c), c);
    RulesOfRepository(opens, ChangeOf(c), Fewer(c));
    assert Fewer(c).views != c.views;
  }

  function IdleOf(c: Configuration): Command {
    if c.backends == [] then RemoveAll else SetEnabled(c.backends[0].name, c.backends[0].enabled)
  }

  lemma CanBeLeft(c: Configuration)
    ensures Mutate(IdleOf(c), c) == Unchanged
  {
  }

  function RepositoryChoices(): Choices { Choices(c => ChangeOf(c), c => IdleOf(c)) }

  lemma RepositoryChoicesFit(opens: Configuration -> bool)
    requires Lenient(opens)
    ensures RepositoryChoices().Fit(RepositoryRules(opens))
  {
    var (rules, choices) := (RepositoryRules(opens), RepositoryChoices());
    forall c | rules.validated(c) == Some(c) && rules.activates(c) ensures Changes(rules, choices.change(c), c) {
      CanBeChanged(opens, c);
    }
    forall c | rules.validated(c) == Some(c) ensures rules.mutate(choices.idle(c), c) == Unchanged {
      CanBeLeft(c);
    }
  }

  // ----- what the outcomes promise -----

  /** For the repository's own rules, from any valid configuration, whether or not its views compile. */
  lemma RepositoryOutcomesDecide(opens: Configuration -> bool, config: Configuration, outcomes: seq<Outcome>)
    requires Lenient(opens) && ValidConfig(config) && AllPlain(outcomes)
    ensures PromisesDisk(RepositoryRules(opens), config, outcomes) <==>
            KeepsPromise(RepositoryRules(opens), Normal(config), outcomes)
  {
    RepositoryRulesAreSound(opens);
    RepositoryChoicesFit(opens);
    RulesOfRepository(opens, RemoveAll, config);
    OutcomesDecide(RepositoryRules(opens), RepositoryChoices(), config, outcomes);
  }

  /** From a configuration that can be served, the last holder that wrote the file has to have committed. */
  lemma FromServable(opens: Configuration -> bool, config: Configuration, outcomes: seq<Outcome>)
    requires Lenient(opens) && ValidConfig(config) && AllPlain(outcomes)
    requires ViewsCompile(Normal(config)) && opens(Normal(config))
    ensures PromisesDisk(RepositoryRules(opens), config, outcomes) <==> EndsWell(outcomes)
  {
    RepositoryOutcomesDecide(opens, config, outcomes);
    RulesOfRepository(opens, RemoveAll, Normal(config));
  }

  const DEMANDING := ASLEEP.(enabled := true, missingSourcePolicy := Error)

  /** A valid configuration no daemon can serve: a view demands a backend that is not there. */
  const ORPHANED := EMPTIED.(views := [DEMANDING])

  lemma OrphanedIsValid()
    ensures Validated(ORPHANED) == Some(ORPHANED) && !ViewsCompile(ORPHANED)
  {
    ExampleIsNormal();
    AsleepIsValid();
    assert ValidView(DEMANDING);
    assert Sort([DEMANDING], ViewKey) == [DEMANDING];
    assert DEMANDING in ORPHANED.views && DEMANDING.inputs[0] in DEMANDING.inputs;
    assert !InputOk(ORPHANED, DEMANDING, DEMANDING.inputs[0]);
  }

  lemma OrphanedCanBeFixed(opens: Configuration -> bool)
    requires opens(EMPTIED)
    ensures RepositoryRules(opens).Effect(RemoveView("unified", "v"), ORPHANED) == Some(EMPTIED)
  {
    OrphanedIsValid();
    ExampleIsNormal();
    ChangeGivesFewer(ORPHANED);
    assert Fewer(ORPHANED) == EMPTIED;
    RulesOfRepository(opens, RemoveView("unified", "v"), ORPHANED);
    RulesOfRepository(opens, RemoveView("unified", "v"), EMPTIED);
  }

  /** Started from it, one change that stays keeps the promise, although nobody has committed; one that is taken
      back does not. */
  lemma FromUnservable(opens: Configuration -> bool)
    requires Lenient(opens) && opens(EMPTIED)
    ensures ValidConfig(ORPHANED) && !ViewsCompile(Normal(ORPHANED)) && !EndsWell([PidUnknown])
    ensures PromisesDisk(RepositoryRules(opens), ORPHANED, [PidUnknown])
    ensures !PromisesDisk(RepositoryRules(opens), ORPHANED, [RolledBack])
  {
    OrphanedIsValid();
    RulesOfRepository(opens, RemoveAll, ORPHANED);
    OrphanedCanBeFixed(opens);
    LoneChangeKeepsPromise(RepositoryRules(opens), ORPHANED);
    LoneRollbackBreaksPromise(RepositoryRules(opens), ORPHANED, RemoveView("unified", "v"));
    RepositoryOutcomesDecide(opens, ORPHANED, [PidUnknown]);
    RepositoryOutcomesDecide(opens, ORPHANED, [RolledBack]);
  }
}
