/** One configuration transaction as code: `mutate_config`, `save_and_reload` and `save_config`, for a process
    that holds the lock. What can go wrong outside the process is an argument. */
module ConfigStore {
  import opened Wrappers
  import opened Commands
  import opened Config
  import opened ViewCompiler
  import opened Transactions
  import opened TransactionInvariant
  import opened TransactionProperties
  import opened CommandMeaning
  import opened RepositoryTransactions
  import opened RepositoryCommands

  /** How the outside world answers, in the order it is asked. Of a configuration whose views compile, `opens` says
      whether DuckDB can open it at all, `probe` whether it does this time. */
  datatype World = World(
    readable: bool, initSql: bool, opens: Configuration -> bool, probe: bool, writable: bool, pid: PidSeen,
    reload: bool, rewritable: bool, reloadAgain: bool)

  /** What the outcome of `save_and_reload` depends on; `servable` says that the new configuration passes validation
      and that a pool can be built from it. */
  function ExpectedOutcome(servable: bool, w: World, version: nat): Outcome {
    if !w.initSql || !w.probe || !w.writable || !servable then Denied
    else if w.pid.Unreadable? then PidUnknown
    else if w.pid.NoDaemon? || w.reload then Committed(version)
    else if w.rewritable then RolledBack
    else NotRolledBack
  }

  /** What the outcome of a whole transaction depends on. */
  function TransactionOutcome(rules: Rules, command: Command, disk: Configuration, w: World, version: nat): Outcome {
    match rules.validated(disk)
    case None => Denied
    case Some(previous) =>
      if !w.readable then Denied
      else
        match rules.mutate(command, previous)
        case Refused => Denied
        case Unchanged => AlreadySo
        case Changed(updated) => ExpectedOutcome(rules.CanServe(updated), w, version)
  }

  /** The file after a transaction with this outcome. */
  function FileAfter(rules: Rules, command: Command, disk: Configuration, outcome: Outcome): Configuration {
    match rules.validated(disk)
    case None => disk
    case Some(previous) =>
      if Harmless(outcome) then disk
      else if outcome.RolledBack? then previous
      else match rules.Effect(command, previous) case Some(normal) => normal case None => disk
  }

  /** The file afterwards is what the outcome says it is. */
  lemma FileAfterMeans(rules: Rules, command: Command, disk: Configuration, w: World, version: nat)
    requires rules.validated(disk).Some?
    ensures var outcome := TransactionOutcome(rules, command, disk, w, version);
            Means(rules, command, disk, outcome, FileAfter(rules, command, disk, outcome))
  {
  }

  /** The repository's pool can be built from what the command has made. */
  predicate CanBeServed(w: World, updated: Configuration) {
    ValidConfig(updated) && ViewsCompile(updated) && w.opens(Normal(updated))
  }

  lemma ServedByRules(w: World, updated: Configuration)
    ensures RepositoryRules(w.opens).CanServe(updated) <==> CanBeServed(w, updated)
  {
    RulesOfRepository(w.opens, RemoveAll, updated);
    RulesOfRepository(w.opens, RemoveAll, Normal(updated));
    if ValidConfig(updated) {
      ValidityOfNormal(updated);
      CompilingIgnoresOrder(updated, Normal(updated));
    }
  }

  /** The cases of a transaction, for the repository's rules. */
  lemma TransactionCases(command: Command, disk: Configuration, w: World, version: nat)
    ensures var outcome := TransactionOutcome(RepositoryRules(w.opens), command, disk, w, version);
            match Validated(disk)
            case None => outcome == Denied
            case Some(previous) =>
              if !w.readable then outcome == Denied
              else
                match Mutate(command, previous)
                case Refused => outcome == Denied
                case Unchanged => outcome == AlreadySo
                case Changed(updated) => outcome == ExpectedOutcome(CanBeServed(w, updated), w, version)
  {
    RulesOfRepository(w.opens, command, disk);
    if Validated(disk).Some? {
      var previous := Validated(disk).value;
      RulesOfRepository(w.opens, command, previous);
      if Mutate(command, previous).Changed? { ServedByRules(w, Mutate(command, previous).config); }
    }
  }

  lemma FileCases(command: Command, disk: Configuration, w: World, outcome: Outcome)
    ensures var after := FileAfter(RepositoryRules(w.opens), command, disk, outcome);
            match Validated(disk)
            case None => after == disk
            case Some(previous) =>
              if Harmless(outcome) then after == disk
              else if outcome.RolledBack? then after == previous
              else Mutate(command, previous).Changed? && CanBeServed(w, Mutate(command, previous).config) ==>
                     Some(after) == Validated(Mutate(command, previous).config)
  {
    RulesOfRepository(w.opens, command, disk);
    if Validated(disk).Some? {
      var previous := Validated(disk).value;
      RulesOfRepository(w.opens, command, previous);
      if Mutate(command, previous).Changed? {
        RulesOfRepository(w.opens, command, Mutate(command, previous).config);
        ServedByRules(w, Mutate(command, previous).config);
      }
    }
  }

  /** What loading, changing and saving do, case by case. */
  predicate Did(command: Command, before: Configuration, after: Configuration, w: World, version: nat,
                outcome: Outcome) {
    match Validated(before)
    case None => outcome == Denied && after == before
    case Some(previous) =>
      if !w.readable then outcome == Denied && after == before
      else
        match Mutate(command, previous)
        case Refused => outcome == Denied && after == before
        case Unchanged => outcome == AlreadySo && after == before
        case Changed(updated) =>
          && outcome == ExpectedOutcome(CanBeServed(w, updated), w, version)
          && (if outcome.Denied? then after == before
              else if outcome.RolledBack? then after == previous
              else Validated(updated) == Some(after))
  }

  lemma DidAsTransaction(command: Command, before: Configuration, after: Configuration, w: World, version: nat,
                         outcome: Outcome)
    requires Did(command, before, after, w, version, outcome)
    ensures outcome == TransactionOutcome(RepositoryRules(w.opens), command, before, w, version)
    ensures after == FileAfter(RepositoryRules(w.opens), command, before, outcome)
  {
    TransactionCases(command, before, w, version);
    FileCases(command, before, w, outcome);
  }

  lemma DidMeans(command: Command, before: Configuration, w: World, version: nat)
    requires Validated(before).Some?
    ensures var outcome := TransactionOutcome(RepositoryRules(w.opens), command, before, w, version);
            Means(RepositoryRules(w.opens), command, before, outcome,
                  FileAfter(RepositoryRules(w.opens), command, before, outcome))
  {
    RulesOfRepository(w.opens, command, before);
    FileAfterMeans(RepositoryRules(w.opens), command, before, w, version);
  }

  class Store {
    var disk: Configuration
    var version: nat
    // what the file held whenever the daemon was asked to reload
    var reloads: seq<Configuration>

    constructor (disk: Configuration)
      ensures this.disk == disk && version == 0 && reloads == []
    {
      this.disk, version, reloads := disk, 0, [];
    }

    /** `save_config`: validation, then one atomic replacement, which can fail as a whole. */
    method Save(config: Configuration, writable: bool) returns (saved: bool)
      modifies this`disk, this`version
      ensures saved <==> writable && ValidConfig(config)
      ensures disk == (if saved then Normal(config) else old(disk))
      ensures version == old(version) + if saved then 1 else 0
    {
      var normal := ValidateConfig(config);
      if normal.Failure? || !writable { return false; }
      disk, version := normal.value, version + 1;
      return true;
    }

    /** `daemon::reload`: the daemon reads the file as it is now. */
    method Reload(answer: bool) returns (ok: bool)
      modifies this`reloads
      ensures ok == answer && reloads == old(reloads) + [disk]
    {
      reloads := reloads + [disk];
      return answer;
    }

    method SaveAndReload(previous: Configuration, updated: Configuration, w: World) returns (outcome: Outcome)
      requires Validated(disk) == Some(previous)
      modifies this
      ensures outcome == ExpectedOutcome(CanBeServed(w, updated), w, old(version) + 1)
      ensures match outcome
              case Denied => disk == old(disk) && version == old(version)
              case RolledBack => disk == previous && version == old(version) + 2
              case _ => Validated(updated) == Some(disk) && version == old(version) + 1
      ensures reloads == old(reloads) +
                if outcome.Denied? || w.pid != SomeDaemon then []
                else if outcome.RolledBack? then [Normal(updated), previous]
                else [Normal(updated)]
    {
      if !w.initSql { return Denied; }
      var compiled := CompileViews(updated);
      if compiled.Failure? || !w.opens(Normal(updated)) || !w.probe { return Denied; }
      var saved := Save(updated, w.writable);
      if !saved { return Denied; }
      if w.pid.Unreadable? { return PidUnknown; }
      if w.pid.NoDaemon? { return Committed(version); }
      var ok := Reload(w.reload);
      if !ok {
        NormalFormIsFixed(old(disk), previous);
        saved := Save(previous, w.rewritable);
        if !saved { return NotRolledBack; }
        ok := Reload(w.reloadAgain);
        return RolledBack;
      }
      return Committed(version);
    }

    /** Loading, changing, saving: what every command does under the lock. */
    method ChangeAndSave(command: Command, w: World) returns (outcome: Outcome)
      modifies this
      ensures Did(command, old(disk), disk, w, old(version) + 1, outcome)
      ensures outcome.Committed? ==> version == old(version) + 1
    {
      var loaded := ValidateConfig(disk);
      if loaded.Failure? || !w.readable { return Denied; }
      var previous := loaded.value;
      match Mutate(command, previous) {
        case Refused =>
          return Denied;
        case Unchanged =>
          return AlreadySo;
        case Changed(updated) =>
          outcome := SaveAndReload(previous, updated, w);
      }
    }

    /** A whole transaction: its outcome and the file it leaves, for every way the world can answer. */
    method Transact(command: Command, w: World) returns (outcome: Outcome)
      modifies this
      ensures outcome == TransactionOutcome(RepositoryRules(w.opens), command, old(disk), w, old(version) + 1)
      ensures disk == FileAfter(RepositoryRules(w.opens), command, old(disk), outcome)
      ensures Validated(old(disk)).Some? ==> Means(RepositoryRules(w.opens), command, old(disk), outcome, disk)
      ensures ValidConfig(old(disk)) && Kept(outcome) ==> Made(command, Normal(old(disk)), disk)
      ensures outcome.Committed? ==> version == old(version) + 1
    {
      outcome := ChangeAndSave(command, w);
      DidAsTransaction(command, old(disk), disk, w, old(version) + 1, outcome);
      if Validated(old(disk)).Some? {
        DidMeans(command, old(disk), w, old(version) + 1);
        EntryOfCommand(w.opens, Entry(0, command, old(disk), disk, outcome));
      }
    }
  }

  // ----- the in-place part of `set_enabled` -----

  lemma {:induction false} WithEnabledAt(backends: seq<Backend>, i: nat, name: string, enabled: bool)
    requires i < |backends| && backends[i].name == name && forall j :: 0 <= j < i ==> backends[j].name != name
    ensures WithEnabled(backends, name, enabled) == backends[i := backends[i].(enabled := enabled)]
    ensures FindBackend(backends, name) == Some(backends[i])
  {
    if i > 0 {
      WithEnabledAt(backends[1..], i - 1, name, enabled);
      assert backends == [backends[0]] + backends[1..];
    }
  }

  /** The first backend with the name gets the new setting, where it stands. */
  method EnableInPlace(backends: array<Backend>, name: string, enabled: bool) returns (found: Option<Backend>)
    modifies backends
    ensures found == FindBackend(old(backends[..]), name)
    ensures found.None? ==> backends[..] == old(backends[..])
    ensures found.Some? ==> backends[..] == WithEnabled(old(backends[..]), name, enabled)
  {
    ghost var before := backends[..];
    for i := 0 to backends.Length
      invariant backends[..] == before
      invariant forall j :: 0 <= j < i ==> before[j].name != name
    {
      if backends[i].name == name {
        found := Some(backends[i]);
        WithEnabledAt(before, i, name, enabled);
        backends[i] := backends[i].(enabled := enabled);
        assert backends[..] == before[i := before[i].(enabled := enabled)];
        return;
      }
    }
    return None;
  }
}
