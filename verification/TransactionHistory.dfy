/** What the log says about every content the file has had, and which of them a daemon can serve. */
module TransactionHistory {
  import opened Wrappers
  import opened Commands
  import opened Config
  import opened Transactions
  import opened TransactionInvariant
  import opened TransactionProperties

  // ----- the file as the log tells it -----

  /** The holder with this outcome has written the previous configuration over its own change. */
  predicate TakesBack(outcome: Outcome) { outcome == RolledBack || outcome == Died(AfterRollback) }

  function EffectOn(rules: Rules, command: Command, before: Configuration): Option<Configuration> {
    match rules.validated(before)
    case None => None
    case Some(previous) => rules.Effect(command, previous)
  }

  function Listed(c: Option<Configuration>): seq<Configuration> { match c case None => [] case Some(x) => [x] }

  /** What a lock holder wrote, in order. */
  function WritesOf(rules: Rules, e: Entry): seq<Configuration> {
    if Harmless(e.outcome) then []
    else if TakesBack(e.outcome) then Listed(EffectOn(rules, e.command, e.before)) + [e.after]
    else [e.after]
  }

  /** Every content of the file: the first, and what the holders wrote, in lock order. */
  function History(rules: Rules, first: Configuration, log: seq<Entry>): (r: seq<Configuration>)
    ensures r != [] && r[0] == first
  {
    if log == [] then [first]
    else History(rules, first, log[..|log| - 1]) + WritesOf(rules, log[|log| - 1])
  }

  lemma {:induction false} HistorySnoc(rules: Rules, first: Configuration, log: seq<Entry>, e: Entry)
    ensures History(rules, first, log + [e]) == History(rules, first, log) + WritesOf(rules, e)
  {
    assert (log + [e])[..|log|] == log;
  }

  /** The present holder's entry, if it ended now. */
  function EntryNow(s: System, m: nat): Entry
    requires s.writes != [] && m < |s.mutators|
  {
    Entry(m, s.mutators[m].command, s.before, Disk(s), Died(DeathOf(s.mutators[m].stage)))
  }

  /** The log, with the present holder counted as if it ended now. */
  function FileLog(s: System): seq<Entry>
    requires s.writes != []
  {
    if s.lock.Some? && s.lock.value < |s.mutators| then s.log + [EntryNow(s, s.lock.value)] else s.log
  }

  ghost predicate Logged(s: System) { s.writes != [] && s.writes == History(s.rules, s.writes[0], FileLog(s)) }

  // ----- every step keeps it -----

  /** The step changes neither the file nor the log, nor how far the holder is with the file. */
  ghost predicate Unwritten(s: System, t: System) {
    && t.rules == s.rules && t.writes == s.writes && t.writes != [] && FileLog(t) == FileLog(s)
  }

  lemma DaemonStepUnwritten(s: System, a: Action)
    requires s.writes != [] && NextDaemon(s, a).Some?
    ensures Unwritten(s, NextDaemon(s, a).value)
  {
  }

  lemma OutsiderUnwritten(s: System, a: Action)
    requires Inv(s) && (a.Start? || a.Precheck?) && Next(s, a).Some?
    ensures Unwritten(s, Next(s, a).value)
  {
  }

  lemma {:induction false} HistoryOfIdle(rules: Rules, first: Configuration, log: seq<Entry>, e: Entry)
    requires Harmless(e.outcome)
    ensures History(rules, first, log + [e]) == History(rules, first, log)
  {
    HistorySnoc(rules, first, log, e);
  }

  /** A holder that has not written counts for nothing. */
  lemma LockLogs(s: System, m: nat)
    requires Logged(s) && Next(s, Lock(m)).Some?
    ensures Logged(Next(s, Lock(m)).value)
  {
    var t := At(s, m, Locked).(lock := Some(m), before := Disk(s));
    HistoryOfIdle(s.rules, s.writes[0], s.log, EntryNow(t, m));
    assert FileLog(t) == s.log + [EntryNow(t, m)] && FileLog(s) == s.log;
    assert Next(s, Lock(m)) == Some(t);
  }

  lemma Regroup<T>(a: seq<T>, b: seq<T>, c: seq<T>)
    ensures a + (b + c) == (a + b) + c
  {
  }

  lemma {:induction false} HistoryGrows(rules: Rules, first: Configuration, log: seq<Entry>, e: Entry, later: Entry,
                     extra: seq<Configuration>)
    requires WritesOf(rules, later) == WritesOf(rules, e) + extra
    ensures History(rules, first, log + [later]) == History(rules, first, log + [e]) + extra
  {
    HistorySnoc(rules, first, log, e);
    HistorySnoc(rules, first, log, later);
    Regroup(History(rules, first, log), WritesOf(rules, e), extra);
  }

  /** The holder goes on, and has written `extra`. */
  lemma MoveLogs(s: System, t: System, m: nat, extra: seq<Configuration>)
    requires Logged(s) && s.lock == Some(m) && m < |s.mutators|
    requires t.rules == s.rules && t.log == s.log && t.lock == Some(m) && m < |t.mutators|
    requires t.writes == s.writes + extra
    requires WritesOf(s.rules, EntryNow(t, m)) == WritesOf(s.rules, EntryNow(s, m)) + extra
    ensures Logged(t)
  {
    HistoryGrows(s.rules, s.writes[0], s.log, EntryNow(s, m), EntryNow(t, m), extra);
    assert t.writes[0] == s.writes[0];
  }

  /** The holder ends, and its outcome says what it wrote. */
  lemma FinishLogs(s: System, m: nat, outcome: Outcome)
    requires Logged(s) && s.lock == Some(m) && m < |s.mutators|
    requires WritesOf(s.rules, EntryNow(s, m)) == WritesOf(s.rules, EntryNow(s, m).(outcome := outcome))
    ensures Logged(Finish(s, m, outcome))
  {
    HistorySnoc(s.rules, s.writes[0], s.log, EntryNow(s, m));
    HistorySnoc(s.rules, s.writes[0], s.log, EntryNow(s, m).(outcome := outcome));
  }

  /** How far a holder is with the file. */
  datatype Progress = Nothing | Wrote | TookBack

  function ProgressOf(stage: Stage): Progress {
    match DeathOf(stage) case BeforeSave => Nothing case AfterSave => Wrote case AfterRollback => TookBack
  }

  function ProgressAt(outcome: Outcome): Progress {
    if Harmless(outcome) then Nothing else if TakesBack(outcome) then TookBack else Wrote
  }

  /** The step leaves the file alone, and the holder goes on or ends with no more and no less written. */
  ghost predicate NoWrite(s: System, t: System, m: nat)
    requires s.writes != [] && m < |s.mutators|
  {
    && m < |t.mutators|
    && var stage := t.mutators[m].stage;
       if stage.Done?
       then t == Finish(s, m, stage.outcome) && ProgressAt(stage.outcome) == ProgressOf(s.mutators[m].stage)
       else t == At(s, m, stage).(daemon := t.daemon, orphans := t.orphans)
            && ProgressOf(stage) == ProgressOf(s.mutators[m].stage)
  }

  lemma NoWriteLogs(s: System, t: System, m: nat)
    requires Logged(s) && s.lock == Some(m) && m < |s.mutators| && NoWrite(s, t, m)
    ensures Logged(t)
  {
    if t.mutators[m].stage.Done? {
      FinishLogs(s, m, t.mutators[m].stage.outcome);
    } else {
      MoveLogs(s, t, m, []);
    }
  }

  predicate IsEarly(a: Action) { a.Load? || a.Apply? || a.Probe? }

  lemma EarlyStepWritesNothing(s: System, a: Action)
    requires s.writes != [] && IsEarly(a) && Next(s, a).Some?
    ensures NoWrite(s, Next(s, a).value, a.m)
  {
  }

  lemma ReloadStepWritesNothing(s: System, a: Action)
    requires s.writes != [] && (a.Send? || a.LoseReply? || a.GiveUp?) && Next(s, a).Some?
    ensures NoWrite(s, Next(s, a).value, a.m)
  {
  }

  lemma EndStepWritesNothing(s: System, a: Action)
    requires s.writes != [] && (a.CheckPid? || a.TakeReply? || a.Die?) && Next(s, a).Some?
    ensures NoWrite(s, Next(s, a).value, a.m)
  {
  }

  lemma SaveLogs(s: System, m: nat, ok: bool)
    requires Logged(s) && s.lock == Some(m) && Next(s, Save(m, ok)).Some?
    ensures Logged(Next(s, Save(m, ok)).value)
  {
    var t := Next(s, Save(m, ok)).value;
    if t.mutators[m].stage.Done? {
      FinishLogs(s, m, Denied);
    } else {
      MoveLogs(s, t, m, [Disk(t)]);
    }
  }

  lemma RollbackLogs(s: System, m: nat, ok: bool)
    requires Logged(s) && s.lock == Some(m) && Next(s, Rollback(m, ok)).Some?
    requires EffectOn(s.rules, s.mutators[m].command, s.before) == Some(Disk(s))
    ensures Logged(Next(s, Rollback(m, ok)).value)
  {
    var t := Next(s, Rollback(m, ok)).value;
    if t.mutators[m].stage.Done? {
      FinishLogs(s, m, NotRolledBack);
    } else {
      MoveLogs(s, t, m, [Disk(t)]);
    }
  }

  lemma HolderStepLogs(s: System, a: Action)
    requires Logged(s) && Next(s, a).Some? && !IsDaemonStep(a) && !a.Start? && !a.Precheck? && !a.Lock?
    requires s.lock == Some(a.m)
    requires a.Rollback? ==> EffectOn(s.rules, s.mutators[a.m].command, s.before) == Some(Disk(s))
    ensures Logged(Next(s, a).value)
  {
    if a.Save? {
      SaveLogs(s, a.m, a.ok);
    } else if a.Rollback? {
      RollbackLogs(s, a.m, a.ok);
    } else {
      if IsEarly(a) {
        EarlyStepWritesNothing(s, a);
      } else if a.Send? || a.LoseReply? || a.GiveUp? {
        ReloadStepWritesNothing(s, a);
      } else {
        EndStepWritesNothing(s, a);
      }
      NoWriteLogs(s, Next(s, a).value, a.m);
    }
  }

  /** What the invariant says about the mutator that makes a step inside the lock. */
  lemma HolderFacts(s: System, a: Action)
    requires Inv(s) && Next(s, a).Some? && !IsDaemonStep(a) && !a.Start? && !a.Precheck? && !a.Lock?
    ensures s.lock == Some(a.m)
    ensures a.Rollback? ==> EffectOn(s.rules, s.mutators[a.m].command, s.before) == Some(Disk(s))
  {
  }

  lemma StepLogs(s: System, a: Action)
    requires Inv(s) && Logged(s) && Next(s, a).Some?
    ensures Logged(Next(s, a).value)
  {
    if IsDaemonStep(a) {
      DaemonStep(s, a);
      DaemonStepUnwritten(s, a);
    } else if a.Start? || a.Precheck? {
      OutsiderUnwritten(s, a);
    } else if a.Lock? {
      LockLogs(s, a.m);
    } else {
      HolderFacts(s, a);
      HolderStepLogs(s, a);
    }
  }

  lemma {:induction false} RunLogs(s: System, actions: seq<Action>)
    requires Inv(s) && Logged(s) && Orderly(s, actions) && Run(s, actions).Some?
    ensures Logged(Run(s, actions).value)
  {
    if actions != [] {
      var (init, last) := (actions[..|actions| - 1], actions[|actions| - 1]);
      RunLogs(s, init);
      RunKeeps(s, init);
      StepLogs(Run(s, init).value, last);
    }
  }

  lemma HolderNow(s: System, m: nat)
    requires Inv(s) && s.lock == Some(m)
    ensures var e := EntryNow(s, m); Means(s.rules, e.command, e.before, e.outcome, e.after)
  {
    var k := s.mutators[m];
    DiskIsValid(s);
    DeathMeans(s.rules, k.command, k.stage, s.before, Disk(s), Version(s));
  }

  lemma ChainedNow(s: System)
    requires Inv(s)
    ensures Chained(s.rules, FileLog(s), s.writes[0], Disk(s))
  {
    if s.lock.Some? {
      HolderNow(s, s.lock.value);
      assert FileLog(s)[..|s.log|] == s.log;
    }
  }

  /** The log determines everything the file has ever held: the first content, and after it what each lock
      holder wrote, none of it lost and nothing else in between. */
  lemma {:induction false} FileHistory(rules: Rules, config: Configuration, s: System)
    requires Reachable(rules, config, s)
    ensures s.writes != [] && s.writes == History(rules, config, FileLog(s))
    ensures Chained(rules, FileLog(s), config, Disk(s)) && (s.lock.None? ==> FileLog(s) == s.log)
  {
    var actions :| Run(Initial(rules, config), actions) == Some(s) && Orderly(Initial(rules, config), actions);
    InitialIsFine(rules, config);
    RunLogs(Initial(rules, config), actions);
    ReachableIsFine(rules, config, s);
    ChainedNow(s);
  }

  // ----- what a daemon can serve -----

  /** The content can be served, or it is the first configuration, possibly restored. */
  predicate ServableOrFirst(rules: Rules, first: Configuration, c: Configuration) {
    rules.CanServe(c) || c == first || Some(c) == rules.validated(first)
  }

  lemma HolderLeavesServable(rules: Rules, first: Configuration, e: Entry)
    requires rules.Sound() && rules.validated(first).Some? && Means(rules, e.command, e.before, e.outcome, e.after)
    requires ServableOrFirst(rules, first, e.before)
    ensures forall c :: c in WritesOf(rules, e) ==> rules.CanServe(c) || Some(c) == rules.validated(first)
    ensures ServableOrFirst(rules, first, e.after)
  {
  }

  lemma {:induction false} ChainIsServable(rules: Rules, log: seq<Entry>, first: Configuration, last: Configuration)
    requires rules.Sound() && rules.validated(first).Some? && Chained(rules, log, first, last)
    ensures ServableOrFirst(rules, first, last)
    ensures forall c :: c in History(rules, first, log)[1..] ==>
              rules.CanServe(c) || Some(c) == rules.validated(first)
  {
    if log != [] {
      var (init, e) := (log[..|log| - 1], log[|log| - 1]);
      ChainIsServable(rules, init, first, e.before);
      HolderLeavesServable(rules, first, e);
      var (h, w) := (History(rules, first, init), WritesOf(rules, e));
      assert (h + w)[1..] == h[1..] + w;
    }
  }

  /** Nothing is ever saved from which no pool can be built, except that a rollback can restore the first
      configuration. */
  lemma SavedVersionsActivate(rules: Rules, config: Configuration, s: System, version: nat)
    requires Reachable(rules, config, s) && 0 < version < |s.writes|
    ensures rules.CanServe(s.writes[version]) || Some(s.writes[version]) == rules.validated(config)
    ensures rules.CanServe(config) ==> rules.CanServe(s.writes[version])
  {
    FileHistory(rules, config, s);
    ChainIsServable(rules, FileLog(s), config, Disk(s));
    assert s.writes[version] == s.writes[1..][version - 1];
  }

  predicate DaemonServes(s: System) { s.daemon.Up? ==> Servable(s, s.daemon.version) }

  lemma DaemonStepServes(s: System, a: Action)
    requires s.writes != [] && DaemonServes(s) && NextDaemon(s, a).Some?
    ensures DaemonServes(NextDaemon(s, a).value)
  {
  }

  lemma MutatorStepServes(s: System, a: Action)
    requires s.writes != [] && !IsDaemonStep(a) && Next(s, a).Some?
    ensures var d := Next(s, a).value.daemon; d == s.daemon || (d.Up? && s.daemon.Up? && d.version == s.daemon.version)
  {
  }

  lemma StepServes(s: System, a: Action)
    requires s.writes != [] && DaemonServes(s) && Next(s, a).Some?
    ensures DaemonServes(Next(s, a).value)
  {
    if IsDaemonStep(a) {
      DaemonStep(s, a);
      DaemonStepServes(s, a);
    } else {
      MutatorStepServes(s, a);
      MutatorStepFrame(s, a);
      StepKeepsOrigin(s, a);
    }
  }

  lemma {:induction false} RunServes(s: System, actions: seq<Action>)
    requires s.writes != [] && DaemonServes(s) && Run(s, actions).Some?
    ensures DaemonServes(Run(s, actions).value)
  {
    if actions != [] {
      var (init, last) := (actions[..|actions| - 1], actions[|actions| - 1]);
      RunServes(s, init);
      StepServes(Run(s, init).value, last);
    }
  }

  /** Whatever a daemon serves, a pool can be built from it. */
  lemma ServedVersionActivates(rules: Rules, config: Configuration, s: System)
    requires Reachable(rules, config, s) && s.daemon.Up?
    ensures s.daemon.version < |s.writes| && rules.CanServe(s.writes[s.daemon.version])
  {
    var actions :| Run(Initial(rules, config), actions) == Some(s) && Orderly(Initial(rules, config), actions);
    RunServes(Initial(rules, config), actions);
    ReachableIsFine(rules, config, s);
  }
}
