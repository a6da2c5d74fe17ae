/** What the mutators and the daemon guarantee over whole runs. */
module TransactionProperties {
  import opened Wrappers
  import opened Config
  import opened Transactions
  import opened TransactionInvariant

  // ----- runs -----

  /** Whenever the handler of a client that no longer waits stores its pool, it is in time. In particular every
      run is orderly in which clients wait for their handlers. */
  ghost predicate Orderly(s: System, actions: seq<Action>)
    requires s.writes != []
  {
    actions == [] ||
    var (init, last) := (actions[..|actions| - 1], actions[|actions| - 1]);
    Orderly(s, init) && (Run(s, init).Some? ==> Timely(Run(s, init).value, last))
  }

  lemma {:induction false} RunKeeps(s: System, actions: seq<Action>)
    requires Inv(s) && Orderly(s, actions) && Run(s, actions).Some?
    ensures Inv(Run(s, actions).value)
  {
    if actions != [] {
      RunKeeps(s, actions[..|actions| - 1]);
      StepKeeps(Run(s, actions[..|actions| - 1]).value, actions[|actions| - 1]);
    }
  }

  lemma StepKeepsNoOrphans(s: System, a: Action)
    requires s.writes != [] && Next(s, a).Some? && s.orphans == [] && !a.GiveUp?
    ensures Next(s, a).value.orphans == []
  {
    if IsDaemonStep(a) { DaemonStep(s, a); }
  }

  lemma {:induction false} PatientRunsAreOrderly(s: System, actions: seq<Action>)
    requires s.writes != [] && Run(s, actions).Some? && s.orphans == []
    requires forall a :: a in actions ==> !a.GiveUp?
    ensures Orderly(s, actions) && Run(s, actions).value.orphans == []
  {
    if actions != [] {
      var (init, last) := (actions[..|actions| - 1], actions[|actions| - 1]);
      assert last in actions && forall a :: a in init ==> a in actions;
      PatientRunsAreOrderly(s, init);
      StepKeepsNoOrphans(Run(s, init).value, last);
    }
  }

  /** The system starts with a valid configuration file, no daemon and no mutator. */
  ghost predicate Reachable(rules: Rules, config: Configuration, s: System) {
    && rules.Sound() && rules.validated(config).Some?
    && exists actions :: Run(Initial(rules, config), actions) == Some(s) && Orderly(Initial(rules, config), actions)
  }

  lemma {:induction false} RunKeepsOrigin(s: System, actions: seq<Action>)
    requires s.writes != [] && Run(s, actions).Some?
    ensures var t := Run(s, actions).value; t.rules == s.rules && t.writes != [] && t.writes[0] == s.writes[0]
  {
    if actions != [] {
      var init := actions[..|actions| - 1];
      RunKeepsOrigin(s, init);
      StepKeepsOrigin(Run(s, init).value, actions[|actions| - 1]);
    }
  }

  lemma StepKeepsOrigin(s: System, a: Action)
    requires s.writes != [] && Next(s, a).Some?
    ensures var t := Next(s, a).value; t.rules == s.rules && t.writes != [] && t.writes[0] == s.writes[0]
  {
    if IsDaemonStep(a) {
      DaemonStep(s, a);
      DaemonKeepsOrigin(s, a);
    }
  }

  lemma DaemonKeepsOrigin(s: System, a: Action)
    requires s.writes != [] && NextDaemon(s, a).Some?
    ensures var t := NextDaemon(s, a).value; t.rules == s.rules && t.writes == s.writes
  {
  }

  lemma ReachableIsFine(rules: Rules, config: Configuration, s: System)
    requires Reachable(rules, config, s)
    ensures Inv(s) && s.rules == rules && s.writes[0] == config
  {
    var actions :| Run(Initial(rules, config), actions) == Some(s) && Orderly(Initial(rules, config), actions);
    InitialIsFine(rules, config);
    RunKeeps(Initial(rules, config), actions);
    RunKeepsOrigin(Initial(rules, config), actions);
  }

  // ----- the lock and the file -----

  /** No two mutators are inside at once. */
  lemma MutualExclusion(rules: Rules, config: Configuration, s: System, m: nat, n: nat)
    requires Reachable(rules, config, s) && m < |s.mutators| && n < |s.mutators|
    requires Holding(s.mutators[m].stage) && Holding(s.mutators[n].stage)
    ensures m == n
  {
    ReachableIsFine(rules, config, s);
  }

  lemma EveryVersionIsAccepted(rules: Rules, config: Configuration, s: System, version: nat)
    requires Reachable(rules, config, s) && version < |s.writes|
    ensures rules.validated(s.writes[version]).Some?
    ensures version > 0 ==> rules.validated(s.writes[version]) == Some(s.writes[version])
  {
    ReachableIsFine(rules, config, s);
  }

  /** How far a mutator still has to go. */
  function Rank(stage: Stage): nat {
    match stage
    case Fresh => 15
    case Locked => 14
    case Loaded(_) => 13
    case Applied(_, _) => 12
    case Probed(_, _) => 11
    case Saved(_, _) => 10
    case RollingBack(_, _) => 5
    case Reloading(_, _, again, request) =>
      (if again then 0 else 5) +
      (match request
       case NotSent => 4
       case InFlight => 3
       case Replied(ok) => if ok then 2 else 1)
    case Done(_) => 0
  }

  /** A step gets mutator `m` further. */
  predicate Advances(s: System, a: Action, m: nat)
    requires s.writes != []
  {
    && Next(s, a).Some? && m < |s.mutators| && m < |Next(s, a).value.mutators|
    && Rank(Next(s, a).value.mutators[m].stage) < Rank(s.mutators[m].stage)
  }

  lemma EarlyStepsAdvance(s: System, a: Action)
    requires s.writes != [] && BeforeSaving(a) && Next(s, a).Some?
    ensures Advances(s, a, a.m)
  {
  }

  lemma LateStepsAdvance(s: System, a: Action)
    requires s.writes != [] && !IsDaemonStep(a) && !a.Start? && !BeforeSaving(a) && Next(s, a).Some?
    ensures Advances(s, a, a.m)
  {
  }

  lemma OwnStepsAdvance(s: System, a: Action)
    requires s.writes != [] && !IsDaemonStep(a) && !a.Start? && Next(s, a).Some?
    ensures Advances(s, a, a.m)
  {
    if BeforeSaving(a) {
      EarlyStepsAdvance(s, a);
    } else {
      LateStepsAdvance(s, a);
    }
  }

  /** Nobody waits for the lock for good: in every reachable state its holder, or the handler it waits for,
      has a step that gets the holder further, and the holder's rank bounds how often that can happen. */
  lemma HolderAdvances(rules: Rules, config: Configuration, s: System)
    requires Reachable(rules, config, s) && s.lock.Some?
    ensures s.writes != [] && exists a :: Advances(s, a, s.lock.value)
  {
    ReachableIsFine(rules, config, s);
    HolderHasStep(s, s.lock.value);
  }

  function StepOfHolder(m: nat, stage: Stage): Action {
    match stage
    case Locked => Load(m, true)
    case Loaded(_) => Apply(m, true)
    case Applied(_, _) => Probe(m, false)
    case Probed(_, _) => Save(m, true)
    case Saved(_, _) => CheckPid(m, Unreadable)
    case RollingBack(_, _) => Rollback(m, true)
    case Reloading(_, _, _, request) =>
      (match request
       case NotSent => Send(m, false)
       case InFlight => HandlerFail
       case Replied(_) => TakeReply(m))
    case _ => Lock(m)
  }

  lemma HolderHasStep(s: System, m: nat)
    requires Inv(s) && s.lock == Some(m)
    ensures Advances(s, StepOfHolder(m, s.mutators[m].stage), m)
  {
    var a := StepOfHolder(m, s.mutators[m].stage);
    if Waiting(s.mutators[m].stage) {
      DaemonStep(s, a);
    } else {
      OwnStepsAdvance(s, a);
    }
  }

  /** A mutator that has not asked for the lock can be refused at any time, whoever holds it, and leaves no trace. */
  lemma EarlyRefusalIsQuiet(rules: Rules, config: Configuration, s: System, m: nat)
    requires Reachable(rules, config, s) && m < |s.mutators| && s.mutators[m].stage == Fresh
    ensures s.writes != [] && s.lock != Some(m)
    ensures Next(s, Precheck(m)) == Some(s.(mutators := s.mutators[m := s.mutators[m].(stage := Done(Denied))]))
  {
    ReachableIsFine(rules, config, s);
  }

  // ----- serializability -----

  /** The change of a holder with this outcome stays. */
  predicate Kept(outcome: Outcome) {
    outcome.Committed? || outcome.PidUnknown? || outcome.NotRolledBack? || outcome == Died(AfterSave)
  }

  /** The kept commands, applied one after another in lock order. */
  function Replay(rules: Rules, log: seq<Entry>, config: Configuration): Configuration {
    if log == [] then config
    else
      var (before, e) := (Replay(rules, log[..|log| - 1], config), log[|log| - 1]);
      match rules.Effect(e.command, before)
      case Some(after) => if Kept(e.outcome) then after else before
      case None => before
  }

  lemma {:induction false} ChainReplays(rules: Rules, log: seq<Entry>, first: Configuration, last: Configuration)
    requires rules.Sound() && Chained(rules, log, first, last) && rules.validated(first).Some?
    ensures rules.validated(last) == Some(Replay(rules, log, rules.validated(first).value))
  {
    if log != [] {
      ChainReplays(rules, log[..|log| - 1], first, log[|log| - 1].before);
    }
  }

  /** However the mutators interleave, the file holds, whenever the lock is free, exactly what the kept
      commands make of the first configuration when they are run alone, one after another, in lock order. No
      update is lost, and none that was taken back is seen. */
  lemma {:induction false} Serializable(rules: Rules, config: Configuration, s: System)
    requires Reachable(rules, config, s) && s.lock.None?
    ensures rules.validated(config).Some? && s.writes != []
    ensures rules.validated(Disk(s)) == Some(Replay(rules, s.log, rules.validated(config).value))
  {
    ReachableIsFine(rules, config, s);
    ChainReplays(rules, s.log, config, Disk(s));
  }

  /** The file is the normal form itself, unless nobody has written it yet. */
  lemma {:induction false} SerializableContents(rules: Rules, config: Configuration, s: System)
    requires Reachable(rules, config, s) && s.lock.None?
    ensures rules.validated(config).Some? && s.writes != []
    ensures |s.writes| == 1 ==> Disk(s) == config
    ensures |s.writes| > 1 ==> Disk(s) == Replay(rules, s.log, rules.validated(config).value)
  {
    ReachableIsFine(rules, config, s);
    Serializable(rules, config, s);
  }

  // ----- outcomes -----

  lemma {:induction false} ChainMeans(rules: Rules, log: seq<Entry>, first: Configuration, last: Configuration, i: nat)
    requires Chained(rules, log, first, last) && i < |log|
    ensures Means(rules, log[i].command, log[i].before, log[i].outcome, log[i].after)
    ensures log[i].before == if i == 0 then first else log[i - 1].after
  {
    if i < |log| - 1 {
      ChainMeans(rules, log[..|log| - 1], first, log[|log| - 1].before, i);
    }
  }

  /** Every lock holder's outcome says what it did to the file, from the moment it took the lock to the moment
      it let go: a failed load, change, probe or save left the file alone, a successful rollback put exactly
      the previous configuration back, and every other outcome left the command's effect. */
  lemma OutcomesAreTrue(rules: Rules, config: Configuration, s: System, i: nat)
    requires Reachable(rules, config, s) && i < |s.log|
    ensures Means(rules, s.log[i].command, s.log[i].before, s.log[i].outcome, s.log[i].after)
    ensures s.log[i].before == if i == 0 then config else s.log[i - 1].after
  {
    ReachableIsFine(rules, config, s);
    ChainMeans(rules, s.log, config, if s.lock.Some? then s.before else Disk(s), i);
  }

  // ----- what the mutators leave behind -----

  /** A mutator that ended inside the lock has an entry with its outcome, and a committed one has a version
      with its effect. */
  ghost predicate RecordedBy(m: nat, k: Mutator, e: Entry, writes: seq<Configuration>) {
    && e.m == m && e.command == k.command && k.stage == Done(e.outcome)
    && (e.outcome.Committed? ==> e.outcome.version < |writes| && writes[e.outcome.version] == e.after)
  }

  ghost predicate IsRecorded(m: nat, k: Mutator, log: seq<Entry>, writes: seq<Configuration>) {
    k.stage.Done? && k.stage.outcome != Denied ==>
      exists i :: 0 <= i < |log| && RecordedBy(m, k, log[i], writes)
  }

  ghost predicate AllRecorded(s: System) {
    forall m :: 0 <= m < |s.mutators| ==> IsRecorded(m, s.mutators[m], s.log, s.writes)
  }

  lemma RecordStays(m: nat, k: Mutator, s: System, t: System)
    requires IsRecorded(m, k, s.log, s.writes) && s.log <= t.log && s.writes <= t.writes
    ensures IsRecorded(m, k, t.log, t.writes)
  {
  }

  /** The mutator whose stage a step changes. */
  function Mover(s: System, a: Action): nat {
    if IsDaemonStep(a) then (if HandlerOf(s.daemon).Some? then HandlerOf(s.daemon).value.m else 0)
    else if a.Start? then |s.mutators|
    else a.m
  }

  /** What a step can change, seen from the mutators that do not make it. */
  ghost predicate Framed(s: System, t: System, mover: nat) {
    && s.log <= t.log && s.writes <= t.writes && |s.mutators| <= |t.mutators| <= |s.mutators| + 1
    && (forall m :: 0 <= m < |s.mutators| && m != mover ==> t.mutators[m] == s.mutators[m])
    && (|t.mutators| > |s.mutators| ==> t.mutators[|s.mutators|].stage == Fresh)
  }

  predicate SameEnd(k: Mutator, after: Mutator) {
    k == after || (k.stage.Reloading? && after.stage.Reloading?)
  }

  lemma DaemonStepFrame(s: System, a: Action)
    requires s.writes != [] && IsDaemonStep(a) && NextDaemon(s, a).Some?
    ensures Framed(s, NextDaemon(s, a).value, Mover(s, a))
    ensures var (t, m) := (NextDaemon(s, a).value, Mover(s, a));
            m < |s.mutators| ==> m < |t.mutators| && SameEnd(s.mutators[m], t.mutators[m])
  {
  }

  lemma SaveFrame(s: System, m: nat, ok: bool)
    requires s.writes != [] && Next(s, Save(m, ok)).Some?
    ensures Framed(s, Next(s, Save(m, ok)).value, m)
  {
  }

  lemma EarlyStepFrame(s: System, a: Action)
    requires s.writes != [] && BeforeSaving(a) && Next(s, a).Some?
    ensures Framed(s, Next(s, a).value, Mover(s, a))
  {
    if a.Save? { SaveFrame(s, a.m, a.ok); }
  }

  lemma LateStepFrame(s: System, a: Action)
    requires s.writes != [] && !IsDaemonStep(a) && !BeforeSaving(a) && Next(s, a).Some?
    ensures Framed(s, Next(s, a).value, Mover(s, a))
  {
  }

  lemma MutatorStepFrame(s: System, a: Action)
    requires s.writes != [] && !IsDaemonStep(a) && Next(s, a).Some?
    ensures Framed(s, Next(s, a).value, Mover(s, a))
  {
    if BeforeSaving(a) {
      EarlyStepFrame(s, a);
    } else {
      LateStepFrame(s, a);
    }
  }

  lemma StepFrame(s: System, a: Action)
    requires s.writes != [] && Next(s, a).Some?
    ensures Framed(s, Next(s, a).value, Mover(s, a))
  {
    if IsDaemonStep(a) {
      DaemonStep(s, a);
      DaemonStepFrame(s, a);
    } else {
      MutatorStepFrame(s, a);
    }
  }

  predicate HasSavedAlone(stage: Stage) { stage.Saved? || (stage.Reloading? && !stage.again) }

  /** A mutator that ends inside the lock ends by finishing. */
  lemma EndsByFinishing(s: System, a: Action)
    requires s.writes != [] && !IsDaemonStep(a) && !a.Start? && Next(s, a).Some?
    requires var t := Next(s, a).value;
             |t.mutators| == |s.mutators| && t.mutators[a.m].stage.Done? && t.mutators[a.m].stage.outcome != Denied
    ensures var outcome := Next(s, a).value.mutators[a.m].stage.outcome;
            && Next(s, a).value == Finish(s, a.m, outcome)
            && (outcome.Committed? ==>
                  var stage := s.mutators[a.m].stage;
                  HasSavedAlone(stage) && outcome.version == stage.version)
  {
  }

  /** A change that can still be committed is the version on disk. */
  lemma SavedIsOnDisk(s: System, m: nat)
    requires Inv(s) && m < |s.mutators| && HasSavedAlone(s.mutators[m].stage)
    ensures s.mutators[m].stage.version == Version(s)
  {
  }

  lemma EndIsRecorded(s: System, a: Action)
    requires s.writes != [] && !IsDaemonStep(a) && !a.Start? && Next(s, a).Some?
    requires HasSavedAlone(s.mutators[a.m].stage) ==> s.mutators[a.m].stage.version == Version(s)
    requires var t := Next(s, a).value;
             |t.mutators| == |s.mutators| && t.mutators[a.m].stage.Done? && t.mutators[a.m].stage.outcome != Denied
    ensures var t := Next(s, a).value;
            |t.log| == |s.log| + 1 && RecordedBy(a.m, t.mutators[a.m], t.log[|s.log|], t.writes)
  {
    EndsByFinishing(s, a);
  }

  lemma DaemonMoverIsRecorded(s: System, a: Action)
    requires s.writes != [] && IsDaemonStep(a) && NextDaemon(s, a).Some? && Mover(s, a) < |s.mutators|
    requires IsRecorded(Mover(s, a), s.mutators[Mover(s, a)], s.log, s.writes)
    ensures var (t, m) := (NextDaemon(s, a).value, Mover(s, a));
            m < |t.mutators| && IsRecorded(m, t.mutators[m], t.log, t.writes)
  {
  }

  lemma MutatorMoverIsRecorded(s: System, a: Action)
    requires Inv(s) && Next(s, a).Some? && !IsDaemonStep(a) && !a.Start? && a.m < |s.mutators|
    requires IsRecorded(a.m, s.mutators[a.m], s.log, s.writes) && Framed(s, Next(s, a).value, a.m)
    ensures var t := Next(s, a).value; a.m < |t.mutators| && IsRecorded(a.m, t.mutators[a.m], t.log, t.writes)
  {
    var (t, m) := (Next(s, a).value, a.m);
    if t.mutators[m] == s.mutators[m] {
      RecordStays(m, s.mutators[m], s, t);
    } else if t.mutators[m].stage.Done? && t.mutators[m].stage.outcome != Denied {
      if HasSavedAlone(s.mutators[m].stage) { SavedIsOnDisk(s, m); }
      EndIsRecorded(s, a);
    }
  }

  lemma MoverIsRecorded(s: System, a: Action)
    requires Inv(s) && Next(s, a).Some? && Mover(s, a) < |s.mutators|
    requires IsRecorded(Mover(s, a), s.mutators[Mover(s, a)], s.log, s.writes)
    ensures var (t, m) := (Next(s, a).value, Mover(s, a));
            m < |t.mutators| && IsRecorded(m, t.mutators[m], t.log, t.writes)
  {
    if IsDaemonStep(a) {
      DaemonStep(s, a);
      DaemonMoverIsRecorded(s, a);
    } else {
      MutatorStepFrame(s, a);
      MutatorMoverIsRecorded(s, a);
    }
  }

  lemma {:induction false} RunRecords(s: System, actions: seq<Action>)
    requires Inv(s) && AllRecorded(s) && Orderly(s, actions) && Run(s, actions).Some?
    ensures AllRecorded(Run(s, actions).value)
  {
    if actions != [] {
      var (init, last) := (actions[..|actions| - 1], actions[|actions| - 1]);
      RunRecords(s, init);
      RunKeeps(s, init);
      StepRecords(Run(s, init).value, last);
    }
  }

  lemma StepRecords(s: System, a: Action)
    requires Inv(s) && AllRecorded(s) && Next(s, a).Some?
    ensures AllRecorded(Next(s, a).value)
  {
    StepFrame(s, a);
    var (t, mover) := (Next(s, a).value, Mover(s, a));
    if mover < |s.mutators| { MoverIsRecorded(s, a); }
    OthersAreRecorded(s, t, mover);
  }

  lemma OthersAreRecorded(s: System, t: System, mover: nat)
    requires AllRecorded(s) && Framed(s, t, mover)
    requires mover < |s.mutators| ==> IsRecorded(mover, t.mutators[mover], t.log, t.writes)
    ensures AllRecorded(t)
  {
  }

  // ----- the handshake -----

  /** The mutator has returned success, and its change is this version. */
  predicate HasCommitted(s: System, m: nat, version: nat) {
    m < |s.mutators| && s.mutators[m].stage == Done(Committed(version))
  }

  lemma {:induction false} CommittedStays(s: System, actions: seq<Action>, m: nat, version: nat)
    requires Inv(s) && HasCommitted(s, m, version) && Orderly(s, actions) && Run(s, actions).Some?
    ensures HasCommitted(Run(s, actions).value, m, version)
  {
    if actions != [] {
      var (init, last) := (actions[..|actions| - 1], actions[|actions| - 1]);
      CommittedStays(s, init, m, version);
      RunKeeps(s, init);
      StepKeepsCommitted(Run(s, init).value, last, m, version);
    }
  }

  lemma StepKeepsCommitted(s: System, a: Action, m: nat, version: nat)
    requires s.writes != [] && HasCommitted(s, m, version) && Next(s, a).Some?
    ensures HasCommitted(Next(s, a).value, m, version)
  {
    StepFrame(s, a);
    if IsDaemonStep(a) {
      DaemonStep(s, a);
      DaemonStepFrame(s, a);
    }
  }

  /** A mutator writes the file and then reads the pid; a daemon writes its pid and then reads the file. So
      once the mutator has returned success, any daemon that is up, or comes up at any later time, has its pool
      from that version or a later one, and that version is the command's effect. */
  lemma {:induction false} Handshake(rules: Rules, config: Configuration, s: System, m: nat, version: nat,
                                     later: seq<Action>)
    requires Reachable(rules, config, s) && HasCommitted(s, m, version)
    requires s.writes != [] && Orderly(s, later) && Run(s, later).Some?
    ensures var t := Run(s, later).value;
            && version < |t.writes|
            && DaemonWithin(t.daemon, version, |t.writes| - 1)
            && exists i :: 0 <= i < |t.log| && t.log[i].m == m && t.writes[version] == t.log[i].after
                           && Means(rules, t.log[i].command, t.log[i].before, Committed(version), t.log[i].after)
  {
    var t := Run(s, later).value;
    ReachableIsFine(rules, config, s);
    RunKeeps(s, later);
    CommittedStays(s, later, m, version);
    ReachableIsRecorded(rules, config, s);
    RunRecords(s, later);
    RunKeepsOrigin(s, later);
    assert IsRecorded(m, t.mutators[m], t.log, t.writes);
    var i :| 0 <= i < |t.log| && RecordedBy(m, t.mutators[m], t.log[i], t.writes);
    ChainMeans(rules, t.log, config, if t.lock.Some? then t.before else Disk(t), i);
    WithinFromBelow(t.daemon, version, t.committed, |t.writes| - 1);
  }

  lemma WithinFromBelow(d: Daemon, low: nat, middle: nat, high: nat)
    requires DaemonWithin(d, middle, high) && low <= middle
    ensures DaemonWithin(d, low, high)
  {
  }

  lemma ReachableIsRecorded(rules: Rules, config: Configuration, s: System)
    requires Reachable(rules, config, s)
    ensures AllRecorded(s)
  {
    var actions :| Run(Initial(rules, config), actions) == Some(s) && Orderly(Initial(rules, config), actions);
    InitialIsFine(rules, config);
    RunRecords(Initial(rules, config), actions);
  }

  /** A daemon that is up serves exactly the configuration on disk. */
  predicate ServesDisk(s: System)
    requires s.writes != []
  {
    s.daemon.Up? ==> s.daemon.version < |s.writes| && s.writes[s.daemon.version] == Disk(s)
  }

  lemma CommittedIsServed(s: System)
    requires Inv(s) && s.lock.None? && EndsCommitted(s.log)
    ensures ServesDisk(s)
  {
    assert s.committed == Version(s);
  }

  /** Whenever the lock is free and the last mutator that wrote the file has committed, a daemon that is up
      serves exactly the configuration on disk. What went wrong before that commit does not matter. */
  lemma DaemonIsCurrent(rules: Rules, config: Configuration, s: System)
    requires Reachable(rules, config, s) && s.lock.None? && EndsCommitted(s.log)
    ensures s.writes != [] && ServesDisk(s)
  {
    ReachableIsFine(rules, config, s);
    CommittedIsServed(s);
  }

  // ----- the pid file -----

  predicate HasStarted(d: Daemon) { d == Guarded || d.Loading? || d.Up? }

  /** The pid file names a live daemon exactly while there is one that has written its pid; while a daemon is about
      to, the file is blank. */
  predicate PidFileOk(s: System) {
    (s.pidFile == Live <==> HasStarted(s.daemon)) && (s.daemon == Acquiring ==> s.pidFile == Blank)
  }

  lemma DaemonStepKeepsPidFile(s: System, a: Action)
    requires s.writes != [] && PidFileOk(s) && NextDaemon(s, a).Some?
    ensures PidFileOk(NextDaemon(s, a).value)
  {
  }

  lemma MutatorStepKeepsPidFile(s: System, a: Action)
    requires s.writes != [] && PidFileOk(s) && !IsDaemonStep(a) && Next(s, a).Some?
    ensures PidFileOk(Next(s, a).value)
  {
  }

  lemma {:induction false} RunKeepsPidFile(s: System, actions: seq<Action>)
    requires s.writes != [] && PidFileOk(s) && Run(s, actions).Some?
    ensures PidFileOk(Run(s, actions).value)
  {
    if actions != [] {
      var (init, last) := (actions[..|actions| - 1], actions[|actions| - 1]);
      RunKeepsPidFile(s, init);
      var t := Run(s, init).value;
      if IsDaemonStep(last) {
        DaemonStep(t, last);
        DaemonStepKeepsPidFile(t, last);
      } else {
        MutatorStepKeepsPidFile(t, last);
      }
    }
  }

  /** What a mutator that has saved can see of the pid file. */
  lemma PidSeenMeaning(s: System, m: nat)
    requires s.writes != [] && PidFileOk(s) && m < |s.mutators| && s.mutators[m].stage.Saved?
    ensures Next(s, CheckPid(m, NoDaemon)).Some? <==> s.pidFile == Absent || s.pidFile == Stale
    ensures Next(s, CheckPid(m, SomeDaemon)).Some? <==> s.pidFile == Live || s.pidFile == Stale
    ensures Next(s, CheckPid(m, NoDaemon)).Some? ==> s.daemon == Down
  {
  }

  /** A mutator returns success without a reload only when no daemon has started: one that comes up later reads the
      file after the change. It asks for a reload only if the pid file holds a pid. */
  lemma PidFileMeaning(rules: Rules, config: Configuration, s: System, m: nat)
    requires Reachable(rules, config, s)
    ensures s.writes != [] && (s.pidFile == Live <==> HasStarted(s.daemon))
    ensures m < |s.mutators| && s.mutators[m].stage.Saved? ==>
              && (Next(s, CheckPid(m, NoDaemon)).Some? <==> s.pidFile == Absent || s.pidFile == Stale)
              && (Next(s, CheckPid(m, SomeDaemon)).Some? <==> s.pidFile == Live || s.pidFile == Stale)
              && (Next(s, CheckPid(m, NoDaemon)).Some? ==> s.daemon == Down)
  {
    var actions :| Run(Initial(rules, config), actions) == Some(s) && Orderly(Initial(rules, config), actions);
    RunKeepsPidFile(Initial(rules, config), actions);
    if m < |s.mutators| && s.mutators[m].stage.Saved? { PidSeenMeaning(s, m); }
  }
}
