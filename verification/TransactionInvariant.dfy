/** Every step of the mutators and the daemon keeps the invariant, as long as no handler stores its pool too
    late after its client has given up. */
module TransactionInvariant {
  import opened Wrappers
  import opened Commands
  import opened Config
  import opened Transactions

  // ----- the invariant -----

  /** Every version of the file is a valid configuration; all but the first are in normal form. */
  ghost predicate FilesOk(rules: Rules, writes: seq<Configuration>) {
    && writes != []
    && rules.validated(writes[0]).Some?
    && forall i :: 0 < i < |writes| ==> rules.validated(writes[i]) == Some(writes[i])
  }

  /** At most one mutator is inside, and the lock names it. */
  ghost predicate LockOk(lock: Option<nat>, mutators: seq<Mutator>) {
    && (lock.Some? ==> lock.value < |mutators|)
    && forall m: nat :: m < |mutators| ==> (Holding(mutators[m].stage) <==> lock == Some(m))
  }

  /** The change is on disk: it is the effect of the command on what was there. */
  predicate OnDisk(rules: Rules, command: Command, previous: Configuration, version: nat, before: Configuration,
                   disk: Configuration,
                   now: nat) {
    rules.validated(before) == Some(previous) && rules.Effect(command, previous) == Some(disk) && version == now
  }

  predicate Applies(rules: Rules, command: Command, previous: Configuration, before: Configuration) {
    rules.validated(before) == Some(previous) && rules.Effect(command, previous).Some?
  }

  /** What the lock holder knows. */
  predicate HolderOk(rules: Rules, command: Command, stage: Stage, before: Configuration, disk: Configuration,
                     now: nat) {
    match stage
    case Locked => disk == before
    case Loaded(previous) => disk == before && rules.validated(before) == Some(previous)
    case Applied(previous, updated) =>
      disk == before && rules.validated(before) == Some(previous) && rules.mutate(command, previous) == Changed(updated)
    case Probed(previous, updated) =>
      && disk == before && rules.validated(before) == Some(previous)
      && rules.mutate(command, previous) == Changed(updated) && rules.Passes(updated)
    case Saved(previous, version) => OnDisk(rules, command, previous, version, before, disk, now)
    case RollingBack(previous, version) => OnDisk(rules, command, previous, version, before, disk, now)
    case Reloading(previous, version, again, _) =>
      if again
      then Applies(rules, command, previous, before) && disk == previous && version < now
      else OnDisk(rules, command, previous, version, before, disk, now)
    case _ => true
  }

  /** Whatever pool the daemon has, or is about to have, was built from a version from `low` to `high`. */
  predicate DaemonWithin(d: Daemon, low: nat, high: nat) {
    match d
    case Loading(version) => low <= version <= high
    case Up(version, handler) =>
      && low <= version <= high
      && (handler.Some? && handler.value.Building? ==> low <= handler.value.version <= high)
    case _ => true
  }

  predicate PidOk(d: Daemon, file: PidFile) {
    && (d == Acquiring ==> file == Blank)
    && (d == Guarded || d.Loading? || d.Up? ==> file == Live)
  }

  function HandlerOf(d: Daemon): Option<Handler> { if d.Up? then d.handler else None }

  predicate Waiting(stage: Stage) { stage.Reloading? && stage.request.InFlight? }

  /** What a handler has read, or the daemon has stored on request, is the requester's write. */
  predicate ReloadOk(stage: Stage, d: Daemon) {
    stage.Reloading? && !stage.again ==>
      match stage.request
      case NotSent => true
      case InFlight =>
        HandlerOf(d).Some? && HandlerOf(d).value.Building? ==> stage.version == HandlerOf(d).value.version
      case Replied(ok) => ok ==> DaemonWithin(d, stage.version, stage.version)
  }

  /** The lock holder knows what it should, and the daemon's handler, if any, works for it. */
  predicate SessionOk(rules: Rules, m: nat, command: Command, stage: Stage, before: Configuration, disk: Configuration,
                      now: nat, d: Daemon) {
    && HolderOk(rules, command, stage, before, disk, now)
    && ReloadOk(stage, d)
    && (if Waiting(stage) then HandlerOf(d).Some? && HandlerOf(d).value.m == m else HandlerOf(d).None?)
  }

  ghost predicate CommitsOk(mutators: seq<Mutator>, committed: nat) {
    forall m :: 0 <= m < |mutators| ==>
      mutators[m].stage.Done? && mutators[m].stage.outcome.Committed? ==> mutators[m].stage.outcome.version <= committed
  }

  /** What an outcome says about the file before and after. */
  predicate Means(rules: Rules, command: Command, before: Configuration, outcome: Outcome, after: Configuration) {
    rules.validated(before).Some? &&
    var previous := rules.validated(before).value;
    match outcome
    case Committed(_) => rules.Effect(command, previous) == Some(after)
    case PidUnknown => rules.Effect(command, previous) == Some(after)
    case NotRolledBack => rules.Effect(command, previous) == Some(after)
    case AlreadySo => rules.mutate(command, previous) == Unchanged && after == before
    case Denied => after == before
    case RolledBack => rules.Effect(command, previous).Some? && after == previous
    case Died(BeforeSave) => after == before
    case Died(AfterSave) => rules.Effect(command, previous) == Some(after)
    case Died(AfterRollback) => rules.Effect(command, previous).Some? && after == previous
  }

  /** Each lock holder found what the one before it left. */
  ghost predicate Chained(rules: Rules, log: seq<Entry>, first: Configuration, last: Configuration) {
    if log == [] then first == last
    else
      var e := log[|log| - 1];
      && e.after == last && Means(rules, e.command, e.before, e.outcome, e.after)
      && Chained(rules, log[..|log| - 1], first, e.before)
  }

  /** The holder with this outcome never wrote the file. */
  predicate Harmless(outcome: Outcome) { outcome.AlreadySo? || outcome.Denied? || outcome == Died(BeforeSave) }

  /** The last holder that wrote the file, if any, has committed. */
  predicate EndsCommitted(log: seq<Entry>) {
    log == [] ||
    var outcome := log[|log| - 1].outcome;
    outcome.Committed? || (Harmless(outcome) && EndsCommitted(log[..|log| - 1]))
  }

  /** Nobody has a write that is not yet committed or taken back. */
  predicate Settled(lock: Option<nat>, mutators: seq<Mutator>) {
    lock.None? ||
    (lock.value < |mutators| &&
     var stage := mutators[lock.value].stage;
     stage.Locked? || stage.Loaded? || stage.Applied? || stage.Probed?)
  }

  ghost predicate LogOk(rules: Rules, log: seq<Entry>, first: Configuration, last: Configuration, committed: nat,
                        now: nat, settled: bool) {
    && Chained(rules, log, first, last)
    && (EndsCommitted(log) && settled ==> committed == now)
  }

  ghost predicate OrphansOk(orphans: seq<Option<nat>>, now: nat) {
    forall i :: 0 <= i < |orphans| && orphans[i].Some? ==> orphans[i].value <= now
  }

  predicate DaemonOk(d: Daemon, file: PidFile, committed: nat, now: nat) {
    PidOk(d, file) && committed <= now && DaemonWithin(d, committed, now)
  }

  ghost predicate Inv(s: System) {
    && s.rules.Sound()
    && FilesOk(s.rules, s.writes)
    && LockOk(s.lock, s.mutators)
    && OrphansOk(s.orphans, Version(s))
    && (match s.lock
        case Some(m) =>
          SessionOk(s.rules, m, s.mutators[m].command, s.mutators[m].stage, s.before, Disk(s), Version(s), s.daemon)
        case None => HandlerOf(s.daemon).None?)
    && DaemonOk(s.daemon, s.pidFile, s.committed, Version(s))
    && CommitsOk(s.mutators, s.committed)
    && LogOk(s.rules, s.log, s.writes[0], if s.lock.Some? then s.before else Disk(s), s.committed, Version(s),
             Settled(s.lock, s.mutators))
  }

  lemma InitialIsFine(rules: Rules, config: Configuration)
    requires rules.Sound() && rules.validated(config).Some?
    ensures Inv(Initial(rules, config))
  {
  }

  lemma DiskIsValid(s: System)
    requires FilesOk(s.rules, s.writes)
    ensures s.rules.validated(Disk(s)).Some?
  {
  }

  // ----- steps of a mutator -----

  lemma CommitsAfter(mutators: seq<Mutator>, m: nat, stage: Stage, committed: nat, later: nat)
    requires m < |mutators| && CommitsOk(mutators, committed) && committed <= later
    requires stage.Done? && stage.outcome.Committed? ==> stage.outcome.version <= later
    ensures CommitsOk(mutators[m := mutators[m].(stage := stage)], later)
  {
  }

  lemma LockChange(mutators: seq<Mutator>, m: nat, stage: Stage, lock: Option<nat>, after: Option<nat>)
    requires LockOk(lock, mutators) && m < |mutators|
    requires lock.None? || lock == Some(m)
    requires after == if Holding(stage) then Some(m) else None
    ensures LockOk(after, mutators[m := mutators[m].(stage := stage)])
  {
  }

  /** A step inside the lock that touches neither the file nor the daemon. */
  lemma InsideKeeps(s: System, m: nat, stage: Stage)
    requires Inv(s) && m < |s.mutators| && s.lock == Some(m) && Holding(stage)
    requires SessionOk(s.rules, m, s.mutators[m].command, stage, s.before, Disk(s), Version(s), s.daemon)
    requires Settled(s.lock, At(s, m, stage).mutators) ==> Settled(s.lock, s.mutators)
    ensures Inv(At(s, m, stage))
  {
    CommitsAfter(s.mutators, m, stage, s.committed, s.committed);
    LockChange(s.mutators, m, stage, s.lock, s.lock);
  }

  /** A holder ends: its entry continues the chain. */
  lemma FinishKeeps(s: System, m: nat, outcome: Outcome)
    requires Inv(s) && m < |s.mutators| && s.lock == Some(m) && !Waiting(s.mutators[m].stage)
    requires Means(s.rules, s.mutators[m].command, s.before, outcome, Disk(s))
    requires outcome.Committed? ==> outcome.version == Version(s) && DaemonWithin(s.daemon, Version(s), Version(s))
    requires Harmless(outcome) ==> Settled(s.lock, s.mutators)
    ensures Inv(Finish(s, m, outcome))
  {
  }

  lemma LockKeeps(s: System, m: nat)
    requires Inv(s) && Next(s, Lock(m)).Some?
    ensures Inv(Next(s, Lock(m)).value)
  {
    CommitsAfter(s.mutators, m, Locked, s.committed, s.committed);
    LockChange(s.mutators, m, Locked, s.lock, Some(m));
  }

  lemma PrecheckKeeps(s: System, m: nat)
    requires Inv(s) && Next(s, Precheck(m)).Some?
    ensures Inv(Next(s, Precheck(m)).value)
  {
    CommitsAfter(s.mutators, m, Done(Denied), s.committed, s.committed);
    OutsideLockChange(s.mutators, m, s.lock);
  }

  lemma OutsideLockChange(mutators: seq<Mutator>, m: nat, lock: Option<nat>)
    requires LockOk(lock, mutators) && m < |mutators| && mutators[m].stage == Fresh
    ensures LockOk(lock, mutators[m := mutators[m].(stage := Done(Denied))])
  {
  }

  lemma StartKeeps(s: System, command: Command)
    requires Inv(s)
    ensures Inv(s.(mutators := s.mutators + [Mutator(command, Fresh)]))
  {
  }

  /** A save inside the lock: the file gets a new version, in normal form. */
  lemma WriteKeeps(s: System, m: nat, config: Configuration, stage: Stage)
    requires Inv(s) && m < |s.mutators| && s.lock == Some(m) && Written(s, config).Some?
    requires Holding(stage) && !Waiting(stage) && !Waiting(s.mutators[m].stage)
    requires HolderOk(s.rules, s.mutators[m].command, stage, s.before, s.rules.validated(config).value, Version(s) + 1)
    requires ReloadOk(stage, s.daemon)
    requires HasSaved(stage) || (stage.Reloading? && stage.again)
    ensures Inv(At(Written(s, config).value, m, stage))
  {
    var t := At(Written(s, config).value, m, stage);
    CommitsAfter(s.mutators, m, stage, s.committed, s.committed);
    LockChange(s.mutators, m, stage, s.lock, s.lock);
    forall i | 0 < i < |t.writes| ensures s.rules.validated(t.writes[i]) == Some(t.writes[i]) {
      if i < |s.writes| { assert t.writes[i] == s.writes[i]; }
    }
  }

  lemma SaveKeeps(s: System, m: nat, ok: bool)
    requires Inv(s) && Next(s, Save(m, ok)).Some?
    ensures Inv(Next(s, Save(m, ok)).value)
  {
    var k := s.mutators[m];
    if ok && Written(s, k.stage.updated).Some? {
      WriteKeeps(s, m, k.stage.updated, Saved(k.stage.previous, |s.writes|));
    } else {
      FinishKeeps(s, m, Denied);
    }
  }

  lemma RollbackKeeps(s: System, m: nat, ok: bool)
    requires Inv(s) && Next(s, Rollback(m, ok)).Some?
    ensures Inv(Next(s, Rollback(m, ok)).value)
  {
    var stage := s.mutators[m].stage;
    if ok {
      WriteKeeps(s, m, stage.previous, Reloading(stage.previous, stage.version, true, NotSent));
    } else {
      FinishKeeps(s, m, NotRolledBack);
    }
  }

  lemma LoadKeeps(s: System, m: nat, ok: bool)
    requires Inv(s) && Next(s, Load(m, ok)).Some?
    ensures Inv(Next(s, Load(m, ok)).value)
  {
    DiskIsValid(s);
    if ok {
      InsideKeeps(s, m, Loaded(s.rules.validated(Disk(s)).value));
    } else {
      FinishKeeps(s, m, Denied);
    }
  }

  lemma ApplyKeeps(s: System, m: nat, ok: bool)
    requires Inv(s) && Next(s, Apply(m, ok)).Some?
    ensures Inv(Next(s, Apply(m, ok)).value)
  {
    var k := s.mutators[m];
    if !ok {
      FinishKeeps(s, m, Denied);
    } else {
      match s.rules.mutate(k.command, k.stage.previous)
      case Refused => FinishKeeps(s, m, Denied);
      case Unchanged => FinishKeeps(s, m, AlreadySo);
      case Changed(updated) => InsideKeeps(s, m, Applied(k.stage.previous, updated));
    }
  }

  lemma ProbeKeeps(s: System, m: nat, ok: bool)
    requires Inv(s) && Next(s, Probe(m, ok)).Some?
    ensures Inv(Next(s, Probe(m, ok)).value)
  {
    var stage := s.mutators[m].stage;
    if ok {
      InsideKeeps(s, m, Probed(stage.previous, stage.updated));
    } else {
      FinishKeeps(s, m, Denied);
    }
  }

  lemma CheckPidKeeps(s: System, m: nat, seen: PidSeen)
    requires Inv(s) && Next(s, CheckPid(m, seen)).Some?
    ensures Inv(Next(s, CheckPid(m, seen)).value)
  {
    var stage := s.mutators[m].stage;
    match seen
    case NoDaemon => FinishKeeps(s, m, Committed(stage.version));
    case SomeDaemon => InsideKeeps(s, m, Reloading(stage.previous, stage.version, false, NotSent));
    case Unreadable => FinishKeeps(s, m, PidUnknown);
  }

  lemma SendKeeps(s: System, m: nat, ok: bool)
    requires Inv(s) && Next(s, Send(m, ok)).Some?
    ensures Inv(Next(s, Send(m, ok)).value)
  {
    var stage := s.mutators[m].stage;
    if ok {
      CommitsAfter(s.mutators, m, stage.(request := InFlight), s.committed, s.committed);
      LockChange(s.mutators, m, stage.(request := InFlight), s.lock, s.lock);
    } else {
      InsideKeeps(s, m, stage.(request := Replied(false)));
    }
  }

  lemma LoseReplyKeeps(s: System, m: nat)
    requires Inv(s) && Next(s, LoseReply(m)).Some?
    ensures Inv(Next(s, LoseReply(m)).value)
  {
    InsideKeeps(s, m, s.mutators[m].stage.(request := Replied(false)));
  }

  lemma TakeReplyKeeps(s: System, m: nat)
    requires Inv(s) && Next(s, TakeReply(m)).Some?
    ensures Inv(Next(s, TakeReply(m)).value)
  {
    var stage := s.mutators[m].stage;
    if stage.again {
      FinishKeeps(s, m, RolledBack);
    } else if stage.request.ok {
      FinishKeeps(s, m, Committed(stage.version));
    } else {
      InsideKeeps(s, m, RollingBack(stage.previous, stage.version));
    }
  }

  lemma DeathMeans(rules: Rules, command: Command, stage: Stage, before: Configuration, disk: Configuration, now: nat)
    requires HolderOk(rules, command, stage, before, disk, now) && Holding(stage)
    requires rules.validated(disk).Some? && disk == before ==> rules.validated(before).Some?
    requires stage.Locked? ==> rules.validated(before).Some?
    ensures Means(rules, command, before, Died(DeathOf(stage)), disk)
  {
  }

  /** The handler of a client that gives up, as it goes on by itself. */
  lemma SessionAfterGiveUp(rules: Rules, m: nat, command: Command, stage: Stage, before: Configuration,
                           disk: Configuration, now: nat, d: Daemon, committed: nat)
    requires Waiting(stage) && d.Up? && SessionOk(rules, m, command, stage, before, disk, now, d)
    requires DaemonWithin(d, committed, now)
    ensures SessionOk(rules, m, command, stage.(request := Replied(false)), before, disk, now, Up(d.version, None))
    ensures DaemonWithin(Up(d.version, None), committed, now)
    ensures d.handler.Some? && d.handler.value.Building? ==> d.handler.value.version <= now
  {
  }

  lemma OrphansGrow(orphans: seq<Option<nat>>, orphan: Option<nat>, now: nat)
    requires OrphansOk(orphans, now) && (orphan.Some? ==> orphan.value <= now)
    ensures OrphansOk(orphans + [orphan], now)
  {
  }

  lemma GiveUpKeeps(s: System, m: nat)
    requires Inv(s) && Next(s, GiveUp(m)).Some?
    ensures Inv(Next(s, GiveUp(m)).value)
  {
    var (k, h) := (s.mutators[m], s.daemon.handler.value);
    var stage := k.stage.(request := Replied(false));
    CommitsAfter(s.mutators, m, stage, s.committed, s.committed);
    LockChange(s.mutators, m, stage, s.lock, s.lock);
    SessionAfterGiveUp(s.rules, m, k.command, k.stage, s.before, Disk(s), Version(s), s.daemon, s.committed);
    OrphansGrow(s.orphans, if h.Building? then Some(h.version) else None, Version(s));
  }

  lemma DieKeeps(s: System, m: nat)
    requires Inv(s) && Next(s, Die(m)).Some?
    ensures Inv(Next(s, Die(m)).value)
  {
    var k := s.mutators[m];
    DiskIsValid(s);
    DeathMeans(s.rules, k.command, k.stage, s.before, Disk(s), Version(s));
    FinishKeeps(s, m, Died(DeathOf(k.stage)));
  }

  predicate IsDaemonStep(a: Action) {
    || a.Acquire? || a.WritePid? || a.AcquireFail? || a.ReadConfig? || a.Serve? || a.StartFail? || a.HandlerRead?
    || a.HandlerStore? || a.HandlerFail? || a.OrphanRead? || a.OrphanStore? || a.Stop?
    || a.Kill?
  }

  predicate BeforeSaving(a: Action) {
    a.Precheck? || a.Lock? || a.Load? || a.Apply? || a.Probe? || a.Save?
  }

  lemma EarlyStepKeeps(s: System, a: Action)
    requires Inv(s) && Next(s, a).Some? && BeforeSaving(a)
    ensures Inv(Next(s, a).value)
  {
    match a
    case Precheck(m) => PrecheckKeeps(s, m);
    case Lock(m) => LockKeeps(s, m);
    case Load(m, ok) => LoadKeeps(s, m, ok);
    case Apply(m, ok) => ApplyKeeps(s, m, ok);
    case Probe(m, ok) => ProbeKeeps(s, m, ok);
    case Save(m, ok) => SaveKeeps(s, m, ok);
  }

  lemma LateStepKeeps(s: System, a: Action)
    requires Inv(s) && Next(s, a).Some? && !IsDaemonStep(a) && !BeforeSaving(a) && !a.Start?
    ensures Inv(Next(s, a).value)
  {
    match a
    case CheckPid(m, seen) => CheckPidKeeps(s, m, seen);
    case Send(m, ok) => SendKeeps(s, m, ok);
    case TakeReply(m) => TakeReplyKeeps(s, m);
    case LoseReply(m) => LoseReplyKeeps(s, m);
    case Rollback(m, ok) => RollbackKeeps(s, m, ok);
    case Die(m) => DieKeeps(s, m);
    case GiveUp(m) => GiveUpKeeps(s, m);
  }

  lemma MutatorStepKeeps(s: System, a: Action)
    requires Inv(s) && Next(s, a).Some? && !IsDaemonStep(a)
    ensures Inv(Next(s, a).value)
  {
    if a.Start? {
      StartKeeps(s, a.command);
    } else if BeforeSaving(a) {
      EarlyStepKeeps(s, a);
    } else {
      LateStepKeeps(s, a);
    }
  }

  // ----- steps of the daemon -----

  /** The daemon moves on without a handler, and reads nothing but the current version. */
  lemma DaemonMoves(s: System, d: Daemon, file: PidFile, orphans: seq<Option<nat>>)
    requires Inv(s) && HandlerOf(s.daemon).None? && HandlerOf(d).None?
    requires PidOk(d, file) && OrphansOk(orphans, Version(s))
    requires forall v: nat :: v <= Version(s) && DaemonWithin(s.daemon, v, Version(s)) ==>
               DaemonWithin(d, v, Version(s))
    ensures Inv(s.(daemon := d, pidFile := file, orphans := orphans))
  {
  }

  lemma HandlerReads(s: System)
    requires Inv(s) && NextDaemon(s, HandlerRead).Some?
    ensures Inv(NextDaemon(s, HandlerRead).value)
  {
  }

  lemma QuietDaemonKeeps(s: System, a: Action)
    requires Inv(s) && NextDaemon(s, a).Some? && HandlerOf(s.daemon).None? && !a.OrphanRead? && !a.OrphanStore?
    ensures Inv(NextDaemon(s, a).value)
  {
    var t := NextDaemon(s, a).value;
    assert t == s.(daemon := t.daemon, pidFile := t.pidFile, orphans := t.orphans);
    DaemonMoves(s, t.daemon, t.pidFile, t.orphans);
  }

  lemma AnsweredKeeps(s: System, d: Daemon, file: PidFile, orphans: seq<Option<nat>>, m: nat, ok: bool)
    requires Inv(s) && s.lock == Some(m) && Waiting(s.mutators[m].stage)
    requires HandlerOf(d).None? && PidOk(d, file) && DaemonWithin(d, s.committed, Version(s))
    requires OrphansOk(orphans, Version(s))
    requires ok ==> ReloadOk(s.mutators[m].stage.(request := Replied(true)), d)
    ensures Inv(Answered(s.(daemon := d, pidFile := file, orphans := orphans), m, ok))
  {
    var stage := s.mutators[m].stage.(request := Replied(ok));
    CommitsAfter(s.mutators, m, stage, s.committed, s.committed);
    LockChange(s.mutators, m, stage, s.lock, s.lock);
  }

  lemma HandlerStepKeeps(s: System, a: Action)
    requires Inv(s) && NextDaemon(s, a).Some? && HandlerOf(s.daemon).Some? && !a.HandlerRead?
    requires !a.OrphanRead? && !a.OrphanStore?
    ensures Inv(NextDaemon(s, a).value)
  {
    var (h, version) := (s.daemon.handler.value, s.daemon.version);
    if a.HandlerStore? {
      AnsweredKeeps(s, Up(h.version, None), s.pidFile, s.orphans, h.m, true);
    } else if a.HandlerFail? {
      AnsweredKeeps(s, Up(version, None), s.pidFile, s.orphans, h.m, false);
    } else {
      AnsweredKeeps(s, Down, Stale, [], h.m, false);
    }
  }

  // ----- handlers whose clients no longer wait -----

  /** The version the daemon has been promised to have: that of the last commit, or that of the lock holder once
      it has been told that its reload went well. */
  function Promised(s: System): nat {
    if s.lock.Some? && s.lock.value < |s.mutators| then
      var stage := s.mutators[s.lock.value].stage;
      if stage.Reloading? && !stage.again && stage.request == Replied(true) then stage.version else s.committed
    else s.committed
  }

  /** If the step stores an abandoned handler's pool, that pool is not older than what was promised. */
  predicate Timely(s: System, a: Action) {
    a.OrphanStore? && a.i < |s.orphans| && s.orphans[a.i].Some? ==> Promised(s) <= s.orphans[a.i].value
  }

  lemma OrphanReadKeeps(s: System, i: nat)
    requires Inv(s) && NextDaemon(s, OrphanRead(i)).Some?
    ensures Inv(NextDaemon(s, OrphanRead(i)).value)
  {
  }

  lemma OrphanStoreKeeps(s: System, i: nat)
    requires Inv(s) && NextDaemon(s, OrphanStore(i)).Some? && Timely(s, OrphanStore(i))
    ensures Inv(NextDaemon(s, OrphanStore(i)).value)
  {
    var left := s.orphans[..i] + s.orphans[i + 1..];
    assert forall k :: 0 <= k < |left| ==> left[k] == if k < i then s.orphans[k] else s.orphans[k + 1];
  }

  lemma DaemonStepKeeps(s: System, a: Action)
    requires Inv(s) && NextDaemon(s, a).Some? && Timely(s, a)
    ensures Inv(NextDaemon(s, a).value)
  {
    if a.OrphanRead? {
      OrphanReadKeeps(s, a.i);
    } else if a.OrphanStore? {
      OrphanStoreKeeps(s, a.i);
    } else if HandlerOf(s.daemon).None? {
      QuietDaemonKeeps(s, a);
    } else if a.HandlerRead? {
      HandlerReads(s);
    } else {
      HandlerStepKeeps(s, a);
    }
  }

  lemma DaemonStep(s: System, a: Action)
    requires s.writes != [] && IsDaemonStep(a)
    ensures Next(s, a) == NextDaemon(s, a)
  {
  }

  /** Every step keeps the invariant, unless it stores the pool of an abandoned handler too late. */
  lemma StepKeeps(s: System, a: Action)
    requires Inv(s) && Next(s, a).Some? && Timely(s, a)
    ensures Inv(Next(s, a).value)
  {
    if IsDaemonStep(a) {
      DaemonStep(s, a);
      DaemonStepKeeps(s, a);
    } else {
      MutatorStepKeeps(s, a);
    }
  }
}
