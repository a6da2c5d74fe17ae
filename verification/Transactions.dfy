/** Configuration changes as a protocol of many processes: command-line mutators and one daemon share a
    lock file, a configuration file replaced by renaming, a pid file and the daemon's active pool. */
module Transactions {
  import opened Wrappers
  import opened Commands
  import opened Config

  // ----- what the protocol needs to know about configurations -----

  /** How a configuration is validated, which gives its normal form, what a command makes of it, and from which
      normal forms a pool can be built. The protocol is the same for all rules. */
  datatype Rules = Rules(
    validated: Configuration -> Option<Configuration>, mutate: (Command, Configuration) -> Mutation,
    activates: Configuration -> bool) {
    /** A daemon that reads this file can build its pool. */
    predicate CanServe(config: Configuration) {
      validated(config).Some? && activates(validated(config).value)
    }

    /** The probe of a changed configuration can succeed. What fails validation is not saved in any case. */
    predicate Passes(updated: Configuration) { validated(updated).Some? ==> CanServe(updated) }

    /** What a command leaves on disk when it goes through. */
    function Effect(command: Command, config: Configuration): Option<Configuration> {
      match mutate(command, config)
      case Changed(updated) => if CanServe(updated) then validated(updated) else None
      case _ => None
    }

    /** Validating a normal form changes nothing. */
    ghost predicate Sound() {
      forall c, n :: validated(c) == Some(n) ==> validated(n) == Some(n)
    }
  }

  // ----- state -----

  datatype Death = BeforeSave | AfterSave | AfterRollback

  datatype Outcome =
    | Committed(version: nat)  // saved, and no daemon runs or the daemon has reloaded
    | AlreadySo                // nothing to change
    | Denied                   // loading, the change, the probe or the save failed
    | PidUnknown               // saved, then the pid file could not be read
    | RolledBack               // saved, the reload failed, the previous configuration saved again
    | NotRolledBack            // saved, the reload failed, and so did saving the previous configuration
    | Died(when: Death)        // the process ended

  /** A reload request: not sent, with the daemon, or answered. */
  datatype Request = NotSent | InFlight | Replied(ok: bool)

  datatype Stage =
    | Fresh
    | Locked
    | Loaded(previous: Configuration)
    | Applied(previous: Configuration, updated: Configuration)
    | Probed(previous: Configuration, updated: Configuration)
    | Saved(previous: Configuration, version: nat)
    | Reloading(previous: Configuration, version: nat, again: bool, request: Request)
    | RollingBack(previous: Configuration, version: nat)
    | Done(outcome: Outcome)

  datatype Mutator = Mutator(command: Command, stage: Stage)

  /** `Blank` while the daemon has truncated the file and not yet written its pid; `Stale` when a daemon
      was killed. */
  datatype PidFile = Absent | Blank | Stale | Live

  /** The daemon's reload handler: it reads the configuration, builds a pool, stores it. */
  datatype Handler = Reading(m: nat) | Building(m: nat, version: nat)

  datatype Daemon = Down | Acquiring | Guarded | Loading(version: nat) | Up(version: nat, handler: Option<Handler>)

  /** What one lock holder did: the file when it took the lock, the file when it let go. */
  datatype Entry = Entry(m: nat, command: Command, before: Configuration, after: Configuration, outcome: Outcome)

  /** `writes` is every content the configuration file has had, its versions in order; the last one is on
      disk. `before` is the content when the lock was last taken, `committed` the last committed version.
      `orphans` are the handlers whose clients have stopped waiting, with the version each has read, if any. */
  datatype System = System(
    rules: Rules, lock: Option<nat>, writes: seq<Configuration>, before: Configuration, committed: nat,
    pidFile: PidFile, daemon: Daemon, orphans: seq<Option<nat>>, mutators: seq<Mutator>, log: seq<Entry>)

  function Initial(rules: Rules, config: Configuration): System {
    System(rules, None, [config], config, 0, Absent, Down, [], [], [])
  }

  function Version(s: System): nat
    requires s.writes != []
  {
    |s.writes| - 1
  }

  function Disk(s: System): Configuration
    requires s.writes != []
  {
    s.writes[|s.writes| - 1]
  }

  // ----- steps -----

  datatype PidSeen = NoDaemon | SomeDaemon | Unreadable

  datatype Action =
    // mutator m; `ok` is false where the step can fail for reasons outside the model
    | Start(command: Command)
    | Precheck(m: nat)
    | Lock(m: nat)
    | Load(m: nat, ok: bool)
    | Apply(m: nat, ok: bool)
    | Probe(m: nat, ok: bool)
    | Save(m: nat, ok: bool)
    | CheckPid(m: nat, seen: PidSeen)
    | Send(m: nat, ok: bool)
    | TakeReply(m: nat)
    | LoseReply(m: nat)
    | Rollback(m: nat, ok: bool)
    | Die(m: nat)
    | GiveUp(m: nat)
    // the daemon
    | Acquire
    | WritePid
    | AcquireFail
    | ReadConfig
    | Serve
    | StartFail
    | HandlerRead
    | HandlerStore
    | HandlerFail
    | OrphanRead(i: nat)
    | OrphanStore(i: nat)
    | Stop
    | Kill

  function At(s: System, m: nat, stage: Stage): System
    requires m < |s.mutators|
  {
    s.(mutators := s.mutators[m := s.mutators[m].(stage := stage)])
  }

  /** The mutator ends and its lock is released. */
  function Finish(s: System, m: nat, outcome: Outcome): System
    requires m < |s.mutators| && s.writes != []
  {
    At(s, m, Done(outcome)).(
      lock := None,
      log := s.log + [Entry(m, s.mutators[m].command, s.before, Disk(s), outcome)],
      committed := if outcome.Committed? then outcome.version else s.committed)
  }

  /** `save_config`: validation, and one atomic replacement. */
  function Written(s: System, config: Configuration): Option<System> {
    var normal :- s.rules.validated(config);
    Some(s.(writes := s.writes + [normal]))
  }

  predicate Shows(file: PidFile, seen: PidSeen) {
    match seen
    case NoDaemon => file == Absent || file == Stale
    case SomeDaemon => file == Live || file == Stale
    case Unreadable => true
  }

  /** The change is on disk, and nobody has tried to take it back. */
  predicate HasSaved(stage: Stage) {
    stage.Saved? || stage.RollingBack? || (stage.Reloading? && !stage.again)
  }

  function DeathOf(stage: Stage): Death {
    if HasSaved(stage) then AfterSave else if stage.Reloading? then AfterRollback else BeforeSave
  }

  predicate Holding(stage: Stage) { !stage.Fresh? && !stage.Done? }

  function Next(s: System, a: Action): Option<System>
    requires s.writes != []
  {
    match a
    case Start(command) => Some(s.(mutators := s.mutators + [Mutator(command, Fresh)]))
    case Acquire | WritePid | AcquireFail | ReadConfig | Serve | StartFail | HandlerRead | HandlerStore | HandlerFail
       | OrphanRead(_) | OrphanStore(_) | Stop | Kill =>
      NextDaemon(s, a)
    case _ =>
      if a.m < |s.mutators| then NextMutator(s, a, a.m, s.mutators[a.m].command, s.mutators[a.m].stage) else None
  }

  function NextMutator(s: System, a: Action, m: nat, command: Command, stage: Stage): Option<System>
    requires s.writes != [] && m < |s.mutators|
  {
    match (a, stage)
    case (Precheck(_), Fresh) => Some(At(s, m, Done(Denied)))
    case (Lock(_), Fresh) =>
      if s.lock.None? then Some(At(s, m, Locked).(lock := Some(m), before := Disk(s))) else None
    case (Load(_, ok), Locked) =>
      (match s.rules.validated(Disk(s))
       case Some(previous) => Some(if ok then At(s, m, Loaded(previous)) else Finish(s, m, Denied))
       case None => Some(Finish(s, m, Denied)))
    case (Apply(_, ok), Loaded(previous)) =>
      if !ok then Some(Finish(s, m, Denied))
      else
        (match s.rules.mutate(command, previous)
         case Refused => Some(Finish(s, m, Denied))
         case Unchanged => Some(Finish(s, m, AlreadySo))
         case Changed(updated) => Some(At(s, m, Applied(previous, updated))))
    case (Probe(_, ok), Applied(previous, updated)) =>
      // a pool is built from the changed configuration
      if !ok then Some(Finish(s, m, Denied))
      else if s.rules.Passes(updated) then Some(At(s, m, Probed(previous, updated)))
      else None
    case (Save(_, ok), Probed(previous, updated)) =>
      (match Written(s, updated)
       case Some(t) => Some(if ok then At(t, m, Saved(previous, |s.writes|)) else Finish(s, m, Denied))
       case None => Some(Finish(s, m, Denied)))
    case (CheckPid(_, seen), Saved(previous, version)) =>
      if !Shows(s.pidFile, seen) then None
      else
        (match seen
         case NoDaemon => Some(Finish(s, m, Committed(version)))
         case SomeDaemon => Some(At(s, m, Reloading(previous, version, false, NotSent)))
         case Unreadable => Some(Finish(s, m, PidUnknown)))
    case (Send(_, ok), Reloading(previous, version, again, NotSent)) =>
      // the request reaches a daemon that serves, or fails
      if ok && s.daemon.Up? && s.daemon.handler.None?
      then Some(At(s, m, Reloading(previous, version, again, InFlight)).(
                  daemon := Up(s.daemon.version, Some(Reading(m)))))
      else if ok then None
      else Some(At(s, m, Reloading(previous, version, again, Replied(false))))
    case (TakeReply(_), Reloading(previous, version, again, Replied(ok))) =>
      Some(if again then Finish(s, m, RolledBack)
           else if ok then Finish(s, m, Committed(version))
           else At(s, m, RollingBack(previous, version)))
    case (LoseReply(_), Reloading(previous, version, again, Replied(true))) =>
      Some(At(s, m, Reloading(previous, version, again, Replied(false))))
    case (Rollback(_, ok), RollingBack(previous, version)) =>
      (match Written(s, previous)
       case Some(t) =>
         Some(if ok then At(t, m, Reloading(previous, version, true, NotSent)) else Finish(s, m, NotRolledBack))
       case None => Some(Finish(s, m, NotRolledBack)))
    case (Die(_), _) =>
      if Holding(stage) && !(stage.Reloading? && stage.request.InFlight?)
      then Some(Finish(s, m, Died(DeathOf(stage))))
      else None
    case (GiveUp(_), Reloading(previous, version, again, InFlight)) =>
      // the client stops waiting; the handler goes on
      if s.daemon.Up? && s.daemon.handler.Some?
      then
        var h := s.daemon.handler.value;
        Some(At(s, m, Reloading(previous, version, again, Replied(false))).(
               daemon := Up(s.daemon.version, None),
               orphans := s.orphans + [if h.Building? then Some(h.version) else None]))
      else None
    case _ => None
  }

  /** The handler's reply to the mutator that waits for it. */
  function Answered(s: System, m: nat, ok: bool): System {
    if m < |s.mutators| && s.mutators[m].stage.Reloading? && s.mutators[m].stage.request.InFlight?
    then At(s, m, s.mutators[m].stage.(request := Replied(ok)))
    else s
  }

  /** A daemon that ends takes its handler with it. */
  function Ended(s: System, file: PidFile): System {
    var t := s.(daemon := Down, pidFile := file, orphans := []);
    if s.daemon.Up? && s.daemon.handler.Some? then Answered(t, s.daemon.handler.value.m, false) else t
  }

  /** A pool can be built from this version of the file. */
  predicate Servable(s: System, version: nat) { version < |s.writes| && s.rules.CanServe(s.writes[version]) }

  function NextDaemon(s: System, a: Action): Option<System>
    requires s.writes != []
  {
    match (a, s.daemon)
    case (Acquire, Down) => Some(s.(daemon := Acquiring, pidFile := Blank))
    case (AcquireFail, Acquiring) => Some(s.(daemon := Down))
    case (WritePid, Acquiring) => Some(s.(daemon := Guarded, pidFile := Live))
    case (ReadConfig, Guarded) => Some(s.(daemon := Loading(Version(s))))
    case (Serve, Loading(version)) => if Servable(s, version) then Some(s.(daemon := Up(version, None))) else None
    case (StartFail, Guarded) => Some(Ended(s, Absent))
    case (StartFail, Loading(_)) => Some(Ended(s, Absent))
    case (HandlerRead, Up(version, Some(Reading(m)))) => Some(s.(daemon := Up(version, Some(Building(m, Version(s))))))
    case (HandlerStore, Up(_, Some(Building(m, read)))) =>
      if Servable(s, read) then Some(Answered(s.(daemon := Up(read, None)), m, true)) else None
    case (HandlerFail, Up(version, Some(h))) => Some(Answered(s.(daemon := Up(version, None)), h.m, false))
    case (OrphanRead(i), Up(_, _)) =>
      if i < |s.orphans| && s.orphans[i].None? then Some(s.(orphans := s.orphans[i := Some(Version(s))])) else None
    case (OrphanStore(i), Up(_, handler)) =>
      if i < |s.orphans| && s.orphans[i].Some? && Servable(s, s.orphans[i].value)
      then Some(s.(daemon := Up(s.orphans[i].value, handler), orphans := s.orphans[..i] + s.orphans[i + 1..]))
      else None
    case (Stop, Up(_, None)) => Some(Ended(s, Absent))
    case (Kill, Acquiring) => Some(Ended(s, Blank))
    case (Kill, Guarded) => Some(Ended(s, Stale))
    case (Kill, Loading(_)) => Some(Ended(s, Stale))
    case (Kill, Up(_, _)) => Some(Ended(s, Stale))
    case _ => None
  }

  // ----- runs -----

  function Run(s: System, actions: seq<Action>): Option<System>
    requires s.writes != []
    ensures Run(s, actions).Some? ==> Run(s, actions).value.writes != []
  {
    if actions == [] then Some(s)
    else
      var t :- Run(s, actions[..|actions| - 1]);
      Next(t, actions[|actions| - 1])
  }
}
