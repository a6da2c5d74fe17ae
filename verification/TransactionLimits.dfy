/** Where the guarantees of the transactions end: runs that show it, and exactly when abandoned handlers do harm. */
module TransactionLimits {
  import opened Wrappers
  import opened Commands
  import opened Config
  import opened Transactions
  import opened TransactionInvariant
  import opened TransactionProperties

  // ----- building runs -----

  /** A set of states that every step stays in; if `orderly`, every timely step. */
  ghost predicate Closed(reached: System -> bool, orderly: bool) {
    forall s, a: Action :: reached(s) && s.writes != [] && (orderly ==> Timely(s, a)) && Next(s, a).Some? ==>
      reached(Next(s, a).value)
  }

  lemma Go(reached: System -> bool, orderly: bool, s: System, a: Action) returns (t: System)
    requires Closed(reached, orderly) && reached(s) && s.writes != [] && (orderly ==> Timely(s, a))
    requires Next(s, a).Some?
    ensures t == Next(s, a).value && reached(t)
  {
    t := Next(s, a).value;
  }

  lemma GoApply(reached: System -> bool, orderly: bool, s: System, m: nat, previous: Configuration,
                updated: Configuration) returns (t: System)
    requires Closed(reached, orderly) && reached(s) && s.writes != []
    requires s.lock.None? && m < |s.mutators| && s.mutators[m].stage == Fresh
    requires s.rules.validated(Disk(s)) == Some(previous)
    requires s.rules.mutate(s.mutators[m].command, previous) == Changed(updated)
    ensures reached(t) && t == At(s, m, Applied(previous, updated)).(lock := Some(m), before := Disk(s))
  {
    t := Go(reached, orderly, s, Lock(m));
    t := Go(reached, orderly, t, Load(m, true));
    t := Go(reached, orderly, t, Apply(m, true));
  }

  lemma GoProbe(reached: System -> bool, orderly: bool, s: System, m: nat, previous: Configuration,
                updated: Configuration) returns (t: System)
    requires Closed(reached, orderly) && reached(s) && s.writes != []
    requires s.lock.None? && m < |s.mutators| && s.mutators[m].stage == Fresh
    requires s.rules.validated(Disk(s)) == Some(previous) && s.rules.Passes(updated)
    requires s.rules.mutate(s.mutators[m].command, previous) == Changed(updated)
    ensures reached(t) && t == At(s, m, Probed(previous, updated)).(lock := Some(m), before := Disk(s))
  {
    t := GoApply(reached, orderly, s, m, previous, updated);
    t := Go(reached, orderly, t, Probe(m, true));
  }

  /** A mutator takes the free lock and gets as far as saving. */
  lemma GoSave(reached: System -> bool, orderly: bool, s: System, m: nat, previous: Configuration,
               normal: Configuration)
    returns (t: System)
    requires Closed(reached, orderly) && reached(s) && s.writes != []
    requires s.lock.None? && m < |s.mutators| && s.mutators[m].stage == Fresh
    requires s.rules.validated(Disk(s)) == Some(previous)
    requires s.rules.Effect(s.mutators[m].command, previous) == Some(normal)
    ensures reached(t)
    ensures t == At(s, m, Saved(previous, |s.writes|))
                   .(lock := Some(m), before := Disk(s), writes := s.writes + [normal])
  {
    t := GoProbe(reached, orderly, s, m, previous, s.rules.mutate(s.mutators[m].command, previous).config);
    t := Go(reached, orderly, t, Save(m, true));
  }

  /** What a command leaves on disk can be served. */
  lemma EffectCanServe(rules: Rules, command: Command, previous: Configuration, normal: Configuration)
    requires rules.Sound() && rules.Effect(command, previous) == Some(normal)
    ensures rules.validated(normal) == Some(normal) && rules.CanServe(normal)
  {
  }

  /** A mutator that has saved sends its reload to the serving daemon, whose handler reads the file. */
  lemma GoRequest(reached: System -> bool, orderly: bool, s: System, m: nat) returns (t: System)
    requires Closed(reached, orderly) && reached(s) && s.writes != []
    requires m < |s.mutators| && s.mutators[m].stage.Saved? && s.pidFile == Live
    requires s.daemon.Up? && s.daemon.handler.None?
    ensures reached(t)
    ensures var stage := s.mutators[m].stage;
            t == At(s, m, Reloading(stage.previous, stage.version, false, InFlight)).(
                   daemon := Up(s.daemon.version, Some(Building(m, Version(s)))))
  {
    t := Go(reached, orderly, s, CheckPid(m, SomeDaemon));
    t := Go(reached, orderly, t, Send(m, true));
    t := Go(reached, orderly, t, HandlerRead);
  }

  /** The handler stores its pool, and the mutator commits. */
  lemma GoCommit(reached: System -> bool, orderly: bool, s: System, m: nat) returns (t: System)
    requires Closed(reached, orderly) && reached(s) && s.writes != [] && s.rules.CanServe(Disk(s))
    requires m < |s.mutators| && s.mutators[m].stage.Saved? && s.pidFile == Live
    requires s.daemon.Up? && s.daemon.handler.None?
    ensures reached(t)
    ensures t == Finish(s.(daemon := Up(Version(s), None)), m, Committed(s.mutators[m].stage.version))
  {
    t := GoRequest(reached, orderly, s, m);
    t := Go(reached, orderly, t, HandlerStore);
    t := Go(reached, orderly, t, TakeReply(m));
  }

  /** A mutator whose reload has failed saves the previous configuration again. */
  lemma GoRestore(reached: System -> bool, orderly: bool, s: System, m: nat, previous: Configuration, version: nat)
    returns (t: System)
    requires Closed(reached, orderly) && reached(s) && s.writes != []
    requires m < |s.mutators| && s.mutators[m].stage == Reloading(previous, version, false, Replied(false))
    requires s.rules.validated(previous) == Some(previous)
    ensures reached(t)
    ensures t == At(s, m, Reloading(previous, version, true, NotSent)).(writes := s.writes + [previous])
  {
    t := Go(reached, orderly, s, TakeReply(m));
    t := Go(reached, orderly, t, Rollback(m, true));
  }

  /** A mutator whose reload has failed rolls back; its second reload fails as well. */
  lemma GoRollBack(reached: System -> bool, orderly: bool, s: System, m: nat, previous: Configuration, version: nat)
    returns (t: System)
    requires Closed(reached, orderly) && reached(s) && s.writes != []
    requires m < |s.mutators| && s.mutators[m].stage == Reloading(previous, version, false, Replied(false))
    requires s.rules.validated(previous) == Some(previous)
    ensures reached(t) && t == Finish(s.(writes := s.writes + [previous]), m, RolledBack)
  {
    t := GoRestore(reached, orderly, s, m, previous, version);
    t := Go(reached, orderly, t, Send(m, false));
    t := Go(reached, orderly, t, TakeReply(m));
  }

  lemma {:induction false} RunOneMore(first: System, trace: seq<Action>, s: System, a: Action)
    requires first.writes != [] && s.writes != [] && Run(first, trace) == Some(s)
    ensures Run(first, trace + [a]) == Next(s, a)
  {
  }

  // ----- a daemon that starts during a failing change -----

  lemma ReachableIsClosed(rules: Rules, config: Configuration)
    ensures Closed(s => Reachable(rules, config, s), true)
  {
    var reached := s => Reachable(rules, config, s);
    forall s, a: Action | reached(s) && s.writes != [] && Timely(s, a) && Next(s, a).Some?
      ensures reached(Next(s, a).value)
    {
      var trace :| Run(Initial(rules, config), trace) == Some(s) && Orderly(Initial(rules, config), trace);
      RunOneMore(Initial(rules, config), trace, s, a);
      assert (trace + [a])[..|trace|] == trace;
      assert Orderly(Initial(rules, config), trace + [a]);
    }
  }

  lemma InitialIsReachable(rules: Rules, config: Configuration)
    requires rules.Sound() && rules.validated(config).Some?
    ensures Reachable(rules, config, Initial(rules, config))
  {
    assert Orderly(Initial(rules, config), []) && Run(Initial(rules, config), []) == Some(Initial(rules, config));
  }

  /** The daemon holds the pid file but has not yet read the configuration, and the mutator has saved. */
  lemma GoStarting(reached: System -> bool, rules: Rules, config: Configuration, command: Command,
                   normal: Configuration)
    returns (s: System)
    requires Closed(reached, true) && reached(Initial(rules, config))
    requires rules.validated(config) == Some(config) && rules.Effect(command, config) == Some(normal)
    ensures reached(s)
    ensures s == System(rules, Some(0), [config, normal], config, 0, Live, Guarded, [],
                        [Mutator(command, Saved(config, 1))], [])
  {
    s := Go(reached, true, Initial(rules, config), Start(command));
    s := Go(reached, true, s, Acquire);
    s := Go(reached, true, s, WritePid);
    s := GoSave(reached, true, s, 0, config, normal);
  }

  /** An orderly run can end with the lock free, the change rolled back on disk, and the daemon serving the
      change all the same: the daemon reads the file between the save and the rollback, and the reloads that
      should correct it find it not serving yet. */
  lemma RolledBackChangeCanBeServed(rules: Rules, config: Configuration, command: Command, normal: Configuration)
    returns (s: System)
    requires rules.Sound() && rules.validated(config) == Some(config)
    requires rules.Effect(command, config) == Some(normal) && normal != config
    ensures Reachable(rules, config, s) && s.lock.None? && |s.log| == 1 && s.log[0].outcome == RolledBack
    ensures s.writes == [config, normal, config] && s.daemon == Up(1, None)
    ensures s.writes[s.daemon.version] != Disk(s)
  {
    var reached := s => Reachable(rules, config, s);
    ReachableIsClosed(rules, config);
    InitialIsReachable(rules, config);
    s := GoRolledBack(reached, rules, config, command, normal);
  }

  lemma GoRolledBack(reached: System -> bool, rules: Rules, config: Configuration, command: Command,
                     normal: Configuration) returns (s: System)
    requires Closed(reached, true) && reached(Initial(rules, config)) && rules.Sound()
    requires rules.validated(config) == Some(config) && rules.Effect(command, config) == Some(normal)
    ensures reached(s) && s.lock.None? && |s.log| == 1 && s.log[0].outcome == RolledBack
    ensures s.writes == [config, normal, config] && s.daemon == Up(1, None)
  {
    EffectCanServe(rules, command, config, normal);
    s := GoStarting(reached, rules, config, command, normal);
    s := Go(reached, true, s, CheckPid(0, SomeDaemon));
    s := Go(reached, true, s, ReadConfig);
    s := Go(reached, true, s, Send(0, false));
    s := GoRollBack(reached, true, s, 0, config, 1);
    s := Go(reached, true, s, Serve);
  }

  // ----- a reply that is lost -----

  /** The handler stores the new pool, and its reply does not arrive. */
  lemma GoLost(reached: System -> bool, s: System, m: nat) returns (t: System)
    requires Closed(reached, true) && reached(s) && s.writes != [] && s.rules.CanServe(Disk(s))
    requires m < |s.mutators| && s.mutators[m].stage.Saved? && s.pidFile == Live
    requires s.daemon.Up? && s.daemon.handler.None?
    ensures reached(t)
    ensures var stage := s.mutators[m].stage;
            t == At(s, m, Reloading(stage.previous, stage.version, false, Replied(false))).(
                   daemon := Up(Version(s), None))
  {
    t := GoRequest(reached, true, s, m);
    t := Go(reached, true, t, HandlerStore);
    t := Go(reached, true, t, LoseReply(m));
  }

  /** The same can happen to a daemon that serves the file all along: it reloads, the reply is lost, and the reload
      after the rollback does not reach it. */
  lemma LostReplyServesChange(rules: Rules, config: Configuration, s: System, m: nat, normal: Configuration)
    returns (t: System)
    requires rules.Sound() && Reachable(rules, config, s) && s.rules == rules && s.writes != []
    requires s.lock.None? && s.pidFile == Live && s.daemon == Up(Version(s), None)
    requires m < |s.mutators| && s.mutators[m].stage == Fresh && rules.validated(Disk(s)) == Some(Disk(s))
    requires rules.Effect(s.mutators[m].command, Disk(s)) == Some(normal) && normal != Disk(s)
    ensures Reachable(rules, config, t) && t.lock.None? && t.writes == s.writes + [normal, Disk(s)]
    ensures t.log == s.log + [Entry(m, s.mutators[m].command, Disk(s), Disk(s), RolledBack)]
    ensures t.daemon == Up(|s.writes|, None) && t.writes[t.daemon.version] == normal != Disk(t)
  {
    var reached := s => Reachable(rules, config, s);
    ReachableIsClosed(rules, config);
    EffectCanServe(rules, s.mutators[m].command, Disk(s), normal);
    t := GoSave(reached, true, s, m, Disk(s), normal);
    t := GoLost(reached, t, m);
    t := GoRollBack(reached, true, t, m, Disk(s), |s.writes|);
  }

  // ----- a client that gives up -----

  ghost predicate ReachedAnyhow(rules: Rules, config: Configuration, s: System) {
    exists trace :: Run(Initial(rules, config), trace) == Some(s)
  }

  lemma AnyhowIsClosed(rules: Rules, config: Configuration)
    ensures Closed(s => ReachedAnyhow(rules, config, s), false)
    ensures ReachedAnyhow(rules, config, Initial(rules, config))
  {
    var reached := s => ReachedAnyhow(rules, config, s);
    assert Run(Initial(rules, config), []) == Some(Initial(rules, config));
    forall s, a: Action | reached(s) && s.writes != [] && Next(s, a).Some? ensures reached(Next(s, a).value) {
      var trace :| Run(Initial(rules, config), trace) == Some(s);
      RunOneMore(Initial(rules, config), trace, s, a);
    }
  }

  /** The daemon holds its pid file, and both mutators have started. */
  lemma GoGuarding(reached: System -> bool, rules: Rules, config: Configuration, a: Command, b: Command)
    returns (s: System)
    requires Closed(reached, false) && reached(Initial(rules, config))
    ensures reached(s)
    ensures s == System(rules, None, [config], config, 0, Live, Guarded, [], [Mutator(a, Fresh), Mutator(b, Fresh)], [])
  {
    s := Go(reached, false, Initial(rules, config), Acquire);
    s := Go(reached, false, s, WritePid);
    s := Go(reached, false, s, Start(a));
    s := Go(reached, false, s, Start(b));
  }

  /** The daemon serves the first mutator's change, and that mutator waits for a handler that has read it. */
  lemma GoWaiting(reached: System -> bool, rules: Rules, config: Configuration, a: Command, b: Command,
                  normal: Configuration) returns (s: System)
    requires Closed(reached, false) && reached(Initial(rules, config)) && rules.Sound()
    requires rules.validated(config) == Some(config) && rules.Effect(a, config) == Some(normal)
    ensures reached(s)
    ensures s == System(rules, Some(0), [config, normal], config, 0, Live, Up(1, Some(Building(0, 1))), [],
                        [Mutator(a, Reloading(config, 1, false, InFlight)), Mutator(b, Fresh)], [])
  {
    EffectCanServe(rules, a, config, normal);
    s := GoGuarding(reached, rules, config, a, b);
    s := GoSave(reached, false, s, 0, config, normal);
    s := Go(reached, false, s, ReadConfig);
    s := Go(reached, false, s, Serve);
    s := GoRequest(reached, false, s, 0);
  }

  lemma GoAbandoned(reached: System -> bool, rules: Rules, config: Configuration, a: Command, b: Command,
                    normal: Configuration, other: Configuration) returns (s: System)
    requires Closed(reached, false) && reached(Initial(rules, config)) && rules.Sound()
    requires rules.validated(config) == Some(config)
    requires rules.Effect(a, config) == Some(normal) && rules.Effect(b, config) == Some(other)
    ensures reached(s) && s.lock.None?
    ensures HasCommitted(s, 1, 3) && s.writes == [config, normal, config, other] && s.daemon == Up(1, None)
  {
    EffectCanServe(rules, a, config, normal);
    EffectCanServe(rules, b, config, other);
    s := GoWaiting(reached, rules, config, a, b, normal);
    s := Go(reached, false, s, GiveUp(0));
    s := GoRollBack(reached, false, s, 0, config, 1);
    s := GoSave(reached, false, s, 1, config, other);
    s := GoCommit(reached, false, s, 1);
    s := Go(reached, false, s, OrphanStore(0));
  }

  /** The first client gives up and rolls back, the second commits, and then the first one's handler stores
      its pool: the second has returned success, and the daemon serves the first one's change. Without the
      assumption that clients wait for their handlers, the handshake is lost. */
  lemma GivingUpBreaksTheHandshake(rules: Rules, config: Configuration, a: Command, b: Command, normal: Configuration,
                                   other: Configuration) returns (s: System)
    requires rules.Sound() && rules.validated(config) == Some(config)
    requires rules.Effect(a, config) == Some(normal) && rules.Effect(b, config) == Some(other) && normal != other
    ensures ReachedAnyhow(rules, config, s) && s.lock.None?
    ensures HasCommitted(s, 1, 3) && s.writes == [config, normal, config, other] && s.daemon == Up(1, None)
    ensures s.writes[s.daemon.version] != s.writes[3]
  {
    AnyhowIsClosed(rules, config);
    s := GoAbandoned(s => ReachedAnyhow(rules, config, s), rules, config, a, b, normal, other);
  }

  // ----- when an abandoned handler does harm -----

  /** The daemon serves something older than a change whose mutator has returned success. */
  predicate Behind(s: System) { s.daemon.Up? && s.daemon.version < s.committed }

  /** The daemon is behind, or is as soon as a mutator takes the reply it already has. */
  ghost predicate FallsBehind(s: System)
    requires s.writes != []
  {
    Behind(s) || exists m :: Next(s, TakeReply(m)).Some? && Behind(Next(s, TakeReply(m)).value)
  }

  lemma FineIsNotBehind(s: System)
    requires Inv(s)
    ensures !FallsBehind(s)
  {
    forall m | Next(s, TakeReply(m)).Some? ensures !Behind(Next(s, TakeReply(m)).value) {
      StepKeeps(s, TakeReply(m));
    }
  }

  lemma LateStoreFallsBehind(s: System, i: nat)
    requires Inv(s) && Next(s, OrphanStore(i)).Some? && !Timely(s, OrphanStore(i))
    ensures Next(s, OrphanStore(i)).value.writes != [] && FallsBehind(Next(s, OrphanStore(i)).value)
  {
    var t := Next(s, OrphanStore(i)).value;
    if !Behind(t) {
      var m := s.lock.value;
      assert Next(t, TakeReply(m)) == Some(Finish(t, m, Committed(t.mutators[m].stage.version)));
      assert Behind(Next(t, TakeReply(m)).value);
    }
  }

  /** The exact condition. The pool of an abandoned handler does no harm if and only if it is not older than what
      was promised when it is stored: the last commit, or the change of a holder whose reload was answered. */
  lemma LateStoresDoHarm(s: System, i: nat)
    requires Inv(s) && Next(s, OrphanStore(i)).Some?
    ensures Next(s, OrphanStore(i)).value.writes != []
    ensures FallsBehind(Next(s, OrphanStore(i)).value) <==> !Timely(s, OrphanStore(i))
  {
    if Timely(s, OrphanStore(i)) {
      StepKeeps(s, OrphanStore(i));
      FineIsNotBehind(Next(s, OrphanStore(i)).value);
    } else {
      LateStoreFallsBehind(s, i);
    }
  }

  function WithRead(s: System, i: nat): System
    requires s.writes != [] && i < |s.orphans|
  {
    s.(orphans := s.orphans[i := Some(Version(s))])
  }

  lemma PromisedIsWritten(s: System)
    requires Inv(s)
    ensures Promised(s) <= Version(s)
  {
  }

  lemma ReadThenStore(s: System, i: nat)
    requires s.writes != [] && s.daemon.Up? && i < |s.orphans| && s.orphans[i].None?
    ensures Next(s, OrphanRead(i)) == Some(WithRead(s, i))
    ensures Servable(s, Version(s)) ==> Next(WithRead(s, i), OrphanStore(i)).Some?
  {
  }

  /** An abandoned handler that has not read yet does no harm: it reads the file of that moment, which is never
      older than what was promised. */
  lemma FreshReadsAreTimely(s: System, i: nat)
    requires Inv(s) && s.daemon.Up? && i < |s.orphans| && s.orphans[i].None?
    ensures Next(s, OrphanRead(i)) == Some(WithRead(s, i)) && Timely(WithRead(s, i), OrphanStore(i))
    ensures Servable(s, Version(s)) ==> Next(WithRead(s, i), OrphanStore(i)).Some?
  {
    ReadThenStore(s, i);
    PromisedIsWritten(s);
  }
}
