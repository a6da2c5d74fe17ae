/** A way out: whatever has gone wrong, restarting the daemon brings it back to the configuration file. */
module TransactionRecovery {
  import opened Wrappers
  import opened Config
  import opened Transactions
  import opened TransactionProperties
  import opened TransactionHistory
  import opened TransactionLimits

  /** What mutators have done, and whose turn it is. */
  ghost predicate SameRecord(s: System, t: System) {
    && t.writes == s.writes && t.log == s.log && t.lock == s.lock && t.before == s.before && t.committed == s.committed
    && t.rules == s.rules
  }

  lemma Onward(s: System, actions: seq<Action>, t: System, a: Action) returns (more: seq<Action>, u: System)
    requires s.writes != [] && t.writes != [] && Run(s, actions) == Some(t) && Next(t, a).Some?
    ensures u == Next(t, a).value && more == actions + [a] && Run(s, more) == Some(u)
  {
    more, u := actions + [a], Next(t, a).value;
    RunOneMore(s, actions, t, a);
  }

  function EndingOf(daemon: Daemon, killed: bool): seq<Action> {
    if daemon == Down then []
    else if killed then [Kill]
    else if daemon == Acquiring then [AcquireFail]
    else if !daemon.Up? then [StartFail]
    else if daemon.handler.Some? then [HandlerFail, Stop] else [Stop]
  }

  lemma LastStepEnds(s: System, a: Action)
    requires s.writes != [] && s.daemon != Down && EndingOf(s.daemon, a.Kill?) == [a]
    ensures Next(s, a).Some? && Next(s, a).value.daemon == Down && SameRecord(s, Next(s, a).value)
  {
  }

  lemma HandlerGoesFirst(s: System)
    requires s.writes != [] && s.daemon.Up? && s.daemon.handler.Some?
    ensures Next(s, HandlerFail).Some? && SameRecord(s, Next(s, HandlerFail).value)
    ensures Next(s, HandlerFail).value.daemon == Up(s.daemon.version, None)
  {
  }

  /** The daemon ends: it is killed, or fails to start, or finishes its handler and stops. */
  lemma EndDaemon(s: System, killed: bool) returns (t: System)
    requires s.writes != []
    ensures Run(s, EndingOf(s.daemon, killed)) == Some(t) && t.daemon == Down && SameRecord(s, t)
  {
    var actions := [];
    t := s;
    if s.daemon != Down {
      if s.daemon.Up? && s.daemon.handler.Some? && !killed {
        HandlerGoesFirst(s);
        actions, t := Onward(s, actions, t, HandlerFail);
      }
      LastStepEnds(t, EndingOf(t.daemon, killed)[0]);
      actions, t := Onward(s, actions, t, EndingOf(t.daemon, killed)[0]);
    }
  }

  /** A daemon that takes the pid file, and then one that has read the configuration. */
  lemma StartSteps(s: System)
    requires s.writes != [] && s.daemon == Down && Servable(s, Version(s))
    ensures Next(s, Acquire) == Some(s.(daemon := Acquiring, pidFile := Blank))
    ensures Next(s.(daemon := Acquiring, pidFile := Blank), WritePid) == Some(s.(daemon := Guarded, pidFile := Live))
    ensures Next(s.(daemon := Guarded, pidFile := Live), ReadConfig)
         == Some(s.(daemon := Loading(Version(s)), pidFile := Live))
    ensures Next(s.(daemon := Loading(Version(s)), pidFile := Live), Serve)
         == Some(s.(daemon := Up(Version(s), None), pidFile := Live))
  {
  }

  const STARTING := [Acquire, WritePid, ReadConfig, Serve]

  lemma {:induction false} StartDaemon(s: System, actions: seq<Action>, t: System)
    requires s.writes != [] && t.writes != [] && Run(s, actions) == Some(t)
    requires t.daemon == Down && Servable(t, Version(t))
    ensures Run(s, actions + STARTING) == Some(t.(daemon := Up(Version(t), None), pidFile := Live))
  {
    StartSteps(t);
    var more, u := Onward(s, actions, t, Acquire);
    more, u := Onward(s, more, u, WritePid);
    more, u := Onward(s, more, u, ReadConfig);
    more, u := Onward(s, more, u, Serve);
    assert more == actions + STARTING;
  }

  /** The daemon ends and a new one starts, and the new one serves what is on disk. */
  ghost predicate Restarted(s: System, killed: bool, t: System)
    requires s.writes != []
  {
    && Run(s, EndingOf(s.daemon, killed) + STARTING) == Some(t)
    && t.daemon == Up(Version(s), None) && t.pidFile == Live && SameRecord(s, t)
  }

  /** From every state, reachable or not, a restart on its own ends with the file on disk being served, as long as
      a pool can be built from it, whether the old daemon is asked to stop or killed. Nothing that mutators have
      done is lost, and a lock that is held stays with its holder. */
  lemma RestartServesFile(s: System, killed: bool) returns (t: System)
    requires s.writes != [] && Servable(s, Version(s))
    ensures Restarted(s, killed, t)
  {
    t := EndDaemon(s, killed);
    StartDaemon(s, EndingOf(s.daemon, killed), t);
    t := t.(daemon := Up(Version(t), None), pidFile := Live);
  }

  lemma FileCanBeServed(rules: Rules, config: Configuration, s: System)
    requires Reachable(rules, config, s) && rules.CanServe(config)
    ensures s.writes != [] && Servable(s, Version(s))
  {
    ReachableIsFine(rules, config, s);
    if Version(s) > 0 { SavedVersionsActivate(rules, config, s, Version(s)); }
  }

  /** Once the first configuration can be served, a restart always helps: wherever mutators and daemons stand,
      and whatever has failed, the daemon serves the file afterwards. */
  lemma RestartAlwaysHelps(rules: Rules, config: Configuration, s: System, killed: bool) returns (t: System)
    requires Reachable(rules, config, s) && rules.CanServe(config)
    ensures s.writes != [] && Restarted(s, killed, t)
  {
    FileCanBeServed(rules, config, s);
    t := RestartServesFile(s, killed);
  }
}
