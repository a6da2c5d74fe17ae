/** The condition on the outcomes is exact: where it fails, a run ends with a daemon that serves something other
    than the file. */
module TransactionExactness {
  import opened Wrappers
  import opened Commands
  import opened Config
  import opened Transactions
  import opened TransactionInvariant
  import opened TransactionProperties
  import opened TransactionHistory
  import opened TransactionPromise
  import opened TransactionLimits

  // ----- rules under which something can always be done -----

  predicate Changes(rules: Rules, command: Command, c: Configuration) {
    rules.Effect(command, c).Some? && rules.Effect(command, c).value != c
  }

  /** For every configuration that can be served a command that changes it, and for every configuration a command
      that leaves it as it is. */
  datatype Choices = Choices(change: Configuration -> Command, idle: Configuration -> Command) {
    ghost predicate Fit(rules: Rules) {
      && (forall c :: rules.validated(c) == Some(c) && rules.activates(c) ==> Changes(rules, change(c), c))
      && (forall c :: rules.validated(c) == Some(c) ==> rules.mutate(idle(c), c) == Unchanged)
    }
  }

  // ----- runs that end with one more outcome -----

  /** The lock is free, and the daemon serves something or is about to read the file. */
  ghost predicate Standing(rules: Rules, s: System) {
    && s.rules == rules && s.writes != [] && s.lock.None? && s.pidFile == Live
    && (s.daemon == Guarded || (s.daemon.Up? && s.daemon.handler.None? && s.daemon.version < |s.writes|))
    && rules.validated(Disk(s)).Some?
  }

  /** One more holder has ended. */
  predicate OneMore(s: System, t: System, outcome: Outcome) {
    |t.log| == |s.log| + 1 && s.log == t.log[..|s.log|] && Plain(t.log[|s.log|].outcome) == outcome
  }

  /** The state with a new mutator. */
  function Started(s: System, command: Command): System {
    s.(mutators := s.mutators + [Mutator(command, Fresh)])
  }

  lemma GoStart(reached: System -> bool, s: System, command: Command)
    requires Closed(reached, true) && reached(s) && s.writes != []
    ensures reached(Started(s, command))
  {
    var t := Go(reached, true, s, Start(command));
    assert t == Started(s, command);
  }

  lemma GoDenied(reached: System -> bool, s: System, m: nat) returns (t: System)
    requires Closed(reached, true) && reached(s) && s.writes != [] && s.lock.None?
    requires m < |s.mutators| && s.mutators[m].stage == Fresh
    ensures reached(t) && t == Finish(s.(before := Disk(s)), m, Denied)
  {
    t := Go(reached, true, s, Lock(m));
    t := Go(reached, true, t, Load(m, false));
  }

  lemma GoDeadEarly(reached: System -> bool, s: System, m: nat) returns (t: System)
    requires Closed(reached, true) && reached(s) && s.writes != [] && s.lock.None?
    requires m < |s.mutators| && s.mutators[m].stage == Fresh
    ensures reached(t) && t == Finish(s.(before := Disk(s)), m, Died(BeforeSave))
  {
    t := Go(reached, true, s, Lock(m));
    t := Go(reached, true, t, Die(m));
  }

  lemma GoIdle(reached: System -> bool, s: System, m: nat, previous: Configuration) returns (t: System)
    requires Closed(reached, true) && reached(s) && s.writes != [] && s.lock.None?
    requires m < |s.mutators| && s.mutators[m].stage == Fresh
    requires s.rules.validated(Disk(s)) == Some(previous)
    requires s.rules.mutate(s.mutators[m].command, previous) == Unchanged
    ensures reached(t) && t == Finish(s.(before := Disk(s)), m, AlreadySo)
  {
    t := Go(reached, true, s, Lock(m));
    t := Go(reached, true, t, Load(m, true));
    t := Go(reached, true, t, Apply(m, true));
  }

  lemma GoEnd(reached: System -> bool, s: System, m: nat, previous: Configuration, outcome: Outcome) returns (t: System)
    requires Closed(reached, true) && reached(s) && s.writes != [] && s.lock.None?
    requires m < |s.mutators| && s.mutators[m].stage == Fresh && Harmless(outcome)
    requires s.rules.validated(Disk(s)) == Some(previous)
    requires s.rules.mutate(s.mutators[m].command, previous) == Unchanged
    ensures reached(t) && t == Finish(s.(before := Disk(s)), m, outcome)
  {
    if outcome == Denied {
      t := GoDenied(reached, s, m);
    } else if outcome == AlreadySo {
      t := GoIdle(reached, s, m, previous);
    } else {
      t := GoDeadEarly(reached, s, m);
    }
  }

  lemma EndIsOneMore(rules: Rules, s: System, command: Command, outcome: Outcome)
    requires Standing(rules, s) && Harmless(outcome)
    ensures var t := Finish(Started(s, command).(before := Disk(s)), |s.mutators|, outcome);
            Standing(rules, t) && OneMore(s, t, outcome) && t.writes == s.writes && t.daemon == s.daemon
  {
  }

  /** A holder that never writes. */
  lemma GoHarmless(reached: System -> bool, rules: Rules, s: System, idle: Command, previous: Configuration,
                   outcome: Outcome) returns (t: System)
    requires Closed(reached, true) && reached(s) && Standing(rules, s) && Harmless(outcome)
    requires rules.validated(Disk(s)) == Some(previous) && rules.mutate(idle, previous) == Unchanged
    ensures reached(t) && Standing(rules, t) && OneMore(s, t, outcome)
    ensures t.writes == s.writes && t.daemon == s.daemon
  {
    GoStart(reached, s, idle);
    t := GoEnd(reached, Started(s, idle), |s.mutators|, previous, outcome);
    EndIsOneMore(rules, s, idle, outcome);
  }

  /** A daemon comes up to where it reads the file. */
  lemma GoUp(reached: System -> bool, s: System) returns (t: System)
    requires Closed(reached, true) && reached(s) && s.writes != [] && s.daemon == Down
    ensures reached(t) && t == s.(daemon := Guarded, pidFile := Live)
  {
    t := Go(reached, true, s, Acquire);
    t := Go(reached, true, t, WritePid);
  }

  lemma GoKilled(reached: System -> bool, rules: Rules, s: System) returns (t: System)
    requires Closed(reached, true) && reached(s) && Standing(rules, s)
    ensures reached(t) && t == s.(daemon := Down, pidFile := Stale, orphans := [])
  {
    t := Go(reached, true, s, Kill);
  }

  /** The daemon is killed, and a new one writes its pid. */
  lemma GoGuarded(reached: System -> bool, rules: Rules, s: System) returns (t: System)
    requires Closed(reached, true) && reached(s) && Standing(rules, s)
    ensures reached(t) && t == s.(daemon := Guarded, pidFile := Live, orphans := [])
  {
    t := GoKilled(reached, rules, s);
    t := GoUp(reached, t);
  }

  lemma GoRestarted(reached: System -> bool, rules: Rules, s: System) returns (t: System)
    requires Closed(reached, true) && reached(s) && Standing(rules, s) && rules.CanServe(Disk(s))
    ensures reached(t) && t == s.(daemon := Up(Version(s), None), pidFile := Live, orphans := [])
  {
    t := GoGuarded(reached, rules, s);
    t := Go(reached, true, t, ReadConfig);
    t := Go(reached, true, t, Serve);
  }

  /** The state once a new mutator has saved. */
  function ChangedState(s: System, command: Command, previous: Configuration, normal: Configuration): System
    requires s.writes != []
  {
    s.(mutators := s.mutators + [Mutator(command, Saved(previous, |s.writes|))], lock := Some(|s.mutators|),
       before := Disk(s), writes := s.writes + [normal])
  }

  lemma GoChanged(reached: System -> bool, s: System, command: Command, previous: Configuration,
                  normal: Configuration)
    requires Closed(reached, true) && reached(s) && s.writes != [] && s.lock.None?
    requires s.rules.validated(Disk(s)) == Some(previous) && s.rules.Effect(command, previous) == Some(normal)
    ensures reached(ChangedState(s, command, previous, normal))
  {
    GoStart(reached, s, command);
    var t := GoSave(reached, true, Started(s, command), |s.mutators|, previous, normal);
    assert t == ChangedState(s, command, previous, normal);
  }

  /** A command whose effect differs from the file and from its normal form. */
  ghost predicate Picked(rules: Rules, disk: Configuration, command: Command, previous: Configuration,
                         normal: Configuration) {
    && rules.validated(disk) == Some(previous) && rules.validated(previous) == Some(previous)
    && rules.Effect(command, previous) == Some(normal) && rules.validated(normal) == Some(normal)
    && rules.activates(normal) && normal != previous && normal != disk
  }

  /** The file can be served, or it reads as `n`, which cannot, and `fix` makes something of that. */
  predicate Workable(rules: Rules, n: Configuration, fix: Command, disk: Configuration) {
    rules.CanServe(disk) ||
    (rules.validated(disk) == Some(n) && rules.validated(n) == Some(n) && rules.Effect(fix, n).Some?)
  }

  lemma PickChange(rules: Rules, choices: Choices, n: Configuration, fix: Command, disk: Configuration)
    returns (command: Command, previous: Configuration, normal: Configuration)
    requires rules.Sound() && choices.Fit(rules) && Workable(rules, n, fix, disk)
    ensures Picked(rules, disk, command, previous, normal)
    ensures !rules.CanServe(disk) ==> rules.Effect(fix, n) == Some(normal)
  {
    previous := rules.validated(disk).value;
    command := if rules.CanServe(disk) then choices.change(previous) else fix;
    assert rules.CanServe(disk) ==> Changes(rules, command, previous);
    normal := rules.Effect(command, previous).value;
  }

  lemma CommitIsOneMore(rules: Rules, s: System, command: Command, previous: Configuration, normal: Configuration)
    requires s.rules == rules && s.writes != [] && rules.validated(normal).Some?
    ensures var saved := ChangedState(s, command, previous, normal);
            var t := Finish(saved, |s.mutators|, Committed(|s.writes|)).(daemon := Guarded, pidFile := Live);
            Standing(rules, t) && OneMore(s, t, Committed(0)) && Disk(t) == normal
  {
  }

  lemma GoAlone(reached: System -> bool, s: System, m: nat) returns (t: System)
    requires Closed(reached, true) && reached(s) && s.writes != [] && s.daemon == Down && s.pidFile == Stale
    requires m < |s.mutators| && s.mutators[m].stage.Saved?
    ensures reached(t)
    ensures t == Finish(s, m, Committed(s.mutators[m].stage.version)).(daemon := Guarded, pidFile := Live)
  {
    t := Go(reached, true, s, CheckPid(m, NoDaemon));
    t := GoUp(reached, t);
  }

  /** A holder that commits while no daemon runs. */
  lemma GoCommitted(reached: System -> bool, rules: Rules, s: System, command: Command, previous: Configuration,
                    normal: Configuration) returns (t: System)
    requires Closed(reached, true) && reached(s) && Standing(rules, s)
    requires Picked(rules, Disk(s), command, previous, normal)
    ensures reached(t) && Standing(rules, t) && OneMore(s, t, Committed(0)) && Disk(t) == normal
  {
    var killed := GoKilled(reached, rules, s);
    GoChanged(reached, killed, command, previous, normal);
    t := GoAlone(reached, ChangedState(killed, command, previous, normal), |s.mutators|);
    CommitIsOneMore(rules, killed, command, previous, normal);
  }

  lemma GoLeft(reached: System -> bool, s: System, m: nat, outcome: Outcome) returns (t: System)
    requires Closed(reached, true) && reached(s) && s.writes != [] && s.pidFile == Live
    requires m < |s.mutators| && s.mutators[m].stage.Saved? && LeavesBehind(outcome)
    requires s.rules.validated(s.mutators[m].stage.previous).Some?
    ensures reached(t) && t == Finish(s, m, outcome)
  {
    if outcome == PidUnknown {
      t := Go(reached, true, s, CheckPid(m, Unreadable));
    } else if outcome == Died(AfterSave) {
      t := Go(reached, true, s, Die(m));
    } else {
      t := GoNotRolledBack(reached, s, m);
    }
  }

  lemma LeftBehind(rules: Rules, s: System, command: Command, previous: Configuration, normal: Configuration,
                   outcome: Outcome)
    requires Standing(rules, s) && LeavesBehind(outcome) && rules.validated(normal).Some?
    ensures var t := Finish(ChangedState(s, command, previous, normal), |s.mutators|, outcome);
            && Standing(rules, t) && OneMore(s, t, outcome) && Disk(t) == normal
            && t.daemon == s.daemon && s.writes <= t.writes
  {
  }

  /** A holder whose change stays on disk while the daemon goes on with what it has. */
  lemma GoLeftBehind(reached: System -> bool, rules: Rules, s: System, command: Command, previous: Configuration,
                     normal: Configuration, outcome: Outcome) returns (t: System)
    requires Closed(reached, true) && reached(s) && Standing(rules, s)
    requires Picked(rules, Disk(s), command, previous, normal) && LeavesBehind(outcome)
    ensures reached(t) && Standing(rules, t) && OneMore(s, t, outcome) && Disk(t) == normal
    ensures t.daemon == s.daemon && s.writes <= t.writes
  {
    GoChanged(reached, s, command, previous, normal);
    t := GoLeft(reached, ChangedState(s, command, previous, normal), |s.mutators|, outcome);
    LeftBehind(rules, s, command, previous, normal, outcome);
  }

  /** The same after a restart: the daemon goes on serving the configuration from before the change. */
  lemma GoLeftStale(reached: System -> bool, rules: Rules, s: System, command: Command, previous: Configuration,
                    normal: Configuration, outcome: Outcome) returns (t: System)
    requires Closed(reached, true) && reached(s) && Standing(rules, s) && rules.CanServe(Disk(s))
    requires Picked(rules, Disk(s), command, previous, normal) && LeavesBehind(outcome)
    ensures reached(t) && Standing(rules, t) && OneMore(s, t, outcome) && Disk(t) == normal && !ServesDisk(t)
  {
    t := GoRestarted(reached, rules, s);
    var restarted := t;
    t := GoLeftBehind(reached, rules, restarted, command, previous, normal, outcome);
    assert t.writes[t.daemon.version] == Disk(s);
  }

  lemma GoNotRolledBack(reached: System -> bool, s: System, m: nat) returns (t: System)
    requires Closed(reached, true) && reached(s) && s.writes != []
    requires m < |s.mutators| && s.mutators[m].stage.Saved? && s.pidFile == Live
    requires s.rules.validated(s.mutators[m].stage.previous).Some?
    ensures reached(t) && t == Finish(s, m, NotRolledBack)
  {
    t := Go(reached, true, s, CheckPid(m, SomeDaemon));
    t := Go(reached, true, t, Send(m, false));
    t := Go(reached, true, t, TakeReply(m));
    t := Go(reached, true, t, Rollback(m, false));
  }

  /** The daemon reads the file between the save and the rollback. */
  lemma GoReadTooEarly(reached: System -> bool, s: System, m: nat) returns (t: System)
    requires Closed(reached, true) && reached(s) && s.writes != []
    requires m < |s.mutators| && s.mutators[m].stage.Saved? && s.pidFile == Live && s.daemon == Guarded
    ensures reached(t)
    ensures var stage := s.mutators[m].stage;
            t == At(s, m, Reloading(stage.previous, stage.version, false, Replied(false)))
                   .(daemon := Loading(Version(s)))
  {
    t := Go(reached, true, s, CheckPid(m, SomeDaemon));
    t := Go(reached, true, t, ReadConfig);
    t := Go(reached, true, t, Send(m, false));
  }

  lemma GoDiedRollingBack(reached: System -> bool, s: System, m: nat, previous: Configuration, version: nat)
    returns (t: System)
    requires Closed(reached, true) && reached(s) && s.writes != []
    requires m < |s.mutators| && s.mutators[m].stage == Reloading(previous, version, false, Replied(false))
    requires s.rules.validated(previous) == Some(previous)
    ensures reached(t) && t == Finish(s.(writes := s.writes + [previous]), m, Died(AfterRollback))
  {
    t := GoRestore(reached, true, s, m, previous, version);
    t := Go(reached, true, t, Die(m));
  }

  /** A starting daemon that has read the change which its holder has taken back. */
  lemma GoTakenBackEarly(reached: System -> bool, s: System, m: nat, previous: Configuration, outcome: Outcome)
    returns (t: System)
    requires Closed(reached, true) && reached(s) && s.writes != []
    requires m < |s.mutators| && s.mutators[m].stage == Saved(previous, Version(s)) && s.pidFile == Live
    requires s.daemon == Guarded && s.rules.validated(previous) == Some(previous)
    requires TakesBack(outcome) && s.rules.CanServe(Disk(s))
    ensures reached(t)
    ensures t == Finish(s.(writes := s.writes + [previous]), m, outcome).(daemon := Up(Version(s), None))
  {
    t := GoReadTooEarly(reached, s, m);
    if outcome == RolledBack {
      t := GoRollBack(reached, true, t, m, previous, Version(s));
    } else {
      t := GoDiedRollingBack(reached, t, m, previous, Version(s));
    }
    t := Go(reached, true, t, Serve);
  }

  lemma TakenBack(rules: Rules, s: System, command: Command, previous: Configuration, normal: Configuration,
                  outcome: Outcome)
    requires Standing(rules, s) && s.daemon == Guarded && normal != previous
    requires rules.validated(previous).Some? && TakesBack(outcome)
    ensures var saved := ChangedState(s, command, previous, normal);
            var t := Finish(saved.(writes := saved.writes + [previous]), |s.mutators|, outcome)
                     .(daemon := Up(Version(saved), None));
            && Standing(rules, t) && OneMore(s, t, outcome) && Disk(t) == previous
            && t.daemon.Up? && t.writes[t.daemon.version] == normal && !ServesDisk(t)
  {
  }

  /** A holder whose change is taken back while a starting daemon serves it. */
  lemma GoTakenBack(reached: System -> bool, rules: Rules, s: System, command: Command, previous: Configuration,
                     normal: Configuration, outcome: Outcome) returns (t: System)
    requires Closed(reached, true) && reached(s) && Standing(rules, s)
    requires Picked(rules, Disk(s), command, previous, normal) && TakesBack(outcome)
    ensures reached(t) && Standing(rules, t) && OneMore(s, t, outcome) && Disk(t) == previous
    ensures t.daemon.Up? && t.writes[t.daemon.version] == normal && !ServesDisk(t)
  {
    var guarded := GoGuarded(reached, rules, s);
    GoChanged(reached, guarded, command, previous, normal);
    t := GoTakenBackEarly(reached, ChangedState(guarded, command, previous, normal), |s.mutators|, previous, outcome);
    TakenBack(rules, guarded, command, previous, normal, outcome);
  }

  // ----- every sequence of outcomes -----

  /** Two commands that fix the first configuration: one for changes that are taken back, one for the first change
      that stays. */
  datatype Fixes = Fixes(back: Command, kept: Command)

  predicate Mends(rules: Rules, n: Configuration, fixes: Fixes) {
    rules.Effect(fixes.back, n).Some? && rules.Effect(fixes.kept, n).Some?
  }

  /** The command for a holder with this outcome, where the file cannot be served. */
  function FixFor(fixes: Fixes, outcome: Outcome): Command { if TakesBack(outcome) then fixes.back else fixes.kept }

  /** What one more holder can do to the file and to the daemon. */
  ghost predicate Led(rules: Rules, n: Configuration, fixes: Fixes, s: System, t: System, outcome: Outcome)
    requires s.writes != [] && t.writes != []
  {
    if Harmless(outcome) then t.writes == s.writes && t.daemon == s.daemon
    else if TakesBack(outcome) then
      && rules.validated(Disk(t)) == rules.validated(Disk(s)) && !ServesDisk(t)
      && (!rules.CanServe(Disk(s)) ==>
            && t.daemon.Up? && t.daemon.version < |t.writes|
            && rules.Effect(fixes.back, n) == Some(t.writes[t.daemon.version]))
    else
      && rules.CanServe(Disk(t))
      && (LeavesBehind(outcome) ==>
            if rules.CanServe(Disk(s)) then !ServesDisk(t)
            else rules.Effect(fixes.kept, n) == Some(Disk(t)) && t.daemon == s.daemon && s.writes <= t.writes)
  }

  lemma GoOutcome(reached: System -> bool, rules: Rules, choices: Choices, n: Configuration, fixes: Fixes, s: System,
                  outcome: Outcome) returns (t: System)
    requires Closed(reached, true) && reached(s) && Standing(rules, s) && rules.Sound() && choices.Fit(rules)
    requires Plain(outcome) == outcome && Workable(rules, n, FixFor(fixes, outcome), Disk(s))
    ensures reached(t) && Standing(rules, t) && OneMore(s, t, outcome) && Led(rules, n, fixes, s, t, outcome)
  {
    var command, previous, normal := PickChange(rules, choices, n, FixFor(fixes, outcome), Disk(s));
    if Harmless(outcome) {
      t := GoHarmless(reached, rules, s, choices.idle(previous), previous, outcome);
    } else if outcome.Committed? {
      t := GoCommitted(reached, rules, s, command, previous, normal);
    } else if TakesBack(outcome) {
      t := GoTakenBack(reached, rules, s, command, previous, normal, outcome);
    } else {
      assert outcome.Died? ==> outcome.when == AfterSave;
      if rules.CanServe(Disk(s)) {
        t := GoLeftStale(reached, rules, s, command, previous, normal, outcome);
      } else {
        t := GoLeftBehind(reached, rules, s, command, previous, normal, outcome);
      }
    }
  }

  lemma OutcomesOneMore(s: System, t: System, outcome: Outcome)
    requires OneMore(s, t, outcome)
    ensures OutcomesOf(t.log) == OutcomesOf(s.log) + [outcome]
  {
  }

  lemma GoFirst(reached: System -> bool, rules: Rules, config: Configuration) returns (s: System)
    requires Closed(reached, true) && reached(Initial(rules, config)) && rules.validated(config).Some?
    ensures reached(s) && Standing(rules, s) && s.log == [] && s.writes == [config]
  {
    s := GoUp(reached, Initial(rules, config));
  }

  /** Why the promise can be broken after these outcomes. `two`: the fixes differ. */
  ghost predicate CanBreak(rules: Rules, n: Configuration, two: bool, outcomes: seq<Outcome>) {
    var w := Writers(outcomes);
    && w != [] && !w[|w| - 1].Committed?
    && (rules.activates(n) || !LeftAfterRestores(outcomes) || (|w| > 1 && two))
  }

  /** The state in which the run stands after these outcomes. */
  ghost predicate Arrived(rules: Rules, n: Configuration, fixes: Fixes, outcomes: seq<Outcome>, s: System)
    requires s.writes != []
  {
    && (if Restored(outcomes) then rules.validated(Disk(s)) == Some(n) else rules.CanServe(Disk(s)))
    && (Restored(outcomes) && Writers(outcomes) != [] && !rules.activates(n) ==>
          && s.daemon.Up? && s.daemon.version < |s.writes|
          && rules.Effect(fixes.back, n) == Some(s.writes[s.daemon.version]))
    && (CanBreak(rules, n, rules.Effect(fixes.back, n) != rules.Effect(fixes.kept, n), outcomes) ==> !ServesDisk(s))
  }

  lemma ArrivesHarmlessly(rules: Rules, n: Configuration, fixes: Fixes, init: seq<Outcome>, outcome: Outcome,
                          s: System, t: System)
    requires s.writes != [] && t.writes == s.writes && t.daemon == s.daemon && Harmless(outcome)
    requires Arrived(rules, n, fixes, init, s)
    ensures Arrived(rules, n, fixes, init + [outcome], t)
  {
    WritersSnoc(init, outcome);
    assert Writers(init + [outcome]) == Writers(init);
  }

  /** How one more writer changes what the outcomes say. */
  lemma {:induction false} OneMoreWriter(init: seq<Outcome>, outcome: Outcome)
    requires !Harmless(outcome)
    ensures Writers(init + [outcome]) == Writers(init) + [outcome]
    ensures Restored(init + [outcome]) <==> Restored(init) && TakesBack(outcome)
    ensures LeftAfterRestores(init + [outcome]) <==> Restored(init) && LeavesBehind(outcome)
  {
    WritersSnoc(init, outcome);
    var (v, w) := (Writers(init), Writers(init + [outcome]));
    assert w[|v|] == outcome && forall i :: 0 <= i < |v| ==> v[i] == w[i];
  }

  lemma ArrivesNext(rules: Rules, n: Configuration, fixes: Fixes, init: seq<Outcome>, outcome: Outcome, s: System,
                    t: System)
    requires s.writes != [] && t.writes != [] && rules.validated(n) == Some(n)
    requires Arrived(rules, n, fixes, init, s) && Led(rules, n, fixes, s, t, outcome)
    ensures Arrived(rules, n, fixes, init + [outcome], t)
  {
    if Harmless(outcome) {
      ArrivesHarmlessly(rules, n, fixes, init, outcome, s, t);
    } else {
      OneMoreWriter(init, outcome);
      if TakesBack(outcome) {
        assert Restored(init) && !rules.activates(n) ==> !rules.CanServe(Disk(s));
      } else if LeavesBehind(outcome) && !rules.CanServe(Disk(s)) {
        assert Restored(init) && !rules.activates(n);
        if Writers(init) != [] {
          assert t.writes[s.daemon.version] == s.writes[s.daemon.version];
        }
      } else {
        assert outcome.Died? ==> outcome.when == AfterSave;
      }
    }
  }

  /** Any outcomes can come about in any order. */
  lemma {:induction false} GoOutcomes(reached: System -> bool, rules: Rules, choices: Choices, config: Configuration,
                                      n: Configuration, fixes: Fixes, outcomes: seq<Outcome>) returns (s: System)
    requires Closed(reached, true) && reached(Initial(rules, config)) && rules.validated(config) == Some(n)
    requires rules.Sound() && choices.Fit(rules) && AllPlain(outcomes)
    requires rules.activates(n) || Mends(rules, n, fixes)
    ensures reached(s) && Standing(rules, s) && OutcomesOf(s.log) == outcomes && Arrived(rules, n, fixes, outcomes, s)
  {
    if outcomes == [] {
      s := GoFirst(reached, rules, config);
    } else {
      var (init, last) := (outcomes[..|outcomes| - 1], outcomes[|outcomes| - 1]);
      var before := GoOutcomes(reached, rules, choices, config, n, fixes, init);
      s := GoOutcome(reached, rules, choices, n, fixes, before, last);
      OutcomesOneMore(before, s, last);
      ArrivesNext(rules, n, fixes, init, last, before, s);
      assert outcomes == init + [last];
    }
  }

  /** The commands that break the promise, if it can be broken. */
  lemma PickFixes(rules: Rules, n: Configuration, outcomes: seq<Outcome>) returns (fixes: Fixes)
    requires !KeepsPromise(rules, n, outcomes)
    ensures rules.activates(n) || Mends(rules, n, fixes)
    ensures CanBreak(rules, n, rules.Effect(fixes.back, n) != rules.Effect(fixes.kept, n), outcomes)
  {
    if rules.activates(n) {
      fixes := Fixes(RemoveAll, RemoveAll);
    } else if FixableTwoWays(rules, n) {
      var k, l :| rules.Effect(k, n).Some? && rules.Effect(l, n).Some? && rules.Effect(k, n) != rules.Effect(l, n);
      fixes := Fixes(k, l);
    } else {
      var k :| rules.Effect(k, n).Some?;
      fixes := Fixes(k, k);
    }
  }

  lemma PromiseCanBeBroken(rules: Rules, choices: Choices, config: Configuration, n: Configuration,
                           outcomes: seq<Outcome>) returns (s: System)
    requires rules.Sound() && choices.Fit(rules) && rules.validated(config) == Some(n) && AllPlain(outcomes)
    requires !KeepsPromise(rules, n, outcomes)
    ensures Reachable(rules, config, s) && s.lock.None? && OutcomesOf(s.log) == outcomes
    ensures s.writes != [] && !ServesDisk(s)
  {
    var fixes := PickFixes(rules, n, outcomes);
    ReachableIsClosed(rules, config);
    InitialIsReachable(rules, config);
    s := GoOutcomes(s => Reachable(rules, config, s), rules, choices, config, n, fixes, outcomes);
  }

  /** The exact condition. What the mutators have returned promises that a daemon that is up serves the file,
      whenever the lock is free, if and only if the last of them that wrote the file has committed, or the first
      configuration could not be served and the outcomes are among the few that keep the promise by that. */
  lemma OutcomesDecide(rules: Rules, choices: Choices, config: Configuration, outcomes: seq<Outcome>)
    requires rules.Sound() && choices.Fit(rules) && rules.validated(config).Some? && AllPlain(outcomes)
    ensures PromisesDisk(rules, config, outcomes) <==> KeepsPromise(rules, rules.validated(config).value, outcomes)
  {
    var n := rules.validated(config).value;
    if KeepsPromise(rules, n, outcomes) {
      forall s | Reachable(rules, config, s) && s.lock.None? && OutcomesOf(s.log) == outcomes
        ensures s.writes != [] && ServesDisk(s)
      {
        PromiseIsKept(rules, config, n, s);
      }
    } else {
      var s := PromiseCanBeBroken(rules, choices, config, n, outcomes);
    }
  }

  // ----- a process that found no file -----

  /** A process that found no configuration file before the first one was written writes the default, the first
      content, over whatever is there by then. It takes no lock. */
  function Reset(s: System): System
    requires s.writes != []
  {
    s.(writes := s.writes + [s.writes[0]])
  }

  /** It loses updates exactly if the kept commands have made anything of the default. */
  lemma {:induction false} ResetLosesUpdates(rules: Rules, config: Configuration, s: System)
    requires Reachable(rules, config, s) && s.lock.None? && rules.validated(config) == Some(config)
    ensures s.writes != [] && Disk(Reset(s)) == config
    ensures rules.validated(Disk(Reset(s))) == Some(Replay(rules, s.log, config)) <==> Disk(s) == config
  {
    ReachableIsFine(rules, config, s);
    Serializable(rules, config, s);
    SerializableContents(rules, config, s);
  }

  /** And they can have: after a commit, which is then lost. */
  lemma CommittedCanBeReset(rules: Rules, choices: Choices, config: Configuration) returns (s: System)
    requires rules.Sound() && choices.Fit(rules) && rules.validated(config) == Some(config) && rules.activates(config)
    ensures Reachable(rules, config, s) && s.lock.None? && OutcomesOf(s.log) == [Committed(0)]
    ensures s.writes != [] && rules.validated(Disk(Reset(s))) != Some(Replay(rules, s.log, config))
  {
    var reached := s => Reachable(rules, config, s);
    ReachableIsClosed(rules, config);
    InitialIsReachable(rules, config);
    var first := GoFirst(reached, rules, config);
    var command, previous, normal := PickChange(rules, choices, config, RemoveAll, config);
    s := GoCommitted(reached, rules, first, command, previous, normal);
    OutcomesOneMore(first, s, Committed(0));
    ResetLosesUpdates(rules, config, s);
  }
}
