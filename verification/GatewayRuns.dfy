/** Every way for a call to end comes about in some run of the engine. */
module GatewayRuns {
  import opened Wrappers
  import SqlGuard
  import opened WorkerPool
  import opened Gateway
  import opened GatewayProperties

  /** A set of states that every step stays in. */
  ghost predicate Closed(reached: State -> bool) {
    forall s, a: Action :: reached(s) && NextState(s, a).Some? ==> reached(NextState(s, a).value)
  }

  lemma {:induction false} ReachableIsClosed()
    ensures Closed(s => Reachable(s)) && Reachable(START)
  {
    var reached := s => Reachable(s);
    assert Execute(START, []) == Some(START);
    forall s, a: Action | reached(s) && NextState(s, a).Some? ensures reached(NextState(s, a).value) {
      var actions :| Execute(START, actions) == Some(s);
      OneMore(actions, s, a);
    }
  }

  lemma {:induction false} OneMore(actions: seq<Action>, s: State, a: Action)
    requires Execute(START, actions) == Some(s) && NextState(s, a).Some?
    ensures Reachable(NextState(s, a).value)
  {
    assert (actions + [a])[..|actions|] == actions;
    assert Execute(START, actions + [a]) == NextState(s, a);
  }

  lemma Go(reached: State -> bool, s: State, a: Action) returns (t: State)
    requires Closed(reached) && reached(s) && NextState(s, a).Some?
    ensures t == NextState(s, a).value && reached(t)
  {
    t := NextState(s, a).value;
  }

  // ----- an engine with one worker -----

  /** A worker that is ready and has this in its slot. */
  function Serving(stage: Stage, slot: Option<Message>): Worker { Worker(stage, slot, Ready(0, {}), false) }

  function OnePool(worker: Worker): Pool { Pool(1, [worker], [0], {}, Open) }

  lemma GoBuilt(reached: State -> bool) returns (s: State)
    requires Closed(reached) && reached(START)
    ensures reached(s) && s == State([Pool(1, [Serving(Idle, None)], [], {}, Collecting(0))], [0], None, [])
  {
    s := Go(reached, START, BeginBuild(1));
    s := Go(reached, s, Inside(0, Spawn, 0));
    s := Go(reached, s, Inside(0, Spawned, 0));
    s := Go(reached, s, Inside(0, BecomeReady(0, {}), 0));
    assert s.pools[0].workers == [Serving(Idle, None)] && s.pools == [s.pools[0]] && s.counters == [0];
  }

  lemma GoOpen(reached: State -> bool) returns (s: State)
    requires Closed(reached) && reached(START)
    ensures reached(s) && s == State([OnePool(Serving(Idle, None))], [0], Some(0), [])
  {
    s := GoBuilt(reached);
    s := Go(reached, s, Inside(0, Collect, 0));
    s := Go(reached, s, Inside(0, Return, 0));
    s := Go(reached, s, Store(0));
    assert s.pools[0].interrupts == [0] && s.pools[0].relations == {} && s.pools == [s.pools[0]];
  }

  // ----- calls -----

  /** A query the guard has nothing against. */
  const QUERY := Request("q", Some([SqlGuard.Statement(SqlGuard.Query, SqlGuard.Other([]))]))

  const BLANK := Request("", None)

  lemma QueryPasses()
    ensures Guard(QUERY, {}).None? && Guard(BLANK, {}) == Some(SqlGuard.Empty)
  {
    assert 'q' in QUERY.sql && !SqlGuard.IsWhitespace('q');
    assert SqlGuard.VisitAll([], {}).None?;
  }

  /** The call once `w` has accepted it. */
  const WAITING := Call(QUERY, 0, Waiting(0), [], Some(0), Pending, [], [], [])

  lemma GoProbing(reached: State -> bool, s: State, q: nat) returns (t: State)
    requires Closed(reached) && reached(s) && s.active == Some(0) && q == |s.calls|
    requires |s.pools| == 1 && |s.counters| == 1 && |s.pools[0].workers| == 1 && s.pools[0].relations == {}
    ensures reached(t)
    ensures t == s.(calls := s.calls + [Call(QUERY, 0, Probing(0, 0), [], None, Pending, [], [], [])],
                    counters := [Bumped(s.counters[0])])
  {
    QueryPasses();
    t := Go(reached, s, Load(QUERY));
    t := Go(reached, t, Check(q));
    t := Go(reached, t, Draw(q));
  }

  lemma GoWaiting(reached: State -> bool) returns (s: State)
    requires Closed(reached) && reached(START)
    ensures reached(s) && s == State([OnePool(Serving(Idle, Some(Query(0))))], [1], Some(0), [WAITING])
  {
    s := GoOpen(reached);
    s := GoProbing(reached, s, 0);
    s := Go(reached, s, Try(0));
    assert s.pools[0].workers == [Serving(Idle, Some(Query(0)))] && s.pools == [s.pools[0]] && s.calls == [WAITING];
  }

  lemma GoRunning(reached: State -> bool) returns (s: State)
    requires Closed(reached) && reached(START)
    ensures reached(s)
    ensures s == State([OnePool(Serving(Busy(0), None))], [1], Some(0), [WAITING.(ran := [(0, 0)])])
  {
    s := GoWaiting(reached);
    s := Go(reached, s, Inside(0, Receive(0), 0));
    assert s.pools[0].workers == [Serving(Busy(0), None)] && s.pools == [s.pools[0]];
    assert s.calls[0].ran == [(0, 0)] && s.calls == [s.calls[0]];
  }

  lemma GoInterrupted(reached: State -> bool, outcome: Outcome) returns (s: State)
    requires Closed(reached) && reached(START) && (outcome == TimedOut || outcome == Cancelled)
    ensures reached(s) && |s.calls| == 1 && s.calls[0].outcomes == [outcome]
  {
    s := GoWaiting(reached);
    s := Go(reached, s, if outcome == TimedOut then Timeout(0) else Cancel(0));
  }

  lemma GoLost(reached: State -> bool) returns (s: State)
    requires Closed(reached) && reached(START)
    ensures reached(s) && |s.calls| == 1 && s.calls[0].outcomes == [WorkerLost]
  {
    s := GoRunning(reached);
    s := Go(reached, s, Inside(0, Crash(0), 0));
    s := Go(reached, s, TakeReply(0));
  }

  lemma GoAnswered(reached: State -> bool, value: int) returns (s: State)
    requires Closed(reached) && reached(START)
    ensures reached(s) && |s.calls| == 1 && s.calls[0].outcomes == [Answered(value)]
  {
    s := GoRunning(reached);
    s := Go(reached, s, Inside(0, Answer(0), value));
    s := Go(reached, s, TakeReply(0));
  }

  lemma GoEnded(reached: State -> bool, outcome: Outcome) returns (s: State)
    requires Closed(reached) && reached(START) && outcome != NoWorker && !outcome.Rejected?
    ensures reached(s) && |s.calls| == 1 && s.calls[0].outcomes == [outcome]
  {
    match outcome
    case Answered(value) => s := GoAnswered(reached, value);
    case WorkerLost => s := GoLost(reached);
    case _ => s := GoInterrupted(reached, outcome);
  }

  /** A second call finds the only slot taken. */
  lemma GoBusy(reached: State -> bool) returns (s: State)
    requires Closed(reached) && reached(START)
    ensures reached(s) && |s.calls| == 2 && s.calls[1].outcomes == [NoWorker]
  {
    s := GoWaiting(reached);
    s := GoProbing(reached, s, 1);
    s := Go(reached, s, Try(1));
    s := Go(reached, s, GiveUp(1));
  }

  lemma GoRejected(reached: State -> bool) returns (s: State)
    requires Closed(reached) && reached(START)
    ensures reached(s) && |s.calls| == 1 && s.calls[0].outcomes == [Rejected(SqlGuard.Empty)]
  {
    QueryPasses();
    s := GoOpen(reached);
    s := Go(reached, s, Load(BLANK));
    s := Go(reached, s, Check(0));
  }

  /** Answers with any value, crashes, timeouts, cancellations, busy workers and rejections: each is the end of some
      call in some reachable state. */
  lemma EveryOutcomeHappens(outcome: Outcome) returns (s: State, q: nat)
    requires outcome.Rejected? ==> outcome.error == SqlGuard.Empty
    ensures Reachable(s) && q < |s.calls| && s.calls[q].outcomes == [outcome]
  {
    var reached := s => Reachable(s);
    ReachableIsClosed();
    if outcome == NoWorker {
      s := GoBusy(reached);
      q := 1;
    } else if outcome.Rejected? {
      s := GoRejected(reached);
      q := 0;
    } else {
      s := GoEnded(reached, outcome);
      q := 0;
    }
  }
}
