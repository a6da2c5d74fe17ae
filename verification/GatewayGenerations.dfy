/** Which generation a call gets, by which step it ends, and which steps are possible. */
module GatewayGenerations {
  import opened Wrappers
  import opened WorkerPool
  import opened Gateway
  import opened GatewayInvariant
  import opened GatewayProperties

  // ----- which generation a call loads -----

  /** A call exists once some step has loaded it. */
  lemma NewCallWasLoaded(s: State, a: Action)
    requires NextState(s, a).Some? && |s.calls| < |NextState(s, a).value.calls|
    ensures a.Load? && s.active.Some?
    ensures var t := NextState(s, a).value;
            && |t.calls| == |s.calls| + 1
            && t.calls[|s.calls|].pool == s.active.value && t.calls[|s.calls|].request == a.request
  {
  }

  /** Every call loads the generation that is active at that moment, with the request it was made with: the
      step that adds it is found in the run. */
  lemma {:induction false} CallsLoadTheActive(s: State, actions: seq<Action>, q: nat) returns (k: nat)
    requires SafeState(s) && Execute(s, actions).Some? && |s.calls| <= q < |Execute(s, actions).value.calls|
    ensures k < |actions| && Execute(s, actions[..k]).Some?
    ensures var (t, c) := (Execute(s, actions[..k]).value, Execute(s, actions).value.calls[q]);
            |t.calls| == q && t.active == Some(c.pool) && actions[k] == Load(c.request)
  {
    if actions == [] {
      assert false;
    } else {
      var (init, last) := (actions[..|actions| - 1], actions[|actions| - 1]);
      var t := Execute(s, init).value;
      ExecuteKeeps(s, init);
      if q < |t.calls| {
        k := CallsLoadTheActive(s, init, q);
        assert init[..k] == actions[..k];
        StepExtends(t, last, q);
      } else {
        NewCallWasLoaded(t, last);
        k := |actions| - 1;
      }
    }
  }

  lemma {:induction false} ActiveWasStored(s: State, actions: seq<Action>, g: nat)
    requires Execute(s, actions).Some? && s.active != Some(g) && Store(g) !in actions
    ensures Execute(s, actions).value.active != Some(g)
  {
    if actions != [] {
      var (init, last) := (actions[..|actions| - 1], actions[|actions| - 1]);
      assert last in actions;
      ActiveWasStored(s, init, g);
      StoreMakesActive(Execute(s, init).value, last, g);
    }
  }

  lemma StoreMakesActive(s: State, a: Action, g: nat)
    requires NextState(s, a).Some? && s.active != Some(g) && a != Store(g)
    ensures NextState(s, a).value.active != Some(g)
  {
  }

  /** A generation that is not active, and is not stored again, never gets another call. */
  lemma {:induction false} ReplacedGetsNoCallers(s: State, actions: seq<Action>, g: nat, q: nat)
    requires SafeState(s) && Execute(s, actions).Some? && s.active != Some(g) && Store(g) !in actions
    requires |s.calls| <= q < |Execute(s, actions).value.calls|
    ensures Execute(s, actions).value.calls[q].pool != g
  {
    var k := CallsLoadTheActive(s, actions, q);
    assert forall a :: a in actions[..k] ==> a in actions;
    ActiveWasStored(s, actions[..k], g);
  }

  /** As long as nothing is stored or shut down, every new call gets the active generation. */
  lemma {:induction false} NewCallsGetTheActive(s: State, actions: seq<Action>, q: nat)
    requires SafeState(s) && Execute(s, actions).Some?
    requires forall a :: a in actions ==> !a.Store? && !a.Shutdown?
    requires |s.calls| <= q < |Execute(s, actions).value.calls|
    ensures s.active == Some(Execute(s, actions).value.calls[q].pool)
  {
    var k := CallsLoadTheActive(s, actions, q);
    assert forall a :: a in actions[..k] ==> a in actions;
    OnlyStoreReplaces(s, actions[..k]);
  }

  // ----- by which step a call ends -----

  /** The only step that ends call `q` like this. */
  function EndedBy(outcome: Outcome, q: nat): Action {
    match outcome
    case Rejected(_) => Check(q)
    case NoWorker => GiveUp(q)
    case Answered(_) => TakeReply(q)
    case WorkerLost => TakeReply(q)
    case TimedOut => Timeout(q)
    case Cancelled => Cancel(q)
  }

  predicate HasEnded(s: State, q: nat, outcome: Outcome) { q < |s.calls| && outcome in s.calls[q].outcomes }

  lemma CallStepEnds(s: State, a: Action, q: nat, outcome: Outcome)
    requires IsCallStep(a) && a.q < |s.calls| && s.calls[a.q].pool < |s.pools| && s.calls[a.q].pool < |s.counters|
    requires NextCall(s, a, s.calls[a.q], s.calls[a.q].pool).Some?
    requires HasEnded(NextCall(s, a, s.calls[a.q], s.calls[a.q].pool).value, q, outcome) && !HasEnded(s, q, outcome)
    ensures a == EndedBy(outcome, q)
  {
  }

  lemma OtherStepEndsNothing(s: State, a: Action, q: nat, outcome: Outcome)
    requires !IsCallStep(a) && NextState(s, a).Some? && HasEnded(NextState(s, a).value, q, outcome)
    ensures HasEnded(s, q, outcome)
  {
  }

  /** A call that has timed out was timed out, one that was cancelled was cancelled, and so on. */
  lemma {:induction false} OutcomesNameTheirSteps(s: State, actions: seq<Action>, q: nat, outcome: Outcome)
    requires Execute(s, actions).Some? && HasEnded(Execute(s, actions).value, q, outcome) && !HasEnded(s, q, outcome)
    ensures EndedBy(outcome, q) in actions
  {
    if actions != [] {
      var (init, last) := (actions[..|actions| - 1], actions[|actions| - 1]);
      var t := Execute(s, init).value;
      if HasEnded(t, q, outcome) {
        OutcomesNameTheirSteps(s, init, q, outcome);
      } else if IsCallStep(last) {
        CallStepEnds(t, last, q, outcome);
      } else {
        OtherStepEndsNothing(t, last, q, outcome);
      }
    }
  }

  // ----- which steps are possible -----

  /** A query can be made exactly as long as a pool is active. */
  lemma LoadIsPossible(s: State, request: Request)
    ensures NextState(s, Load(request)).Some? <==> s.active.Some?
  {
  }

  /** A waiting call can run out of time or be cancelled at any moment, and ends as such. */
  lemma WaitingCanBeInterrupted(s: State, q: nat)
    requires SafeState(s) && q < |s.calls| && s.calls[q].stage.Waiting?
    ensures NextState(s, Timeout(q)).Some? && NextState(s, Timeout(q)).value.calls[q].outcomes == [TimedOut]
    ensures NextState(s, Cancel(q)).Some? && NextState(s, Cancel(q)).value.calls[q].outcomes == [Cancelled]
  {
    var c := s.calls[q];
    assert CallOk(s.pools, q, c);
    HandleOfWorker(s.pools[c.pool], c.stage.w);
  }

  /** A generation can be dropped exactly if it is complete, not active and no call is under way in it. */
  lemma UnusedCanBeDropped(s: State, g: nat)
    requires SafeState(s) && g < |s.pools|
    ensures NextState(s, LetGo(g)).Some? <==>
            && (s.pools[g].phase == Built || s.pools[g].phase == Open) && s.active != Some(g)
            && forall q :: 0 <= q < |s.calls| && s.calls[q].pool == g ==> s.calls[q].stage == Finished
  {
  }

  /** A shutdown is always possible; from then on no query can be made until a pool is stored, and everything that is
      under way goes on. */
  lemma ShutdownMeaning(s: State, request: Request)
    ensures NextState(s, Shutdown).Some?
    ensures var t := NextState(s, Shutdown).value;
            && t.pools == s.pools && t.calls == s.calls && t.counters == s.counters
            && NextState(t, Load(request)).None?
  {
  }

  /** A new generation starts with nothing built and its counter at zero. */
  lemma NewGenerationIsFresh(s: State, size: nat)
    requires SafeState(s)
    ensures NextState(s, BeginBuild(size)).Some? <==> size > 0
    ensures size > 0 ==>
              var t := NextState(s, BeginBuild(size)).value;
              && t.pools == s.pools + [Pool(size, [], [], {}, Spawning)] && t.counters == s.counters + [0]
              && t.active == s.active && t.calls == s.calls
  {
  }
}
