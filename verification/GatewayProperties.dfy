/** What holds of every call and every pool generation in every reachable state of the engine. */
module GatewayProperties {
  import opened Wrappers
  import opened WorkerPool
  import opened PoolRuns
  import opened Gateway
  import opened GatewayInvariant

  // ----- runs -----

  function Execute(s: State, actions: seq<Action>): Option<State> {
    if actions == [] then Some(s)
    else
      var t :- Execute(s, actions[..|actions| - 1]);
      NextState(t, actions[|actions| - 1])
  }

  ghost predicate Reachable(s: State) { exists actions :: Execute(START, actions) == Some(s) }

  lemma {:induction false} ExecuteKeeps(s: State, actions: seq<Action>)
    requires SafeState(s) && Execute(s, actions).Some?
    ensures SafeState(Execute(s, actions).value)
  {
    if actions != [] {
      ExecuteKeeps(s, actions[..|actions| - 1]);
      NextKeeps(Execute(s, actions[..|actions| - 1]).value, actions[|actions| - 1]);
    }
  }

  lemma ReachableIsSafe(s: State)
    requires Reachable(s)
    ensures SafeState(s)
  {
    var actions :| Execute(START, actions) == Some(s);
    ExecuteKeeps(START, actions);
  }

  // ----- one fate for every call -----

  /** The calling task still holds the message, or never made one. */
  predicate InHand(c: Call) { c.stage.Loaded? || c.stage.Checked? || c.stage.Probing? }

  predicate QueuedAt(s: State, q: nat, g: nat, w: nat) {
    g < |s.pools| && w < |s.pools[g].workers| && s.pools[g].workers[w].slot == Some(Query(q))
  }

  predicate RunningAt(s: State, q: nat, g: nat, w: nat) {
    g < |s.pools| && w < |s.pools[g].workers| && s.pools[g].workers[w].stage == Busy(q)
  }

  ghost predicate Queued(s: State, q: nat) { exists g, w :: QueuedAt(s, q, g, w) }

  ghost predicate Running(s: State, q: nat) { exists g, w :: RunningAt(s, q, g, w) }

  /** The call ended without a worker, or the worker is done with its message. */
  predicate Over(c: Call) { (c.stage.Finished? && c.home.None?) || c.reply != Pending }

  function Count(a: bool): nat { if a then 1 else 0 }

  /** In every reachable state a call's message is in exactly one of four places: with its caller, in one
      slot, on one worker, or done with. It is never lost, and never there twice. */
  lemma ExactlyOneFate(s: State, q: nat)
    requires Reachable(s) && q < |s.calls|
    ensures var c := s.calls[q];
            Count(InHand(c)) + Count(Queued(s, q)) + Count(Running(s, q)) + Count(Over(c)) == 1
    ensures forall g: nat, w: nat :: QueuedAt(s, q, g, w) || RunningAt(s, q, g, w) ==>
              g == s.calls[q].pool && s.calls[q].home == Some(w)
  {
    ReachableIsSafe(s);
    var c := s.calls[q];
    assert CallOk(s.pools, q, c);
    forall g: nat, w: nat | QueuedAt(s, q, g, w) || RunningAt(s, q, g, w)
      ensures g == c.pool && c.home == Some(w) && c.reply == Pending
      ensures QueuedAt(s, q, g, w) ==> c.ran == []
      ensures RunningAt(s, q, g, w) ==> c.ran == [(g, w)]
    {
      assert AllLinked(s.calls, g, s.pools[g]);
      assert Linked(s.calls, g, w, s.pools[g].workers[w]);
    }
    if c.home.Some? && c.reply == Pending {
      var w := c.home.value;
      assert QueuedAt(s, q, c.pool, w) || RunningAt(s, q, c.pool, w);
    }
  }

  predicate CutShort(outcome: Outcome) { outcome.TimedOut? || outcome.Cancelled? }

  /** A call runs at most once, on the worker that accepted it; it ends at most once; it fires at most one
      interrupt, only when it ended by timeout or cancellation, and only at that worker. */
  lemma AtMostOnce(s: State, q: nat)
    requires Reachable(s) && q < |s.calls|
    ensures var c := s.calls[q];
            && |c.ran| <= 1 && |c.outcomes| <= 1 && |c.hits| <= 1
            && (c.outcomes != [] <==> c.stage == Finished)
            && (c.ran != [] ==> c.home.Some? && c.ran == [(c.pool, c.home.value)])
            && (c.hits != [] <==> |c.outcomes| == 1 && CutShort(c.outcomes[0]))
            && (c.hits != [] ==> c.home.Some? && c.hits == [(c.pool, c.home.value)])
  {
    ReachableIsSafe(s);
    assert CallOk(s.pools, q, s.calls[q]);
  }

  /** What an outcome says about the call: an answer is what its worker replied after running it, its
      worker is lost only if it crashed, and a refused call never ran. */
  ghost predicate Means(pools: seq<Pool>, c: Call, outcome: Outcome) {
    match outcome
    case Rejected(_) => c.ran == [] && c.home.None?
    case NoWorker => c.ran == [] && c.home.None?
    case Answered(value) => c.home.Some? && c.reply == Sent(value) && c.ran == [(c.pool, c.home.value)]
    case WorkerLost =>
      c.home.Some? && c.pool < |pools| && c.home.value < |pools[c.pool].workers|
      && pools[c.pool].workers[c.home.value].crashed
    case _ => c.home.Some? && c.hits == [(c.pool, c.home.value)]
  }

  lemma OutcomesMeanWhatTheySay(s: State, q: nat, outcome: Outcome)
    requires Reachable(s) && q < |s.calls| && outcome in s.calls[q].outcomes
    ensures Means(s.pools, s.calls[q], outcome)
  {
    ReachableIsSafe(s);
    assert CallOk(s.pools, q, s.calls[q]);
  }

  /** What is recorded of a call is never taken back. */
  predicate Extends(c: Call, after: Call) {
    && after.request == c.request && after.pool == c.pool
    && c.refusals <= after.refusals && c.ran <= after.ran && c.outcomes <= after.outcomes && c.hits <= after.hits
    && (c.home.Some? ==> after.home == c.home)
  }

  predicate IsCallStep(a: Action) {
    a.Check? || a.Draw? || a.Try? || a.GiveUp? || a.TakeReply? || a.Timeout? || a.Cancel?
  }

  lemma CallStepExtends(s: State, a: Action)
    requires IsCallStep(a) && a.q < |s.calls| && s.calls[a.q].pool < |s.pools| && s.calls[a.q].pool < |s.counters|
    requires CallOk(s.pools, a.q, s.calls[a.q])
    requires NextCall(s, a, s.calls[a.q], s.calls[a.q].pool).Some?
    ensures var t := NextCall(s, a, s.calls[a.q], s.calls[a.q].pool).value;
            t.calls == s.calls[a.q := t.calls[a.q]] && Extends(s.calls[a.q], t.calls[a.q])
  {
  }

  lemma InsideExtends(s: State, g: nat, step: PoolStep, value: int, q: nat)
    requires g < |s.pools| && NextInside(s, g, step, value).Some? && q < |s.calls|
    ensures var t := NextInside(s, g, step, value).value;
            |t.calls| == |s.calls| && Extends(s.calls[q], t.calls[q])
  {
  }

  /** A step of a call, seen from any call. */
  lemma CallActionExtends(s: State, a: Action, q: nat)
    requires IsCallStep(a) && NextState(s, a).Some? && q < |s.calls|
    requires a.q < |s.calls| && s.calls[a.q].pool < |s.counters| && CallOk(s.pools, a.q, s.calls[a.q])
    ensures q < |NextState(s, a).value.calls| && Extends(s.calls[q], NextState(s, a).value.calls[q])
  {
    CallStepExtends(s, a);
  }

  /** A step of the engine that is neither a call's nor inside a pool. */
  lemma EngineActionExtends(s: State, a: Action, q: nat)
    requires !IsCallStep(a) && !a.Inside? && NextState(s, a).Some? && q < |s.calls|
    ensures q < |NextState(s, a).value.calls| && Extends(s.calls[q], NextState(s, a).value.calls[q])
  {
  }

  lemma CallerIsOk(s: State, a: Action)
    requires SafeState(s) && IsCallStep(a) && NextState(s, a).Some?
    ensures a.q < |s.calls| && s.calls[a.q].pool < |s.counters| && CallOk(s.pools, a.q, s.calls[a.q])
  {
  }

  lemma StepExtends(s: State, a: Action, q: nat)
    requires SafeState(s) && NextState(s, a).Some? && q < |s.calls|
    ensures q < |NextState(s, a).value.calls| && Extends(s.calls[q], NextState(s, a).value.calls[q])
  {
    if IsCallStep(a) {
      CallerIsOk(s, a);
      CallActionExtends(s, a, q);
    } else if a.Inside? {
      InsideExtends(s, a.g, a.step, a.value, q);
    } else {
      EngineActionExtends(s, a, q);
    }
  }

  /** An outcome, once reached, stays the call's only one, and the call stays with its generation. */
  lemma {:induction false} HistoryIsKept(s: State, actions: seq<Action>, q: nat)
    requires SafeState(s) && Execute(s, actions).Some? && q < |s.calls|
    ensures q < |Execute(s, actions).value.calls|
    ensures Extends(s.calls[q], Execute(s, actions).value.calls[q])
  {
    if actions != [] {
      var init := actions[..|actions| - 1];
      ExecuteKeeps(s, init);
      HistoryIsKept(s, init, q);
      StepExtends(Execute(s, init).value, actions[|actions| - 1], q);
    }
  }

  // ----- every generation runs as a pool of its own -----

  /** The step a pool makes in a step of the engine. */
  function StepOn(s: State, a: Action, g: nat): Option<PoolStep> {
    match a
    case Inside(h, step, _) => if h == g then Some(step) else None
    case Store(h) => if h == g then Some(Publish) else None
    case LetGo(h) => if h == g then Some(BeginDrop) else None
    case Try(q) =>
      if q < |s.calls| && s.calls[q].pool == g < |s.pools| && s.calls[q].stage.Probing? && |s.pools[g].workers| > 0 then
        var w := (s.calls[q].stage.start + s.calls[q].stage.offset) % |s.pools[g].workers|;
        if Next(s.pools[g], Offer(w, q)).Some? then Some(Offer(w, q)) else None
      else None
    case _ => None
  }

  lemma TryStepIsRight(s: State, q: nat, g: nat)
    requires NextState(s, Try(q)).Some? && g < |s.pools|
    ensures |NextState(s, Try(q)).value.pools| == |s.pools|
    ensures match StepOn(s, Try(q), g)
            case Some(step) => Next(s.pools[g], step) == Some(NextState(s, Try(q)).value.pools[g])
            case None => NextState(s, Try(q)).value.pools[g] == s.pools[g]
  {
  }

  lemma OtherCallStepIsRight(s: State, a: Action)
    requires IsCallStep(a) && !a.Try? && a.q < |s.calls|
    requires s.calls[a.q].pool < |s.pools| && s.calls[a.q].pool < |s.counters|
    requires NextCall(s, a, s.calls[a.q], s.calls[a.q].pool).Some?
    ensures NextCall(s, a, s.calls[a.q], s.calls[a.q].pool).value.pools == s.pools
  {
  }

  lemma InsideStepIsRight(s: State, g: nat, step: PoolStep, value: int)
    requires g < |s.pools| && NextInside(s, g, step, value).Some?
    ensures Next(s.pools[g], step).Some?
    ensures NextInside(s, g, step, value).value.pools == s.pools[g := Next(s.pools[g], step).value]
  {
  }

  lemma StepOnIsRight(s: State, a: Action, g: nat)
    requires SafeState(s) && NextState(s, a).Some? && g < |s.pools|
    ensures g < |NextState(s, a).value.pools|
    ensures match StepOn(s, a, g)
            case Some(step) => Next(s.pools[g], step) == Some(NextState(s, a).value.pools[g])
            case None => NextState(s, a).value.pools[g] == s.pools[g]
  {
    if a.Try? {
      TryStepIsRight(s, a.q, g);
    } else if IsCallStep(a) {
      OtherCallStepIsRight(s, a);
    } else if a.Inside? {
      InsideStepIsRight(s, a.g, a.step, a.value);
    }
  }

  function StepsOn(s: State, actions: seq<Action>, g: nat): seq<PoolStep>
    requires Execute(s, actions).Some?
  {
    if actions == [] then []
    else
      var init := actions[..|actions| - 1];
      match StepOn(Execute(s, init).value, actions[|actions| - 1], g)
      case Some(step) => StepsOn(s, init, g) + [step]
      case None => StepsOn(s, init, g)
  }

  /** Whatever the other generations and the calls do, one pool's part of a run is a run of that pool. */
  lemma {:induction false} PoolsRunAlone(s: State, actions: seq<Action>, g: nat)
    requires SafeState(s) && Execute(s, actions).Some? && g < |s.pools|
    ensures g < |Execute(s, actions).value.pools|
    ensures Run(s.pools[g], StepsOn(s, actions, g)) == Some(Execute(s, actions).value.pools[g])
  {
    if actions != [] {
      var (init, last) := (actions[..|actions| - 1], actions[|actions| - 1]);
      var t := Execute(s, init).value;
      ExecuteKeeps(s, init);
      PoolsRunAlone(s, init, g);
      StepOnIsRight(t, last, g);
      var steps := StepsOn(s, init, g);
      if StepOn(t, last, g).Some? {
        assert (steps + [StepOn(t, last, g).value])[..|steps|] == steps;
      }
    }
  }

  /** Once the engine has let go of a generation, or its construction has failed, that pool makes at most
      `Measure` more steps in any run, and it can rest only with no worker left. */
  lemma {:induction false} DroppedPoolsDrain(s: State, actions: seq<Action>, g: nat)
    requires SafeState(s) && Execute(s, actions).Some? && g < |s.pools| && Down(s.pools[g])
    ensures Inv(s.pools[g]) && |StepsOn(s, actions, g)| <= Measure(s.pools[g])
    ensures g < |Execute(s, actions).value.pools|
    ensures CanStep(Execute(s, actions).value.pools[g]) || Drained(Execute(s, actions).value.pools[g])
  {
    PoolsRunAlone(s, actions, g);
    DownDrains(s.pools[g], StepsOn(s, actions, g));
  }

  /** When the last worker of a generation is gone no call is left waiting for it: each accepted call was
      answered, or its worker crashed. */
  lemma DrainedPoolsOweNothing(s: State, q: nat)
    requires Reachable(s) && q < |s.calls| && s.calls[q].home.Some?
    requires s.calls[q].pool < |s.pools| && Drained(s.pools[s.calls[q].pool])
    ensures var c := s.calls[q];
            && c.home.value < |s.pools[c.pool].workers|
            && (if c.reply.Sent? then c.ran == [(c.pool, c.home.value)]
                else c.reply == Hung && s.pools[c.pool].workers[c.home.value].crashed)
  {
    ReachableIsSafe(s);
    var c := s.calls[q];
    assert CallOk(s.pools, q, c) && Inv(s.pools[c.pool]);
    assert WorkerOk(s.pools[c.pool].phase, c.home.value, s.pools[c.pool].workers[c.home.value]);
  }

  // ----- progress of calls -----

  /** How many steps of its own a call still makes. */
  function CallRank(s: State, c: Call): nat {
    var n := if c.pool < |s.pools| then |s.pools[c.pool].workers| else 0;
    match c.stage
    case Loaded => n + 4
    case Checked => n + 3
    case Probing(_, offset) => (if offset <= n then n - offset else 0) + 2
    case Waiting(_) => 1
    case Finished => 0
  }

  /** The step a call waits for: one of its own, or one of the worker that holds its message. */
  function AwaitedStep(s: State, q: nat): Action
    requires q < |s.calls|
  {
    var c := s.calls[q];
    match c.stage
    case Loaded => Check(q)
    case Checked => Draw(q)
    case Probing(_, offset) =>
      if c.pool < |s.pools| && offset == |s.pools[c.pool].workers| then GiveUp(q) else Try(q)
    case _ =>
      if c.reply != Pending then TakeReply(q)
      else if c.pool < |s.pools| && c.home.Some? && c.home.value < |s.pools[c.pool].workers| then
        Inside(c.pool, NextStepOf(c.home.value, s.pools[c.pool].workers[c.home.value]), 0)
      else Check(q)
  }

  predicate CallAdvances(s: State, a: Action, q: nat) {
    && q < |s.calls| && NextState(s, a).Some? && q < |NextState(s, a).value.calls|
    && CallRank(NextState(s, a).value, NextState(s, a).value.calls[q]) < CallRank(s, s.calls[q])
  }

  lemma WaitingWorkerHasStep(s: State, q: nat)
    requires SafeState(s) && q < |s.calls| && s.calls[q].stage.Waiting? && s.calls[q].reply == Pending
    ensures var (a, c) := (AwaitedStep(s, q), s.calls[q]);
            a.Inside? && IsWorkerStep(a.step) && c.home == Some(a.step.w) && a.g == c.pool && NextState(s, a).Some?
  {
    var c := s.calls[q];
    assert CallOk(s.pools, q, c);
    AcceptedIsNeverStuck(s.pools[c.pool], c.home.value, Spawn);
  }

  lemma EarlyStepAdvances(s: State, q: nat)
    requires SafeState(s) && q < |s.calls| && (s.calls[q].stage.Loaded? || s.calls[q].stage.Checked?)
    ensures !AwaitedStep(s, q).Inside? && CallAdvances(s, AwaitedStep(s, q), q)
  {
    assert CallOk(s.pools, q, s.calls[q]);
  }

  lemma TryAdvances(s: State, q: nat)
    requires q < |s.calls| && s.calls[q].stage.Probing? && CallOk(s.pools, q, s.calls[q])
    requires s.calls[q].pool < |s.counters| && s.calls[q].stage.offset < |s.pools[s.calls[q].pool].workers|
    ensures CallAdvances(s, Try(q), q)
  {
  }

  lemma GiveUpAdvances(s: State, q: nat)
    requires q < |s.calls| && s.calls[q].stage.Probing? && CallOk(s.pools, q, s.calls[q])
    requires s.calls[q].pool < |s.counters| && s.calls[q].stage.offset == |s.pools[s.calls[q].pool].workers|
    ensures CallAdvances(s, GiveUp(q), q)
  {
  }

  lemma ProbeStepAdvances(s: State, q: nat)
    requires SafeState(s) && q < |s.calls| && s.calls[q].stage.Probing?
    ensures !AwaitedStep(s, q).Inside? && CallAdvances(s, AwaitedStep(s, q), q)
  {
    assert CallOk(s.pools, q, s.calls[q]);
    if s.calls[q].stage.offset == |s.pools[s.calls[q].pool].workers| {
      GiveUpAdvances(s, q);
    } else {
      TryAdvances(s, q);
    }
  }

  lemma ReplyStepAdvances(s: State, q: nat)
    requires SafeState(s) && q < |s.calls| && s.calls[q].stage.Waiting? && s.calls[q].reply != Pending
    ensures !AwaitedStep(s, q).Inside? && CallAdvances(s, AwaitedStep(s, q), q)
  {
    assert CallOk(s.pools, q, s.calls[q]);
  }

  /** Timeouts and cancellations aside: an unfinished call always has a step that gets it further, or waits for
      its own worker, which has one. */
  lemma CallsAreNeverStuck(s: State, q: nat)
    requires Reachable(s) && q < |s.calls| && Unfinished(s.calls[q])
    ensures var (a, c) := (AwaitedStep(s, q), s.calls[q]);
            && NextState(s, a).Some?
            && if c.stage.Waiting? && c.reply == Pending
               then a.Inside? && a.g == c.pool && IsWorkerStep(a.step) && c.home == Some(a.step.w)
               else IsCallStep(a) && a.q == q && CallAdvances(s, a, q)
  {
    ReachableIsSafe(s);
    if s.calls[q].stage.Waiting? && s.calls[q].reply == Pending {
      WaitingWorkerHasStep(s, q);
    } else if s.calls[q].stage.Waiting? {
      ReplyStepAdvances(s, q);
    } else if s.calls[q].stage.Probing? {
      ProbeStepAdvances(s, q);
    } else {
      EarlyStepAdvances(s, q);
    }
  }

  // ----- generation consistency -----

  /** The pool is complete: one worker and one handle for each sender, in the same order, and the relations
      the workers found. */
  ghost predicate Complete(p: Pool) {
    && |p.workers| == |p.interrupts| == p.size
    && (forall w :: 0 <= w < p.size ==> p.workers[w].signal.Ready? && p.interrupts[w] == w)
    && (forall x :: x in p.relations <==>
          exists w :: 0 <= w < |p.workers| && p.workers[w].signal.Ready? && x in p.workers[w].signal.relations)
  }

  lemma OpenIsComplete(p: Pool)
    requires Inv(p) && p.phase == Open
    ensures Complete(p)
  {
    var signals := Signals(p.workers, p.size);
    forall w | 0 <= w < p.size ensures p.workers[w].signal.Ready? && p.interrupts[w] == w {
      HandleOfWorker(p, w);
      assert WorkerOk(p.phase, w, p.workers[w]);
    }
    forall x ensures x in p.relations <==>
                     exists w :: 0 <= w < |p.workers| && p.workers[w].signal.Ready?
                                 && x in p.workers[w].signal.relations
    {
      FoundMeaning(signals, x);
      assert forall i :: 0 <= i < |signals| ==> signals[i] == p.workers[i].signal;
    }
  }

  /** The active pool is always a complete one. */
  lemma ActiveIsComplete(s: State)
    requires Reachable(s) && s.active.Some?
    ensures s.active.value < |s.pools| && s.pools[s.active.value].phase == Open
    ensures Complete(s.pools[s.active.value])
  {
    ReachableIsSafe(s);
    OpenIsComplete(s.pools[s.active.value]);
  }

  /** While a call is under way its generation is open and complete, whatever has been stored meanwhile. */
  lemma CallsKeepTheirGeneration(s: State, q: nat)
    requires Reachable(s) && q < |s.calls| && Unfinished(s.calls[q])
    ensures s.calls[q].pool < |s.pools| && s.pools[s.calls[q].pool].phase == Open
    ensures Complete(s.pools[s.calls[q].pool])
  {
    ReachableIsSafe(s);
    assert CallOk(s.pools, q, s.calls[q]);
    OpenIsComplete(s.pools[s.calls[q].pool]);
  }

  /** The relations a call is checked against are those of the generation that runs it, at whatever later
      time one looks: a call is refused by that guard, or passes it. */
  lemma CheckedAgainstItsGeneration(s: State, q: nat)
    requires Reachable(s) && q < |s.calls| && !s.calls[q].stage.Loaded?
    ensures var c := s.calls[q];
            && c.pool < |s.pools|
            && var verdict := Guard(c.request, s.pools[c.pool].relations);
               if verdict.Some? then c.outcomes == [Rejected(verdict.value)] && c.home.None?
               else forall outcome :: outcome in c.outcomes ==> !outcome.Rejected?
  {
    ReachableIsSafe(s);
    assert CallOk(s.pools, q, s.calls[q]);
  }

  /** Building, failing to build and dropping pools leave the active one alone: only a store replaces it. */
  lemma {:induction false} OnlyStoreReplaces(s: State, actions: seq<Action>)
    requires SafeState(s) && Execute(s, actions).Some?
    requires forall a :: a in actions ==> !a.Store? && !a.Shutdown?
    ensures Execute(s, actions).value.active == s.active
  {
    if actions != [] {
      var (init, last) := (actions[..|actions| - 1], actions[|actions| - 1]);
      assert last in actions && forall a :: a in init ==> a in actions;
      OnlyStoreReplaces(s, init);
    }
  }

  /** A pool whose construction failed never becomes the active one. */
  lemma {:induction false} FailedBuildsAreNeverActive(s: State, actions: seq<Action>, g: nat)
    requires SafeState(s) && Execute(s, actions).Some? && g < |s.pools| && Down(s.pools[g])
    ensures Execute(s, actions).value.active != Some(g)
  {
    ExecuteKeeps(s, actions);
    PoolsRunAlone(s, actions, g);
    DownStaysDown(s.pools[g], StepsOn(s, actions, g));
  }

  // ----- bounded admission -----

  function SlotQuery(k: Worker): set<nat> { if HasQuery(k) then {k.slot.value.id} else {} }

  function BusyQuery(k: Worker): set<nat> { if k.stage.Busy? then {k.stage.id} else {} }

  function HeldBy(workers: seq<Worker>): set<nat> {
    if workers == [] then {}
    else
      var last := workers[|workers| - 1];
      HeldBy(workers[..|workers| - 1]) + SlotQuery(last) + BusyQuery(last)
  }

  lemma {:induction false} HeldByIsBounded(workers: seq<Worker>)
    ensures |HeldBy(workers)| <= 2 * |workers|
  {
    if workers != [] {
      var (init, last) := (workers[..|workers| - 1], workers[|workers| - 1]);
      HeldByIsBounded(init);
      UnionIsBounded(HeldBy(init), SlotQuery(last));
      UnionIsBounded(HeldBy(init) + SlotQuery(last), BusyQuery(last));
    }
  }

  lemma UnionIsBounded(a: set<nat>, b: set<nat>)
    ensures |a + b| <= |a| + |b|
  {
  }

  lemma {:induction false} SubsetIsSmaller(a: set<nat>, b: set<nat>)
    requires a <= b
    ensures |a| <= |b|
  {
    if a != {} {
      var x :| x in a;
      SubsetIsSmaller(a - {x}, b - {x});
    }
  }

  lemma {:induction false} HeldByHolds(workers: seq<Worker>, w: nat)
    requires w < |workers|
    ensures SlotQuery(workers[w]) + BusyQuery(workers[w]) <= HeldBy(workers)
  {
    if w < |workers| - 1 { HeldByHolds(workers[..|workers| - 1], w); }
  }

  /** The calls a pool has accepted and not yet answered, including those whose callers have given up. */
  function Backlogged(s: State, g: nat): set<nat> {
    set q | 0 <= q < |s.calls| && s.calls[q].pool == g && s.calls[q].home.Some? && s.calls[q].reply == Pending
  }

  /** No pool ever has more than two such calls for each worker: one running and one in the slot. */
  lemma AdmissionIsBounded(s: State, g: nat)
    requires Reachable(s) && g < |s.pools|
    ensures |Backlogged(s, g)| <= 2 * |s.pools[g].workers|
  {
    ReachableIsSafe(s);
    var workers := s.pools[g].workers;
    forall q | q in Backlogged(s, g) ensures q in HeldBy(workers) {
      assert CallOk(s.pools, q, s.calls[q]);
      HeldByHolds(workers, s.calls[q].home.value);
    }
    SubsetIsSmaller(Backlogged(s, g), HeldBy(workers));
    HeldByIsBounded(workers);
  }
}
