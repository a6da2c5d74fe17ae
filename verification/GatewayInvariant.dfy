/** Every step of the engine keeps the invariant of its states. */
module GatewayInvariant {
  import opened Wrappers
  import opened WorkerPool
  import opened Gateway

  // ----- steps that touch no message -----

  /** The worker holds the same messages before and after. */
  predicate Quiet(k: Worker, after: Worker) {
    && (HasQuery(k) || HasQuery(after) ==> k.slot == after.slot)
    && (k.stage.Busy? || after.stage.Busy? ==> k.stage == after.stage)
    && (k.crashed ==> after.crashed)
  }

  predicate PastBuild(phase: Phase) { phase.Open? || phase.Dropping? || phase.Closed? }

  ghost predicate QuietChange(p: Pool, after: Pool) {
    && Inv(after) && after.size == p.size
    && |p.workers| <= |after.workers|
    && (forall w :: 0 <= w < |p.workers| ==> Quiet(p.workers[w], after.workers[w]))
    && (forall w :: |p.workers| <= w < |after.workers| ==> Quiet(FRESH, after.workers[w]))
    && (PastBuild(p.phase) ==>
          PastBuild(after.phase) && |after.workers| == |p.workers| && after.relations == p.relations)
  }

  lemma WorkerStepIsQuiet(p: Pool, step: PoolStep)
    requires Inv(p) && Next(p, step).Some? && Touched(p, step).None?
    requires IsWorkerStep(step)
    ensures QuietChange(p, Next(p, step).value)
    ensures Next(p, step).value.phase == p.phase
  {
    StepKeeps(p, step);
    assert WorkerOk(p.phase, step.w, p.workers[step.w]);
  }

  lemma PhaseChangeIsQuiet(p: Pool, step: PoolStep)
    requires Inv(p) && Next(p, step).Some? && (IsPhaseChange(step) || step.Collect?)
    ensures QuietChange(p, Next(p, step).value)
  {
    StepKeeps(p, step);
  }

  lemma SpawnIsQuiet(p: Pool)
    requires Inv(p) && Next(p, Spawn).Some?
    ensures QuietChange(p, Next(p, Spawn).value)
  {
    SpawnKeeps(p);
  }

  lemma StopIsQuiet(p: Pool, step: PoolStep)
    requires Inv(p) && Next(p, step).Some? && (step.Abort? || step.TellStop?)
    ensures QuietChange(p, Next(p, step).value)
  {
    StepKeeps(p, step);
  }

  lemma OwnerStepLeavesOpen(p: Pool, step: PoolStep)
    requires p.phase == Open && Next(p, step).Some? && !step.BeginDrop?
    ensures Next(p, step).value.phase == Open
  {
  }

  lemma OwnerStepIsQuiet(p: Pool, step: PoolStep)
    requires Inv(p) && Next(p, step).Some? && !step.Offer? && !IsWorkerStep(step)
    ensures QuietChange(p, Next(p, step).value)
    ensures p.phase == Open && !step.BeginDrop? ==> Next(p, step).value.phase == Open
  {
    if step.Spawn? {
      SpawnIsQuiet(p);
    } else if step.Abort? || step.TellStop? {
      StopIsQuiet(p, step);
    } else {
      PhaseChangeIsQuiet(p, step);
    }
    if p.phase == Open && !step.BeginDrop? { OwnerStepLeavesOpen(p, step); }
  }

  lemma StepIsQuiet(p: Pool, step: PoolStep)
    requires Inv(p) && Next(p, step).Some? && Touched(p, step).None? && !step.Offer?
    ensures QuietChange(p, Next(p, step).value)
    ensures p.phase == Open && !step.BeginDrop? ==> Next(p, step).value.phase == Open
  {
    if IsWorkerStep(step) {
      WorkerStepIsQuiet(p, step);
    } else {
      OwnerStepIsQuiet(p, step);
    }
  }

  lemma CallOkAfterQuiet(pools: seq<Pool>, g: nat, after: Pool, q: nat, c: Call)
    requires g < |pools| && QuietChange(pools[g], after) && CallOk(pools, q, c)
    requires c.pool == g && Unfinished(c) ==> after.phase == Open
    ensures CallOk(pools[g := after], q, c)
  {
  }

  lemma LinkedAfterQuiet(calls: seq<Call>, g: nat, p: Pool, after: Pool)
    requires QuietChange(p, after) && AllLinked(calls, g, p)
    ensures AllLinked(calls, g, after)
  {
  }

  lemma QuietKeeps(s: State, g: nat, after: Pool, active: Option<nat>)
    requires SafeState(s) && g < |s.pools| && QuietChange(s.pools[g], after)
    requires Held(s.calls, g) ==> after.phase == Open
    requires active.Some? ==> active.value < |s.pools| && s.pools[g := after][active.value].phase == Open
    ensures SafeState(s.(pools := s.pools[g := after], active := active))
  {
    var t := s.(pools := s.pools[g := after], active := active);
    forall q | 0 <= q < |t.calls| ensures CallOk(t.pools, q, t.calls[q]) {
      CallOkAfterQuiet(s.pools, g, after, q, s.calls[q]);
    }
    forall i | 0 <= i < |t.pools| ensures AllLinked(t.calls, i, t.pools[i]) {
      assert AllLinked(s.calls, i, s.pools[i]);
      if i == g { LinkedAfterQuiet(s.calls, g, s.pools[g], after); }
    }
  }

  // ----- steps of one call -----

  predicate SameMessage(c: Call, after: Call) {
    c.pool == after.pool && c.home == after.home && c.reply == after.reply && c.ran == after.ran
  }

  lemma CallChangeKeeps(s: State, q: nat, after: Call)
    requires SafeState(s) && q < |s.calls| && SameMessage(s.calls[q], after) && CallOk(s.pools, q, after)
    ensures SafeState(WithCall(s, q, after))
  {
    var calls := s.calls[q := after];
    forall g | 0 <= g < |s.pools| ensures AllLinked(calls, g, s.pools[g]) {
      assert AllLinked(s.calls, g, s.pools[g]);
      forall w | 0 <= w < |s.pools[g].workers| ensures Linked(calls, g, w, s.pools[g].workers[w]) {
        assert Linked(s.calls, g, w, s.pools[g].workers[w]);
      }
    }
  }

  lemma CheckKeeps(s: State, q: nat)
    requires SafeState(s) && NextState(s, Check(q)).Some?
    ensures SafeState(NextState(s, Check(q)).value)
  {
    assert CallOk(s.pools, q, s.calls[q]);
    CallChangeKeeps(s, q, NextState(s, Check(q)).value.calls[q]);
  }

  lemma DrawKeeps(s: State, q: nat)
    requires SafeState(s) && NextState(s, Draw(q)).Some?
    ensures SafeState(NextState(s, Draw(q)).value)
  {
    assert CallOk(s.pools, q, s.calls[q]);
    CallChangeKeeps(s, q, NextState(s, Draw(q)).value.calls[q]);
  }

  /** The first refusal is where the probing started. */
  lemma RefusedFromFirst(p: Pool, start: nat, refusals: seq<Refusal>)
    requires refusals != [] && start < |p.workers| && Refused(p, start, refusals)
    ensures Refused(p, refusals[0].w, refusals)
  {
    assert refusals[0].w == (start + 0) % |p.workers| == start;
  }

  lemma GaveUpIsOk(pools: seq<Pool>, q: nat, c: Call)
    requires CallOk(pools, q, c) && c.stage.Probing? && c.stage.offset == |pools[c.pool].workers|
    ensures CallOk(pools, q, Ended(c, NoWorker))
  {
    RefusedFromFirst(pools[c.pool], c.stage.start, c.refusals);
  }

  lemma GiveUpKeeps(s: State, q: nat)
    requires SafeState(s) && NextState(s, GiveUp(q)).Some?
    ensures SafeState(NextState(s, GiveUp(q)).value)
  {
    assert CallOk(s.pools, q, s.calls[q]);
    GaveUpIsOk(s.pools, q, s.calls[q]);
    CallChangeKeeps(s, q, Ended(s.calls[q], NoWorker));
  }

  lemma TakeReplyKeeps(s: State, q: nat)
    requires SafeState(s) && NextState(s, TakeReply(q)).Some?
    ensures SafeState(NextState(s, TakeReply(q)).value)
  {
    assert CallOk(s.pools, q, s.calls[q]);
    CallChangeKeeps(s, q, NextState(s, TakeReply(q)).value.calls[q]);
  }

  lemma InterruptedIsOk(pools: seq<Pool>, q: nat, c: Call, outcome: Outcome)
    requires CallOk(pools, q, c) && Inv(pools[c.pool]) && c.stage.Waiting? && c.stage.w < |pools[c.pool].interrupts|
    requires outcome == TimedOut || outcome == Cancelled
    ensures CallOk(pools, q, Interrupted(c, pools[c.pool], c.stage.w, outcome))
  {
  }

  lemma InterruptKeeps(s: State, a: Action)
    requires (a.Timeout? || a.Cancel?) && SafeState(s) && NextState(s, a).Some?
    ensures SafeState(NextState(s, a).value)
  {
    var c := s.calls[a.q];
    var outcome := if a.Timeout? then TimedOut else Cancelled;
    assert CallOk(s.pools, a.q, c) && Inv(s.pools[c.pool]);
    InterruptedIsOk(s.pools, a.q, c, outcome);
    CallChangeKeeps(s, a.q, Interrupted(c, s.pools[c.pool], c.stage.w, outcome));
  }

  /** In a complete pool the handle at an index is that of the worker at the index. */
  lemma HandleOfWorker(p: Pool, w: nat)
    requires Inv(p) && (p.phase.Built? || p.phase.Open? || p.phase.Dropping?) && w < |p.workers|
    ensures |p.interrupts| == |p.workers| && p.interrupts[w] == w
  {
  }

  // ----- sending the message -----

  lemma RefusedKeeps(s: State, q: nat, w: nat)
    requires SafeState(s) && q < |s.calls| && s.calls[q].stage.Probing?
    requires s.calls[q].pool < |s.pools| && s.calls[q].stage.offset < |s.pools[s.calls[q].pool].workers|
    requires w == (s.calls[q].stage.start + s.calls[q].stage.offset) % |s.pools[s.calls[q].pool].workers|
    requires Next(s.pools[s.calls[q].pool], Offer(w, q)).None?
    ensures SafeState(Tried(s, q, w))
  {
    assert CallOk(s.pools, q, s.calls[q]);
    CallChangeKeeps(s, q, Tried(s, q, w).calls[q]);
  }

  /** The call accepted by worker `w`. */
  function Accepted(c: Call, w: nat): Call { c.(stage := Waiting(w), home := Some(w)) }

  /** The call itself waits at its home, the worker that took it. */
  lemma AcceptedIsOk(pools: seq<Pool>, q: nat, c: Call, w: nat, p: Pool)
    requires c.pool < |pools| && CallOk(pools, q, c) && c.stage.Probing?
    requires Next(pools[c.pool], Offer(w, q)) == Some(p)
    ensures CallOk(pools[c.pool := p], q, Accepted(c, w))
  {
  }

  lemma OthersStayOk(pools: seq<Pool>, g: nat, w: nat, q: nat, p: Pool, i: nat, c: Call)
    requires g < |pools| && CallOk(pools, i, c) && i != q
    requires Next(pools[g], Offer(w, q)) == Some(p)
    ensures CallOk(pools[g := p], i, c)
  {
  }

  lemma LinkedAfterAccept(s: State, q: nat, w: nat, p: Pool, h: nat, v: nat)
    requires SafeState(s) && q < |s.calls| && s.calls[q].stage.Probing?
    requires s.calls[q].pool < |s.pools| && Next(s.pools[s.calls[q].pool], Offer(w, q)) == Some(p)
    requires h < |s.pools| && v < |s.pools[s.calls[q].pool := p][h].workers|
    ensures Linked(s.calls[q := Accepted(s.calls[q], w)], h, v, s.pools[s.calls[q].pool := p][h].workers[v])
  {
    assert CallOk(s.pools, q, s.calls[q]);
    assert AllLinked(s.calls, h, s.pools[h]);
    assert Linked(s.calls, h, v, s.pools[h].workers[v]);
  }

  lemma CallsAfterAccept(s: State, q: nat, w: nat, p: Pool, i: nat)
    requires SafeState(s) && q < |s.calls| && s.calls[q].stage.Probing? && i < |s.calls|
    requires s.calls[q].pool < |s.pools| && Next(s.pools[s.calls[q].pool], Offer(w, q)) == Some(p)
    ensures CallOk(s.pools[s.calls[q].pool := p], i, s.calls[q := Accepted(s.calls[q], w)][i])
  {
    assert CallOk(s.pools, i, s.calls[i]);
    if i == q {
      AcceptedIsOk(s.pools, q, s.calls[q], w, p);
    } else {
      OthersStayOk(s.pools, s.calls[q].pool, w, q, p, i, s.calls[i]);
    }
  }

  lemma PoolsAfterAccept(s: State, q: nat, w: nat, p: Pool, h: nat)
    requires SafeState(s) && q < |s.calls| && s.calls[q].stage.Probing? && h < |s.pools|
    requires s.calls[q].pool < |s.pools| && Next(s.pools[s.calls[q].pool], Offer(w, q)) == Some(p)
    ensures var t := s.pools[s.calls[q].pool := p][h];
            Inv(t) && t.size > 0 && AllLinked(s.calls[q := Accepted(s.calls[q], w)], h, t)
  {
    var t := s.pools[s.calls[q].pool := p][h];
    StepKeeps(s.pools[s.calls[q].pool], Offer(w, q));
    forall v | 0 <= v < |t.workers| ensures Linked(s.calls[q := Accepted(s.calls[q], w)], h, v, t.workers[v]) {
      LinkedAfterAccept(s, q, w, p, h, v);
    }
  }

  lemma AcceptKeeps(s: State, q: nat, w: nat, p: Pool)
    requires SafeState(s) && q < |s.calls| && s.calls[q].stage.Probing?
    requires s.calls[q].pool < |s.pools| && Next(s.pools[s.calls[q].pool], Offer(w, q)) == Some(p)
    ensures SafeState(WithCall(s, q, Accepted(s.calls[q], w)).(pools := s.pools[s.calls[q].pool := p]))
  {
    var t := WithCall(s, q, Accepted(s.calls[q], w)).(pools := s.pools[s.calls[q].pool := p]);
    forall i | 0 <= i < |t.calls| ensures CallOk(t.pools, i, t.calls[i]) {
      CallsAfterAccept(s, q, w, p, i);
    }
    forall h | 0 <= h < |t.pools| ensures Inv(t.pools[h]) && t.pools[h].size > 0 && AllLinked(t.calls, h, t.pools[h]) {
      PoolsAfterAccept(s, q, w, p, h);
    }
  }

  lemma TryIsTried(s: State, q: nat)
    requires NextState(s, Try(q)).Some?
    ensures q < |s.calls| && s.calls[q].stage.Probing? && s.calls[q].pool < |s.pools|
    ensures s.calls[q].stage.offset < |s.pools[s.calls[q].pool].workers|
    ensures var c := s.calls[q];
            NextState(s, Try(q)) == Some(Tried(s, q, (c.stage.start + c.stage.offset) % |s.pools[c.pool].workers|))
  {
  }

  lemma TryKeeps(s: State, q: nat)
    requires SafeState(s) && NextState(s, Try(q)).Some?
    ensures SafeState(NextState(s, Try(q)).value)
  {
    TryIsTried(s, q);
    var c := s.calls[q];
    var w := (c.stage.start + c.stage.offset) % |s.pools[c.pool].workers|;
    match Next(s.pools[c.pool], Offer(w, q))
    case Some(p) => AcceptKeeps(s, q, w, p);
    case None => RefusedKeeps(s, q, w);
  }

  // ----- a worker takes up, answers or loses a message -----

  /** What a worker's step leaves of the messages it holds, once one of them is touched. */
  predicate Loud(k: Worker, after: Worker, q: nat) {
    && (HasQuery(after) ==> after.slot == k.slot && after.slot != Some(Query(q)))
    && (HasQuery(k) && k.slot != Some(Query(q)) ==> after.slot == k.slot)
    && (after.stage.Busy? ==> after.stage == Busy(q) || after.stage == k.stage)
    && (k.stage.Busy? && k.stage != Busy(q) ==> after.stage == k.stage)
    && (k.crashed ==> after.crashed)
  }

  lemma TouchIsLoud(calls: seq<Call>, g: nat, p: Pool, step: PoolStep, w: nat, q: nat)
    requires Inv(p) && Next(p, step).Some? && Touched(p, step) == Some(q)
    requires w == step.w < |p.workers| && AllLinked(calls, g, p)
    ensures Next(p, step).value == WithWorker(p, w, Next(p, step).value.workers[w])
    ensures Loud(p.workers[w], Next(p, step).value.workers[w], q)
  {
  }

  /** The call whose message is touched is still in order afterwards. */
  lemma NotedIsOk(s: State, g: nat, step: PoolStep, value: int, q: nat)
    requires SafeState(s) && g < |s.pools| && Next(s.pools[g], step).Some? && Touched(s.pools[g], step) == Some(q)
    ensures q < |s.calls| && s.calls[q].pool == g && s.calls[q].home == Some(step.w)
    ensures CallOk(s.pools[g := Next(s.pools[g], step).value], q, Noted(s.calls[q], g, step, value))
  {
    var k := s.pools[g].workers[step.w];
    assert Linked(s.calls, g, step.w, k) && WorkerOk(s.pools[g].phase, step.w, k);
    assert CallOk(s.pools, q, s.calls[q]);
  }

  lemma OthersAreOk(s: State, g: nat, step: PoolStep, q: nat, i: nat)
    requires SafeState(s) && g < |s.pools| && Next(s.pools[g], step).Some? && Touched(s.pools[g], step) == Some(q)
    requires i < |s.calls| && i != q
    ensures CallOk(s.pools[g := Next(s.pools[g], step).value], i, s.calls[i])
  {
    TouchIsLoud(s.calls, g, s.pools[g], step, step.w, q);
    assert CallOk(s.pools, i, s.calls[i]);
  }

  /** A worker that holds other messages than call `q`'s, or no message it did not hold before. */
  lemma LinkedLoud(calls: seq<Call>, g: nat, w: nat, k: Worker, after: Worker, q: nat, c: Call)
    requires Linked(calls, g, w, k) && Loud(k, after, q) && q < |calls|
    requires after.stage == Busy(q) ==>
               c.pool == g && c.home == Some(w) && c.reply == Pending && c.ran == [(g, w)]
    ensures Linked(calls[q := c], g, w, after)
  {
  }

  lemma LinkedAtHome(s: State, g: nat, step: PoolStep, value: int, q: nat)
    requires SafeState(s) && g < |s.pools| && Next(s.pools[g], step).Some? && Touched(s.pools[g], step) == Some(q)
    requires q < |s.calls| && step.w < |s.pools[g].workers|
    ensures step.w < |Next(s.pools[g], step).value.workers|
    ensures Linked(s.calls[q := Noted(s.calls[q], g, step, value)], g, step.w,
                   Next(s.pools[g], step).value.workers[step.w])
  {
    var k := s.pools[g].workers[step.w];
    TouchIsLoud(s.calls, g, s.pools[g], step, step.w, q);
    assert Linked(s.calls, g, step.w, k);
    LinkedLoud(s.calls, g, step.w, k, Next(s.pools[g], step).value.workers[step.w], q,
               Noted(s.calls[q], g, step, value));
  }

  lemma LinkedElsewhere(calls: seq<Call>, g: nat, w: nat, k: Worker, q: nat, c: Call)
    requires Linked(calls, g, w, k) && q < |calls| && (calls[q].pool != g || calls[q].home != Some(w))
    ensures Linked(calls[q := c], g, w, k)
  {
  }

  lemma LinkedAfterTouch(s: State, g: nat, step: PoolStep, value: int, q: nat, h: nat, w: nat)
    requires SafeState(s) && g < |s.pools| && Next(s.pools[g], step).Some? && Touched(s.pools[g], step) == Some(q)
    requires q < |s.calls| && h < |s.pools|
    requires var pools := s.pools[g := Next(s.pools[g], step).value]; w < |pools[h].workers|
    ensures var pools := s.pools[g := Next(s.pools[g], step).value];
            Linked(s.calls[q := Noted(s.calls[q], g, step, value)], h, w, pools[h].workers[w])
  {
    NotedIsOk(s, g, step, value, q);
    TouchIsLoud(s.calls, g, s.pools[g], step, step.w, q);
    if h == g && w == step.w {
      LinkedAtHome(s, g, step, value, q);
    } else {
      assert AllLinked(s.calls, h, s.pools[h]);
      LinkedElsewhere(s.calls, h, w, s.pools[h].workers[w], q, Noted(s.calls[q], g, step, value));
    }
  }

  /** The state after a step that touches the message of call `q`. */
  function TouchedState(s: State, g: nat, step: PoolStep, value: int, q: nat): State
    requires g < |s.pools| && Next(s.pools[g], step).Some? && q < |s.calls|
  {
    WithCall(s.(pools := s.pools[g := Next(s.pools[g], step).value]), q, Noted(s.calls[q], g, step, value))
  }

  lemma LoudKeepsCalls(s: State, g: nat, step: PoolStep, value: int, q: nat)
    requires SafeState(s) && g < |s.pools| && Next(s.pools[g], step).Some? && Touched(s.pools[g], step) == Some(q)
    requires q < |s.calls|
    ensures var t := TouchedState(s, g, step, value, q);
            forall i :: 0 <= i < |t.calls| ==> CallOk(t.pools, i, t.calls[i])
  {
    var t := TouchedState(s, g, step, value, q);
    NotedIsOk(s, g, step, value, q);
    forall i | 0 <= i < |t.calls| ensures CallOk(t.pools, i, t.calls[i]) {
      if i != q { OthersAreOk(s, g, step, q, i); }
    }
  }

  lemma LoudKeepsLinks(s: State, g: nat, step: PoolStep, value: int, q: nat, h: nat)
    requires SafeState(s) && g < |s.pools| && Next(s.pools[g], step).Some? && Touched(s.pools[g], step) == Some(q)
    requires q < |s.calls| && h < |s.pools|
    ensures var t := TouchedState(s, g, step, value, q); AllLinked(t.calls, h, t.pools[h])
  {
    var t := TouchedState(s, g, step, value, q);
    forall w | 0 <= w < |t.pools[h].workers| ensures Linked(t.calls, h, w, t.pools[h].workers[w]) {
      LinkedAfterTouch(s, g, step, value, q, h, w);
    }
  }

  lemma LoudKeeps(s: State, g: nat, step: PoolStep, value: int, q: nat)
    requires SafeState(s) && g < |s.pools| && Next(s.pools[g], step).Some? && Touched(s.pools[g], step) == Some(q)
    ensures q < |s.calls| && SafeState(TouchedState(s, g, step, value, q))
  {
    NotedIsOk(s, g, step, value, q);
    var t := TouchedState(s, g, step, value, q);
    TouchIsLoud(s.calls, g, s.pools[g], step, step.w, q);
    StepKeeps(s.pools[g], step);
    LoudKeepsCalls(s, g, step, value, q);
    forall h | 0 <= h < |t.pools| ensures AllLinked(t.calls, h, t.pools[h]) {
      LoudKeepsLinks(s, g, step, value, q, h);
    }
  }

  lemma InsideKeeps(s: State, g: nat, step: PoolStep, value: int)
    requires SafeState(s) && NextState(s, Inside(g, step, value)).Some?
    ensures SafeState(NextState(s, Inside(g, step, value)).value)
  {
    var p := Next(s.pools[g], step).value;
    match Touched(s.pools[g], step)
    case Some(q) =>
      LoudKeeps(s, g, step, value, q);
    case None =>
      StepIsQuiet(s.pools[g], step);
      HeldIsOpen(s, g);
      QuietKeeps(s, g, p, s.active);
  }

  lemma HeldIsOpen(s: State, g: nat)
    requires SafeState(s) && g < |s.pools|
    ensures Held(s.calls, g) ==> s.pools[g].phase == Open
  {
  }

  // ----- the engine's own steps -----

  lemma StoreKeeps(s: State, g: nat)
    requires SafeState(s) && NextState(s, Store(g)).Some?
    ensures SafeState(NextState(s, Store(g)).value)
  {
    StepIsQuiet(s.pools[g], Publish);
    QuietKeeps(s, g, Next(s.pools[g], Publish).value, Some(g));
  }

  lemma LetGoKeeps(s: State, g: nat)
    requires SafeState(s) && NextState(s, LetGo(g)).Some?
    ensures SafeState(NextState(s, LetGo(g)).value)
  {
    StepIsQuiet(s.pools[g], BeginDrop);
    QuietKeeps(s, g, Next(s.pools[g], BeginDrop).value, s.active);
  }

  lemma BeginBuildKeeps(s: State, size: nat)
    requires SafeState(s) && size > 0
    ensures SafeState(s.(pools := s.pools + [NewPool(size)], counters := s.counters + [0]))
  {
    var t := s.(pools := s.pools + [NewPool(size)], counters := s.counters + [0]);
    forall q | 0 <= q < |t.calls| ensures CallOk(t.pools, q, t.calls[q]) {
      assert CallOk(s.pools, q, s.calls[q]);
    }
    forall g | 0 <= g < |t.pools| ensures Inv(t.pools[g]) && AllLinked(t.calls, g, t.pools[g]) {
      if g < |s.pools| { assert Inv(s.pools[g]) && AllLinked(s.calls, g, s.pools[g]); }
    }
  }

  lemma LoadKeeps(s: State, request: Request)
    requires SafeState(s) && s.active.Some?
    ensures SafeState(NextState(s, Load(request)).value)
  {
    var t := NextState(s, Load(request)).value;
    forall q | 0 <= q < |t.calls| ensures CallOk(t.pools, q, t.calls[q]) {
      if q < |s.calls| { assert CallOk(s.pools, q, s.calls[q]); }
    }
    forall g | 0 <= g < |t.pools| ensures AllLinked(t.calls, g, t.pools[g]) {
      assert AllLinked(s.calls, g, s.pools[g]);
      forall w | 0 <= w < |t.pools[g].workers| ensures Linked(t.calls, g, w, t.pools[g].workers[w]) {
        assert Linked(s.calls, g, w, s.pools[g].workers[w]);
      }
    }
  }

  /** Every step of the engine, of a pool or of a call keeps the invariant. */
  lemma NextKeeps(s: State, a: Action)
    requires SafeState(s) && NextState(s, a).Some?
    ensures SafeState(NextState(s, a).value)
  {
    match a
    case BeginBuild(size) => BeginBuildKeeps(s, size);
    case Inside(g, step, value) => InsideKeeps(s, g, step, value);
    case Store(g) => StoreKeeps(s, g);
    case LetGo(g) => LetGoKeeps(s, g);
    case Shutdown =>
    case Load(request) => LoadKeeps(s, request);
    case Check(q) => CheckKeeps(s, q);
    case Draw(q) => DrawKeeps(s, q);
    case Try(q) => TryKeeps(s, q);
    case GiveUp(q) => GiveUpKeeps(s, q);
    case TakeReply(q) => TakeReplyKeeps(s, q);
    case _ => InterruptKeeps(s, a);
  }
}
