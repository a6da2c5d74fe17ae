/** The engine's imperative code: the probe loop of `QueryPool::query`, the interrupt guard, the loop that
    collects the workers' ready messages, and a worker's receive loop. */
module EngineThreads {
  import opened Wrappers
  import opened WorkerPool
  import opened Gateway
  import opened GatewayInvariant
  import opened GatewayProperties
  import opened GatewayGenerations

  // ----- other threads -----

  predicate ActsOn(a: Action, q: nat) { IsCallStep(a) && a.q == q }

  lemma WorkersAfterStep(p: Pool, step: PoolStep)
    requires p.phase == Open && Next(p, step).Some?
    ensures |Next(p, step).value.workers| == |p.workers|
  {
  }

  lemma OpenPoolKeepsItsWorkers(s: State, a: Action, g: nat)
    requires SafeState(s) && NextState(s, a).Some? && g < |s.pools| && s.pools[g].phase == Open
    ensures g < |NextState(s, a).value.pools|
    ensures |NextState(s, a).value.pools[g].workers| == |s.pools[g].workers|
  {
    StepOnIsRight(s, a, g);
    if StepOn(s, a, g).Some? { WorkersAfterStep(s.pools[g], StepOn(s, a, g).value); }
  }

  lemma OtherStepLeavesCall(s: State, a: Action, q: nat)
    requires SafeState(s) && NextState(s, a).Some? && q < |s.calls| && !ActsOn(a, q) && s.calls[q].home.None?
    ensures q < |NextState(s, a).value.calls| && NextState(s, a).value.calls[q] == s.calls[q]
  {
    if a.Inside? {
      InsideLeaves(s, a.g, a.step, a.value, q);
    } else if IsCallStep(a) {
      assert CallOk(s.pools, a.q, s.calls[a.q]);
      CallStepExtends(s, a);
    }
  }

  lemma OtherStepLeaves(s: State, a: Action, q: nat)
    requires SafeState(s) && NextState(s, a).Some? && q < |s.calls| && !ActsOn(a, q)
    requires Unfinished(s.calls[q]) && s.calls[q].home.None?
    ensures var t := NextState(s, a).value;
            && q < |t.calls| && t.calls[q] == s.calls[q]
            && s.calls[q].pool < |s.pools| && s.calls[q].pool < |t.pools|
            && |t.pools[s.calls[q].pool].workers| == |s.pools[s.calls[q].pool].workers|
  {
    assert CallOk(s.pools, q, s.calls[q]);
    OpenPoolKeepsItsWorkers(s, a, s.calls[q].pool);
    OtherStepLeavesCall(s, a, q);
  }

  lemma InsideLeaves(s: State, g: nat, step: PoolStep, value: int, q: nat)
    requires SafeState(s) && g < |s.pools| && NextInside(s, g, step, value).Some?
    requires q < |s.calls| && s.calls[q].home.None?
    ensures |NextInside(s, g, step, value).value.calls| == |s.calls|
    ensures NextInside(s, g, step, value).value.calls[q] == s.calls[q]
  {
  }

  lemma {:induction false} OthersLeave(s: State, actions: seq<Action>, q: nat)
    requires SafeState(s) && Execute(s, actions).Some? && q < |s.calls|
    requires Unfinished(s.calls[q]) && s.calls[q].home.None?
    requires forall a :: a in actions ==> !ActsOn(a, q)
    ensures var t := Execute(s, actions).value;
            && SafeState(t)
            && q < |t.calls| && t.calls[q] == s.calls[q] && s.calls[q].pool < |s.pools| && s.calls[q].pool < |t.pools|
            && |t.pools[s.calls[q].pool].workers| == |s.pools[s.calls[q].pool].workers|
  {
    if actions == [] {
      assert CallOk(s.pools, q, s.calls[q]);
    } else {
      var (init, last) := (actions[..|actions| - 1], actions[|actions| - 1]);
      assert last in actions && forall a :: a in init ==> a in actions;
      OthersLeave(s, init, q);
      OtherStepLeaves(Execute(s, init).value, last, q);
      NextKeeps(Execute(s, init).value, last);
    }
  }

  lemma {:induction false} ExecuteConcat(s: State, first: seq<Action>, second: seq<Action>)
    requires Execute(s, first).Some?
    ensures Execute(s, first + second) == Execute(Execute(s, first).value, second)
  {
    if second == [] {
      assert first + second == first;
    } else {
      var init := second[..|second| - 1];
      ExecuteConcat(s, first, init);
      assert (first + second)[..|first + second| - 1] == first + init;
    }
  }

  lemma {:induction false} ExecuteOne(s: State, actions: seq<Action>, a: Action, t: State)
    requires Execute(s, actions) == Some(t)
    ensures Execute(s, actions + [a]) == NextState(t, a)
  {
  }

  // ----- what `reload` goes through -----

  lemma {:induction false} OthersBuild(s: State, made: seq<Action>, g: nat)
    requires SafeState(s) && Execute(s, made).Some? && g < |s.pools| && s.active != Some(g) && Store(g) !in made
    ensures var t := Execute(s, made).value;
            && SafeState(t) && g < |t.pools| && t.active != Some(g)
            && ((forall a :: a in made ==> !a.Store? && !a.Shutdown?) ==> t.active == s.active)
  {
    ExecuteKeeps(s, made);
    PoolsRunAlone(s, made, g);
    ActiveWasStored(s, made, g);
    if forall a :: a in made ==> !a.Store? && !a.Shutdown? { OnlyStoreReplaces(s, made); }
  }

  lemma {:induction false} BuildBegins(s: State, size: nat)
    requires SafeState(s) && size > 0
    ensures NextState(s, BeginBuild(size)).Some?
    ensures var t := NextState(s, BeginBuild(size)).value;
            && SafeState(t) && Execute(s, [BeginBuild(size)]) == Some(t)
            && t.active == s.active && |t.pools| == |s.pools| + 1
  {
    NextKeeps(s, BeginBuild(size));
    ExecuteOne(s, [], BeginBuild(size), s);
    assert [] + [BeginBuild(size)] == [BeginBuild(size)];
  }

  lemma {:induction false} StoreCompletes(first: State, trace: seq<Action>, s: State, g: nat)
    requires SafeState(s) && Execute(first, trace) == Some(s) && g < |s.pools| && s.pools[g].phase == Built
    ensures NextState(s, Store(g)).Some?
    ensures var t := NextState(s, Store(g)).value;
            && SafeState(t) && Execute(first, trace + [Store(g)]) == Some(t)
            && t.active == Some(g) && g < |t.pools| && t.pools[g].phase == Open && Complete(t.pools[g])
  {
    NextKeeps(s, Store(g));
    ExecuteOne(first, trace, Store(g), s);
    OpenIsComplete(NextState(s, Store(g)).value.pools[g]);
  }

  // ----- what the probe loop goes through -----

  /** The message is in the slot of worker `w` of the call's generation. */
  predicate AcceptedBy(s: State, q: nat, w: nat) {
    && q < |s.calls| && s.calls[q].stage == Waiting(w) && s.calls[q].home == Some(w)
    && QueuedAt(s, q, s.calls[q].pool, w)
  }

  predicate RefusedByAll(s: State, q: nat) {
    && q < |s.calls| && s.calls[q].outcomes == [NoWorker] && s.calls[q].pool < |s.pools|
    && |s.calls[q].refusals| == |s.pools[s.calls[q].pool].workers|
  }

  /** The loop is at `offset`, and the run so far is `trace`. */
  ghost predicate ProbingAt(first: State, trace: seq<Action>, s: State, q: nat, g: nat, n: nat, start: nat,
                            offset: nat) {
    && SafeState(s) && Execute(first, trace) == Some(s)
    && q < |s.calls| && s.calls[q].pool == g < |s.pools| && |s.pools[g].workers| == n
    && s.calls[q].stage == Probing(start, offset) && s.calls[q].home.None?
  }

  lemma DrawBegins(s: State, q: nat)
    requires SafeState(s) && q < |s.calls| && s.calls[q].stage.Checked?
    ensures NextState(s, Draw(q)).Some? && s.calls[q].pool < |s.pools|
    ensures var t := NextState(s, Draw(q)).value;
            && q < |t.calls| && t.calls[q].stage.Probing?
            && var (g, start) := (s.calls[q].pool, t.calls[q].stage.start);
               ProbingAt(s, [Draw(q)], t, q, g, |s.pools[g].workers|, start, 0)
  {
    assert CallOk(s.pools, q, s.calls[q]);
    NextKeeps(s, Draw(q));
    ExecuteOne(s, [], Draw(q), s);
    assert [] + [Draw(q)] == [Draw(q)];
  }

  lemma {:induction false} OthersKeepProbing(first: State, trace: seq<Action>, s: State, q: nat, g: nat, n: nat,
                                             start: nat, offset: nat, made: seq<Action>)
    requires ProbingAt(first, trace, s, q, g, n, start, offset) && Execute(s, made).Some?
    requires forall a :: a in made ==> !ActsOn(a, q)
    ensures ProbingAt(first, trace + made, Execute(s, made).value, q, g, n, start, offset)
  {
    OthersLeave(s, made, q);
    ExecuteConcat(first, trace, made);
  }

  /** The call is about to try the worker at `offset`. */
  predicate Trying(s: State, q: nat, g: nat, n: nat, start: nat, offset: nat) {
    && q < |s.calls| && s.calls[q].pool == g < |s.pools| && g < |s.counters| && |s.pools[g].workers| == n
    && s.calls[q].stage == Probing(start, offset) && s.calls[q].home.None? && offset < n
  }

  lemma TryIsPossible(s: State, q: nat, g: nat, n: nat, start: nat, offset: nat)
    requires Trying(s, q, g, n, start, offset)
    ensures NextState(s, Try(q)) == Some(Tried(s, q, (start + offset) % n))
  {
  }

  lemma TriedResult(s: State, q: nat, g: nat, n: nat, start: nat, offset: nat, w: nat)
    requires Trying(s, q, g, n, start, offset) && w < n
    ensures var t := Tried(s, q, w);
            if Next(s.pools[g], Offer(w, q)).None?
            then t.pools == s.pools && |t.calls| == |s.calls| && t.calls[q].pool == g && t.calls[q].home.None?
                 && t.calls[q].stage == Probing(start, offset + 1)
            else AcceptedBy(t, q, w)
  {
  }

  lemma {:induction false} TryProbes(first: State, trace: seq<Action>, s: State, q: nat, g: nat, n: nat, start: nat,
                                     offset: nat)
    requires ProbingAt(first, trace, s, q, g, n, start, offset) && offset < n
    ensures var w := (start + offset) % n;
            var t := Tried(s, q, w);
            && SafeState(t) && Execute(first, trace + [Try(q)]) == Some(t)
            && if Next(s.pools[g], Offer(w, q)).None?
               then ProbingAt(first, trace + [Try(q)], t, q, g, n, start, offset + 1)
               else AcceptedBy(t, q, w)
  {
    var w := (start + offset) % n;
    TryIsPossible(s, q, g, n, start, offset);
    TriedResult(s, q, g, n, start, offset, w);
    TryMakesOne(first, trace, s, q, Tried(s, q, w));
  }

  lemma {:induction false} TryMakesOne(first: State, trace: seq<Action>, s: State, q: nat, t: State)
    requires SafeState(s) && Execute(first, trace) == Some(s) && NextState(s, Try(q)) == Some(t)
    ensures SafeState(t) && Execute(first, trace + [Try(q)]) == Some(t)
  {
    NextKeeps(s, Try(q));
    ExecuteOne(first, trace, Try(q), s);
  }

  lemma {:induction false} GiveUpEnds(first: State, trace: seq<Action>, s: State, q: nat, g: nat, n: nat, start: nat)
    requires ProbingAt(first, trace, s, q, g, n, start, n)
    ensures NextState(s, GiveUp(q)).Some?
    ensures var t := NextState(s, GiveUp(q)).value;
            SafeState(t) && Execute(first, trace + [GiveUp(q)]) == Some(t) && RefusedByAll(t, q)
  {
    assert CallOk(s.pools, q, s.calls[q]);
    NextKeeps(s, GiveUp(q));
    ExecuteOne(first, trace, GiveUp(q), s);
  }

  // ----- the engine -----

  /** The pools with one message more, in the slot of worker `w` of pool `g`. */
  function WithSlot(pools: seq<Pool>, g: nat, w: nat, message: Message): seq<Pool>
    requires g < |pools| && w < |pools[g].workers|
  {
    pools[g := WithWorker(pools[g], w, pools[g].workers[w].(slot := Some(message)))]
  }

  class Engine {
    var state: State

    constructor ()
      ensures state == START && SafeState(state)
    {
      state := START;
    }

    /** What other threads do, if they can. */
    method Others(actions: seq<Action>) returns (ghost made: seq<Action>)
      modifies this
      ensures Execute(old(state), made) == Some(state)
      ensures made == [] || made == actions
    {
      var after := Execute(state, actions);
      if after.Some? {
        state := after.value;
        return actions;
      }
      return [];
    }

    /** `try_send` of the call's message to worker `w`. It comes back exactly if the worker's slot is full or the
        worker is gone; otherwise it is in that slot. No other worker and no other call notices. */
    method TrySend(q: nat, w: nat) returns (returned: bool)
      requires SafeState(state) && q < |state.calls| && state.calls[q].stage.Probing?
      requires state.calls[q].pool < |state.pools| && w < |state.pools[state.calls[q].pool].workers|
      modifies this
      ensures state == Tried(old(state), q, w)
      ensures q < |state.calls| && state.calls == old(state).calls[q := state.calls[q]]
      ensures var k := old(state).pools[old(state).calls[q].pool].workers[w];
              returned <==> k.slot.Some? || k.stage.Gone?
      ensures returned ==> state.pools == old(state).pools && state.calls[q].stage.Probing?
      ensures !returned ==>
                && state.pools == WithSlot(old(state).pools, old(state).calls[q].pool, w, Query(q))
                && state.calls[q].stage == Waiting(w)
    {
      var c := state.calls[q];
      var k := state.pools[c.pool].workers[w];
      assert CallOk(state.pools, q, c);
      if k.slot.Some? || k.stage.Gone? {
        var refusals := c.refusals + [Refusal(w, k)];
        var refused := c.(stage := Probing(c.stage.start, c.stage.offset + 1), refusals := refusals);
        state := WithCall(state, q, refused);
        return true;
      }
      state := WithCall(state, q, Accepted(c, w)).(pools := WithSlot(state.pools, c.pool, w, Query(q)));
      return false;
    }

    /** `reload`: a new pool is built, while other threads go on, and stored if it is complete. `during` holds the
        steps of the constructor and of everybody else, other reloads among them; nobody else can store a pool
        that this call has not handed out. A failed build changes nothing about the active pool by itself. */
    method Reload(size: nat, during: seq<Action>) returns (stored: bool, ghost trace: seq<Action>)
      requires SafeState(state) && size > 0
      requires Store(|state.pools|) !in during
      modifies this
      ensures Execute(old(state), trace) == Some(state) && SafeState(state) && |old(state).pools| < |state.pools|
      ensures stored <==> Store(|old(state).pools|) in trace
      ensures stored ==> trace[|trace| - 1] == Store(|old(state).pools|) && state.active == Some(|old(state).pools|)
      ensures stored ==> state.pools[|old(state).pools|].phase == Open && Complete(state.pools[|old(state).pools|])
      ensures !stored ==> state.active != Some(|old(state).pools|) && state.pools[|old(state).pools|].phase != Built
      ensures !stored && (forall a :: a in during ==> !a.Store? && !a.Shutdown?) ==> state.active == old(state).active
    {
      ghost var first := state;
      var g := |state.pools|;
      BuildBegins(state, size);
      state := NextState(state, BeginBuild(size)).value;
      ghost var begun := state;
      ghost var made := Others(during);
      OthersBuild(begun, made, g);
      trace := [BeginBuild(size)] + made;
      ExecuteConcat(first, [BeginBuild(size)], made);
      if state.pools[g].phase != Built { return false, trace; }
      StoreCompletes(first, trace, state, g);
      state := NextState(state, Store(g)).value;
      return true, trace + [Store(g)];
    }

    /** The counter and the probe loop of `query`, for a call past the guard. `between(k)` is what other
        threads do before the `k`th `try_send`. What the loop does is a run of the step system; it ends with
        the message at the selected worker, or handed back by every worker in turn. */
    method Probe(q: nat, between: nat -> seq<Action>) returns (selected: Option<nat>, ghost trace: seq<Action>)
      requires SafeState(state) && q < |state.calls| && state.calls[q].stage.Checked?
      requires forall k, a :: a in between(k) ==> !ActsOn(a, q)
      modifies this
      ensures Execute(old(state), trace) == Some(state) && SafeState(state)
      ensures if selected.Some? then AcceptedBy(state, q, selected.value) else RefusedByAll(state, q)
    {
      ghost var first := state;
      DrawBegins(state, q);
      var g := state.calls[q].pool;
      var n := |state.pools[g].workers|;
      state := NextState(state, Draw(q)).value;
      trace := [Draw(q)];
      var start := state.calls[q].stage.start;
      selected := None;
      for offset := 0 to n
        invariant ProbingAt(first, trace, state, q, g, n, start, offset)
      {
        ghost var before := state;
        ghost var made := Others(between(offset));
        OthersKeepProbing(first, trace, before, q, g, n, start, offset, made);
        trace := trace + made;
        var index := (start + offset) % n;
        ghost var asked := state;
        TryProbes(first, trace, asked, q, g, n, start, offset);
        trace := trace + [Try(q)];
        var returned := TrySend(q, index);
        if !returned {
          selected := Some(index);
          return;
        }
      }
      GiveUpEnds(first, trace, state, q, g, n, start);
      trace := trace + [GiveUp(q)];
      state := NextState(state, GiveUp(q)).value;
    }
  }

  // ----- the interrupt guard -----

  /** A worker's interrupt handle, and how often it has been fired. */
  class InterruptHandle {
    var fired: nat

    constructor ()
      ensures fired == 0
    {
      fired := 0;
    }

    method Interrupt()
      modifies this
      ensures fired == old(fired) + 1
    {
      fired := fired + 1;
    }
  }

  class InterruptOnDrop {
    const handle: InterruptHandle
    var armed: bool

    constructor (handle: InterruptHandle)
      ensures armed && this.handle == handle
    {
      this.handle := handle;
      armed := true;
    }

    method Disarm()
      modifies this
      ensures !armed
    {
      armed := false;
    }

    method Drop()
      modifies handle
      ensures handle.fired == old(handle.fired) + if armed then 1 else 0
    {
      if armed { handle.Interrupt(); }
    }
  }

  /** What ends the wait of an accepted call: its reply, the deadline, or its caller going away. */
  datatype Wake = Replied(reply: Reply) | Elapsed | Abandoned

  /** The end of `query`: the guard fires exactly if the wait is cut short. */
  method Await(handle: InterruptHandle, wake: Wake) returns (outcome: Outcome)
    requires wake.Replied? ==> wake.reply != Pending
    modifies handle
    ensures outcome ==
            match wake
            case Replied(Sent(value)) => Answered(value)
            case Replied(_) => WorkerLost
            case Elapsed => TimedOut
            case Abandoned => Cancelled
    ensures handle.fired == old(handle.fired) + if CutShort(outcome) then 1 else 0
  {
    var guard := new InterruptOnDrop(handle);
    match wake {
      case Replied(reply) =>
        guard.Disarm();
        outcome := if reply.Sent? then Answered(reply.value) else WorkerLost;
      case Elapsed =>
        outcome := TimedOut;
      case Abandoned =>
        outcome := Cancelled;
    }
    guard.Drop();
  }

  // ----- construction -----

  /** The loop of `new` over the ready messages. It succeeds exactly if every worker is ready, and then gives
      the handles in the workers' order and the union of their relations. */
  method CollectReady(signals: seq<Signal>) returns (r: Result<(seq<nat>, set<string>), nat>)
    requires forall i :: 0 <= i < |signals| ==> signals[i] != Signal.Unsent
    ensures r.Success? <==> forall i :: 0 <= i < |signals| ==> signals[i].Ready?
    ensures r.Success? ==> r.value == (Handles(signals), Found(signals))
    ensures r.Failure? ==>
              r.error < |signals| && !signals[r.error].Ready? && forall i :: 0 <= i < r.error ==> signals[i].Ready?
  {
    var interrupts: seq<nat> := [];
    var relations: set<string> := {};
    var index: nat := 0;
    while index < |signals|
      invariant index <= |signals|
      invariant forall i :: 0 <= i < index ==> signals[i].Ready?
      invariant interrupts == Handles(signals[..index])
      invariant relations == Found(signals[..index])
    {
      assert signals[..index + 1][..index] == signals[..index];
      match signals[index] {
        case Ready(handle, found) =>
          interrupts := interrupts + [handle];
          relations := relations + found;
        case _ =>
          return Failure(index);
      }
      index := index + 1;
    }
    assert signals[..|signals|] == signals;
    return Success((interrupts, relations));
  }

  // ----- a worker's loop -----

  /** The queries in front of the first `Stop`. */
  function BeforeStop(messages: seq<Message>): seq<nat> {
    if messages == [] || messages[0].Stop? then [] else [messages[0].id] + BeforeStop(messages[1..])
  }

  /** `while let Ok(message) = receiver.recv()`, on all the messages the channel delivers before it is
      disconnected: every query accepted before the `Stop` is answered, in order, and nothing after it. */
  method WorkerLoop(messages: seq<Message>) returns (answered: seq<nat>)
    ensures answered == BeforeStop(messages)
  {
    answered := [];
    var at := 0;
    while at < |messages|
      invariant at <= |messages|
      invariant BeforeStop(messages) == answered + BeforeStop(messages[at..])
    {
      match messages[at] {
        case Query(id) =>
          answered := answered + [id];
        case Stop =>
          assert BeforeStop(messages[at..]) == [];
          return;
      }
      at := at + 1;
    }
  }

  /** Without a `Stop` every message is taken; the first `Stop` cuts the queue. */
  lemma {:induction false} BeforeStopMeaning(queries: seq<nat>, rest: seq<Message>)
    requires rest == [] || rest[0].Stop?
    ensures BeforeStop(Queries(queries) + rest) == queries
  {
    if queries == [] {
      assert Queries(queries) + rest == rest;
    } else {
      BeforeStopMeaning(queries[1..], rest);
      var all := Queries(queries) + rest;
      assert all[1..] == Queries(queries[1..]) + rest;
      assert queries == [queries[0]] + queries[1..];
    }
  }

  function Queries(ids: seq<nat>): seq<Message> { seq(|ids|, i requires 0 <= i < |ids| => Query(ids[i])) }
}
