/** One generation of the query pool, from `QueryPool::new` to the end of its last worker, as a step
    system. A step is one point at which threads can interleave: a spawn, a send or receive on a
    channel, the end of a query, the drop of a sender. A step that is not possible is `None`. */
module WorkerPool {
  import opened Wrappers

  // ----- state -----

  datatype Message = Query(id: nat) | Stop

  /** `Starting` until the ready message; `Leaving` once the receive loop is left, by a break, a return
      or a panic, while the receiver still exists. */
  datatype Stage = Starting | Idle | Busy(id: nat) | Leaving | Gone

  /** What the constructor can receive on a worker's ready channel; `Lost` when its sender is dropped. */
  datatype Signal = Unsent | Ready(handle: nat, relations: set<string>) | Failed | Lost

  /** `slot` is the content of the worker's channel of capacity one. */
  datatype Worker = Worker(stage: Stage, slot: Option<Message>, signal: Signal, crashed: bool) {
    /** `try_send` would succeed. */
    predicate Takes() { stage != Gone && slot.None? }

    predicate Alive() { stage != Leaving && stage != Gone }
  }

  /** `Built` when `new` has returned the pool, `Open` when it is stored in the engine. `Closed` when
      its senders are dropped. */
  datatype Phase =
    | Spawning
    | Collecting(done: nat)
    | Aborting(done: nat)
    | Built
    | Open
    | Dropping(done: nat)
    | Closed

  datatype Pool = Pool(size: nat, workers: seq<Worker>, interrupts: seq<nat>, relations: set<string>, phase: Phase)

  function NewPool(size: nat): Pool { Pool(size, [], [], {}, Spawning) }

  datatype PoolStep =
    // the constructing thread
    | Spawn
    | SpawnFail
    | Spawned
    | Collect
    | Return
    | Abort
    | Aborted
    // the owner
    | Publish
    | Offer(w: nat, id: nat)
    | BeginDrop
    | TellStop
    | Dropped
    // worker w
    | BecomeReady(w: nat, found: set<string>)
    | InitFail(w: nat)
    | Receive(w: nat)
    | Answer(w: nat)
    | Crash(w: nat)
    | Exit(w: nat)

  predicate IsWorkerStep(a: PoolStep) {
    a.BecomeReady? || a.InitFail? || a.Receive? || a.Answer? || a.Crash? || a.Exit?
  }

  // ----- steps -----

  function WithWorker(p: Pool, w: nat, worker: Worker): Pool
    requires w < |p.workers|
  {
    p.(workers := p.workers[w := worker])
  }

  const FRESH := Worker(Starting, None, Unsent, false)

  function Next(p: Pool, a: PoolStep): Option<Pool> {
    match a
    case Spawn =>
      if p.phase == Spawning && |p.workers| < p.size then Some(p.(workers := p.workers + [FRESH])) else None
    case SpawnFail =>
      if p.phase == Spawning && |p.workers| < p.size then Some(p.(phase := Closed)) else None
    case Spawned =>
      if p.phase == Spawning && |p.workers| == p.size then Some(p.(phase := Collecting(0))) else None
    case Collect => NextCollect(p)
    case Return =>
      if p.phase == Collecting(|p.workers|) then Some(p.(phase := Built)) else None
    case Abort =>
      // a blocking send: possible when the slot is free or the receiver is gone
      if p.phase.Aborting? && p.phase.done < |p.workers| &&
         (p.workers[p.phase.done].Takes() || p.workers[p.phase.done].stage == Gone)
      then Some(Stopped(p, p.phase.done, Aborting(p.phase.done + 1)))
      else None
    case Aborted =>
      if p.phase == Aborting(|p.workers|) then Some(p.(phase := Closed)) else None
    case Publish =>
      if p.phase == Built then Some(p.(phase := Open)) else None
    case Offer(w, id) =>
      if p.phase == Open && w < |p.workers| && p.workers[w].Takes()
      then Some(WithWorker(p, w, p.workers[w].(slot := Some(Query(id)))))
      else None
    case BeginDrop =>
      if p.phase == Built || p.phase == Open then Some(p.(phase := Dropping(0))) else None
    case TellStop =>
      // `try_send`: a refused message is dropped
      if p.phase.Dropping? && p.phase.done < |p.workers|
      then Some(Stopped(p, p.phase.done, Dropping(p.phase.done + 1)))
      else None
    case Dropped =>
      if p.phase == Dropping(|p.workers|) then Some(p.(phase := Closed)) else None
    case _ =>
      if a.w < |p.workers| then
        var worker :- NextWorker(p.workers[a.w], a, p.phase == Closed);
        Some(WithWorker(p, a.w, worker))
      else None
  }

  /** `ready.recv()` on the channel of the next worker. */
  function NextCollect(p: Pool): Option<Pool> {
    if p.phase.Collecting? && p.phase.done < |p.workers| then
      match p.workers[p.phase.done].signal
      case Unsent => None
      case Ready(handle, relations) =>
        Some(p.(interrupts := p.interrupts + [handle], relations := p.relations + relations,
                phase := Collecting(p.phase.done + 1)))
      case Failed => Some(p.(phase := Aborting(0)))
      case Lost => Some(p.(phase := Closed))
    else None
  }

  function Stopped(p: Pool, w: nat, phase: Phase): Pool
    requires w < |p.workers|
  {
    if p.workers[w].Takes() then WithWorker(p, w, p.workers[w].(slot := Some(Stop))).(phase := phase)
    else p.(phase := phase)
  }

  /** The steps of one worker. `disconnected` says that its sender is dropped. */
  function NextWorker(k: Worker, a: PoolStep, disconnected: bool): Option<Worker> {
    match a
    case BecomeReady(w, found) =>
      if k.stage == Starting then Some(k.(stage := Idle, signal := Ready(w, found))) else None
    case InitFail(_) =>
      if k.stage == Starting then Some(k.(stage := Leaving, signal := Failed)) else None
    case Receive(_) =>
      if k.stage != Idle then None
      else
        (match k.slot
         case Some(Query(id)) => Some(k.(stage := Busy(id), slot := None))
         case Some(Stop) => Some(k.(stage := Leaving, slot := None))
         case None => if disconnected then Some(k.(stage := Leaving)) else None)
    case Answer(_) =>
      if k.stage.Busy? then Some(k.(stage := Idle)) else None
    case Crash(_) =>
      if k.stage == Starting || k.stage.Busy? then Some(k.(stage := Leaving, crashed := true)) else None
    case Exit(_) =>
      if k.stage == Leaving
      then Some(k.(stage := Gone, slot := None, signal := if k.signal == Unsent then Lost else k.signal))
      else None
    case _ => None
  }

  // ----- what the constructor has collected -----

  function Handles(signals: seq<Signal>): (r: seq<nat>)
    requires forall i :: 0 <= i < |signals| ==> signals[i].Ready?
    ensures |r| == |signals| && forall i :: 0 <= i < |r| ==> r[i] == signals[i].handle
  {
    seq(|signals|, i requires 0 <= i < |signals| => signals[i].handle)
  }

  /** The union of what the workers found registered. */
  function Found(signals: seq<Signal>): set<string> {
    if signals == [] then {}
    else
      var last := signals[|signals| - 1];
      Found(signals[..|signals| - 1]) + if last.Ready? then last.relations else {}
  }

  function Signals(workers: seq<Worker>, n: nat): (r: seq<Signal>)
    requires n <= |workers|
    ensures |r| == n && forall i :: 0 <= i < n ==> r[i] == workers[i].signal
  {
    seq(n, i requires 0 <= i < n => workers[i].signal)
  }

  lemma {:induction false} FoundMeaning(signals: seq<Signal>, x: string)
    ensures x in Found(signals) <==>
            exists i :: 0 <= i < |signals| && signals[i].Ready? && x in signals[i].relations
  {
    if signals != [] {
      var init := signals[..|signals| - 1];
      FoundMeaning(init, x);
      assert forall i :: 0 <= i < |init| ==> init[i] == signals[i];
    }
  }

  // ----- the invariant -----

  /** No query can have been offered yet. */
  predicate BeforeOpen(phase: Phase) {
    phase.Spawning? || phase.Collecting? || phase.Aborting? || phase.Built?
  }

  /** Worker `w` has not been told to stop, and its sender is not dropped. */
  predicate Untold(phase: Phase, w: nat) {
    match phase
    case Aborting(done) => done <= w
    case Dropping(done) => done <= w
    case Closed => false
    case _ => true
  }

  predicate HasQuery(k: Worker) { k.slot.Some? && k.slot.value.Query? }

  predicate WorkerOk(phase: Phase, w: nat, k: Worker) {
    && (k.stage == Starting ==> k.signal == Unsent && !HasQuery(k) && !k.crashed)
    && (k.stage == Idle || k.stage.Busy? ==> k.signal.Ready? && !k.crashed)
    && (k.stage == Gone ==> k.signal != Unsent && k.slot.None?)
    && (k.signal.Ready? ==> k.signal.handle == w)
    && (!k.Alive() && !k.crashed ==> !HasQuery(k))
    && (BeforeOpen(phase) ==> !HasQuery(k) && !k.stage.Busy? && (k.signal.Ready? ==> !k.crashed))
    && (phase.Built? || phase.Open? || phase.Dropping? ==> k.signal.Ready?)
    && (Untold(phase, w) ==> k.slot != Some(Stop) && (k.signal.Ready? && !k.crashed ==> k.Alive()))
  }

  /** How many ready messages the constructor has received. */
  function CollectedCount(p: Pool): nat {
    match p.phase
    case Collecting(done) => done
    case Built => p.size
    case Open => p.size
    case Dropping(_) => p.size
    case _ => 0
  }

  predicate Shape(p: Pool) {
    && (if p.phase.Spawning? || p.phase.Closed? then |p.workers| <= p.size else |p.workers| == p.size)
    && (p.phase.Aborting? || p.phase.Dropping? || p.phase.Collecting? ==> p.phase.done <= p.size)
    && (p.phase.Spawning? ==> p.interrupts == [] && p.relations == {})
  }

  /** Interrupts and relations are those of the workers collected so far, in order. */
  predicate Collected(p: Pool)
    requires Shape(p)
  {
    p.phase.Collecting? || p.phase.Built? || p.phase.Open? || p.phase.Dropping? ==>
      var signals := Signals(p.workers, CollectedCount(p));
      && (forall i :: 0 <= i < |signals| ==> signals[i].Ready?)
      && p.interrupts == Handles(signals)
      && p.relations == Found(signals)
  }

  ghost predicate Inv(p: Pool) {
    && Shape(p)
    && (forall w :: 0 <= w < |p.workers| ==> WorkerOk(p.phase, w, p.workers[w]))
    && Collected(p)
  }

  lemma WorkerStepKeeps(phase: Phase, w: nat, k: Worker, a: PoolStep)
    requires WorkerOk(phase, w, k) && (a.BecomeReady? ==> a.w == w)
    requires NextWorker(k, a, phase == Closed).Some?
    ensures var after := NextWorker(k, a, phase == Closed).value;
            WorkerOk(phase, w, after) && (k.signal.Ready? ==> after.signal == k.signal)
  {
  }

  lemma OneWorkerKeeps(p: Pool, w: nat, after: Worker)
    requires Inv(p) && w < |p.workers| && WorkerOk(p.phase, w, after)
    requires p.workers[w].signal.Ready? ==> after.signal == p.workers[w].signal
    ensures Inv(WithWorker(p, w, after))
  {
    var q := WithWorker(p, w, after);
    if p.phase.Collecting? || p.phase.Built? || p.phase.Open? || p.phase.Dropping? {
      assert forall i :: 0 <= i < CollectedCount(p) ==> Signals(p.workers, CollectedCount(p))[i].Ready?;
      assert Signals(q.workers, CollectedCount(q)) == Signals(p.workers, CollectedCount(p));
    }
  }

  lemma StopKeeps(p: Pool, phase: Phase)
    requires Inv(p)
    requires || (p.phase.Aborting? && p.phase.done < |p.workers| && phase == Aborting(p.phase.done + 1))
             || (p.phase.Dropping? && p.phase.done < |p.workers| && phase == Dropping(p.phase.done + 1))
    ensures Inv(Stopped(p, p.phase.done, phase))
  {
    var (w, q) := (p.phase.done, Stopped(p, p.phase.done, phase));
    assert WorkerOk(p.phase, w, p.workers[w]);
    if p.phase.Dropping? {
      assert Signals(q.workers, CollectedCount(q)) == Signals(p.workers, CollectedCount(p));
    }
  }

  lemma CollectKeeps(p: Pool)
    requires Inv(p) && NextCollect(p).Some?
    ensures Inv(NextCollect(p).value)
  {
    var (i, q) := (p.phase.done, NextCollect(p).value);
    if q.phase.Collecting? {
      var signals := Signals(q.workers, i + 1);
      assert signals[..i] == Signals(p.workers, i);
      assert Handles(signals) == Handles(signals[..i]) + [signals[i].handle];
    }
    forall w | 0 <= w < |q.workers| ensures WorkerOk(q.phase, w, q.workers[w]) {
      assert WorkerOk(p.phase, w, p.workers[w]);
    }
  }

  /** Steps that change only the phase. */
  predicate IsPhaseChange(a: PoolStep) {
    a.SpawnFail? || a.Spawned? || a.Return? || a.Aborted? || a.Publish? || a.BeginDrop? || a.Dropped?
  }

  lemma PhaseChangeKeeps(p: Pool, a: PoolStep)
    requires Inv(p) && IsPhaseChange(a) && Next(p, a).Some?
    ensures Inv(Next(p, a).value)
  {
    var q := Next(p, a).value;
    if a.Return? || a.Publish? || a.BeginDrop? {
      assert Signals(q.workers, CollectedCount(q)) == Signals(p.workers, CollectedCount(p));
    }
    forall w | 0 <= w < |q.workers| ensures WorkerOk(q.phase, w, q.workers[w]) {
      assert WorkerOk(p.phase, w, p.workers[w]);
      if a.Return? { assert Signals(p.workers, CollectedCount(p))[w].Ready?; }
    }
  }

  lemma SpawnKeeps(p: Pool)
    requires Inv(p) && Next(p, Spawn).Some?
    ensures Inv(Next(p, Spawn).value)
  {
  }

  /** Every step keeps the invariant, whichever thread makes it. */
  lemma StepKeeps(p: Pool, a: PoolStep)
    requires Inv(p) && Next(p, a).Some?
    ensures Inv(Next(p, a).value)
  {
    if IsPhaseChange(a) {
      PhaseChangeKeeps(p, a);
    } else if a.Spawn? {
      SpawnKeeps(p);
    } else if a.Collect? {
      CollectKeeps(p);
    } else if a.Abort? {
      StopKeeps(p, Aborting(p.phase.done + 1));
    } else if a.TellStop? {
      StopKeeps(p, Dropping(p.phase.done + 1));
    } else if a.Offer? {
      assert WorkerOk(p.phase, a.w, p.workers[a.w]);
      OneWorkerKeeps(p, a.w, p.workers[a.w].(slot := Some(Query(a.id))));
    } else {
      WorkerStepKeeps(p.phase, a.w, p.workers[a.w], a);
      OneWorkerKeeps(p, a.w, NextWorker(p.workers[a.w], a, p.phase == Closed).value);
    }
  }
}
