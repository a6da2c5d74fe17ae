/** Whole runs of one pool: how it is built, how it drains, and that both come to an end. */
module PoolRuns {
  import opened Wrappers
  import opened WorkerPool

  /** A run makes only possible steps. */
  function Run(p: Pool, steps: seq<PoolStep>): Option<Pool> {
    if steps == [] then Some(p)
    else
      var q :- Run(p, steps[..|steps| - 1]);
      Next(q, steps[|steps| - 1])
  }

  lemma {:induction false} RunKeeps(p: Pool, steps: seq<PoolStep>)
    requires Inv(p) && Run(p, steps).Some?
    ensures Inv(Run(p, steps).value)
  {
    if steps != [] {
      RunKeeps(p, steps[..|steps| - 1]);
      StepKeeps(Run(p, steps[..|steps| - 1]).value, steps[|steps| - 1]);
    }
  }

  // ----- construction -----

  /** However the workers' startups interleave, a pool that `new` returns has one idle worker for each
      sender, the interrupt handle at each index is that worker's, and the relations are the union of
      what the workers found. */
  lemma {:induction false} ConstructionSucceeds(size: nat, steps: seq<PoolStep>, p: Pool)
    requires Run(NewPool(size), steps) == Some(p) && p.phase == Built
    ensures |p.workers| == |p.interrupts| == size == p.size
    ensures forall w :: 0 <= w < size ==>
              p.interrupts[w] == w && p.workers[w].stage == Idle && p.workers[w].slot.None?
    ensures forall x :: x in p.relations <==>
              exists w :: 0 <= w < size && p.workers[w].signal.Ready? && x in p.workers[w].signal.relations
  {
    RunKeeps(NewPool(size), steps);
    RunKeepsSize(NewPool(size), steps);
    var signals := Signals(p.workers, size);
    forall w | 0 <= w < size
      ensures p.interrupts[w] == w && p.workers[w].stage == Idle && p.workers[w].slot.None?
    {
      assert WorkerOk(p.phase, w, p.workers[w]) && signals[w].Ready?;
    }
    forall x ensures x in p.relations <==>
                     exists w :: 0 <= w < size && p.workers[w].signal.Ready? && x in p.workers[w].signal.relations
    {
      FoundMeaning(signals, x);
      assert forall i :: 0 <= i < |signals| ==> signals[i] == p.workers[i].signal;
    }
  }

  lemma {:induction false} RunKeepsSize(p: Pool, steps: seq<PoolStep>)
    requires Run(p, steps).Some?
    ensures Run(p, steps).value.size == p.size
  {
    if steps != [] { RunKeepsSize(p, steps[..|steps| - 1]); }
  }

  /** The constructing thread never blocks for good: if its next receive or send has to wait, then a
      worker it waits for has a step of its own. A send of `Stop` never waits. */
  lemma ConstructorIsNeverStuck(p: Pool)
    requires Inv(p)
    ensures p.phase.Spawning? ==> Next(p, Spawn).Some? || Next(p, Spawned).Some?
    ensures p.phase.Collecting? ==>
              || Next(p, Collect).Some?
              || Next(p, Return).Some?
              || (p.phase.done < |p.workers| &&
                  (Next(p, InitFail(p.phase.done)).Some? || Next(p, Exit(p.phase.done)).Some?))
    ensures p.phase.Aborting? ==> Next(p, Abort).Some? || Next(p, Aborted).Some?
  {
    if (p.phase.Collecting? || p.phase.Aborting?) && p.phase.done < |p.workers| {
      assert WorkerOk(p.phase, p.phase.done, p.workers[p.phase.done]);
    }
  }

  // ----- termination -----

  function StageRank(stage: Stage): nat {
    match stage
    case Gone => 0
    case Leaving => 1
    case Idle => 2
    case Busy(_) => 3
    case Starting => 3
  }

  /** How many steps a worker still makes: those of its stage, and two for a message it has not taken. */
  function Backlog(k: Worker): nat { StageRank(k.stage) + if k.slot.Some? then 2 else 0 }

  function Backlogs(workers: seq<Worker>): nat {
    if workers == [] then 0 else Backlogs(workers[..|workers| - 1]) + Backlog(workers[|workers| - 1])
  }

  /** What the owner's side can still add. */
  function PhaseRank(p: Pool): nat
    requires Shape(p)
  {
    match p.phase
    case Spawning => 4 * (p.size - |p.workers|) + 4 * p.size + 5
    case Collecting(done) => (p.size - done) + 3 * p.size + 4
    case Built => 3 * p.size + 3
    case Open => 3 * p.size + 2
    case Dropping(done) => 3 * (p.size - done) + 1
    case Aborting(done) => 3 * (p.size - done) + 1
    case Closed => 0
  }

  function Measure(p: Pool): nat
    requires Shape(p)
  {
    PhaseRank(p) + Backlogs(p.workers)
  }

  lemma {:induction false} BacklogsAfter(workers: seq<Worker>, w: nat, k: Worker)
    requires w < |workers|
    ensures Backlogs(workers[w := k]) == Backlogs(workers) - Backlog(workers[w]) + Backlog(k)
  {
    var (n, after) := (|workers| - 1, workers[w := k]);
    if w == n {
      assert after[..n] == workers[..n];
    } else {
      BacklogsAfter(workers[..n], w, k);
      assert after[..n] == workers[..n][w := k];
    }
  }

  lemma WorkerStepDecreases(k: Worker, a: PoolStep, disconnected: bool)
    requires NextWorker(k, a, disconnected).Some?
    ensures Backlog(NextWorker(k, a, disconnected).value) < Backlog(k)
  {
  }

  lemma OneWorkerDecreases(p: Pool, w: nat, k: Worker)
    requires Shape(p) && w < |p.workers|
    ensures Shape(WithWorker(p, w, k))
    ensures Measure(WithWorker(p, w, k)) == Measure(p) - Backlog(p.workers[w]) + Backlog(k)
  {
    BacklogsAfter(p.workers, w, k);
  }

  lemma StopDecreases(p: Pool, phase: Phase)
    requires Shape(p)
    requires || (p.phase.Aborting? && p.phase.done < |p.workers| && phase == Aborting(p.phase.done + 1))
             || (p.phase.Dropping? && p.phase.done < |p.workers| && phase == Dropping(p.phase.done + 1))
    ensures Shape(Stopped(p, p.phase.done, phase))
    ensures Measure(Stopped(p, p.phase.done, phase)) < Measure(p)
  {
    var (w, k) := (p.phase.done, p.workers[p.phase.done]);
    if k.Takes() { BacklogsAfter(p.workers, w, k.(slot := Some(Stop))); }
  }

  /** Steps of the constructor and the owner that send nothing. */
  predicate IsPhaseStep(a: PoolStep) {
    || a.Spawn? || a.SpawnFail? || a.Spawned? || a.Collect? || a.Return? || a.Aborted? || a.Publish? || a.BeginDrop?
    || a.Dropped?
  }

  lemma PhaseStepDecreases(p: Pool, a: PoolStep)
    requires Shape(p) && IsPhaseStep(a) && Next(p, a).Some? && Shape(Next(p, a).value)
    ensures Measure(Next(p, a).value) < Measure(p)
  {
  }

  /** Every step but an accepted offer uses up some of the measure; an offer adds at most two. */
  lemma StepDecreases(p: Pool, a: PoolStep)
    requires Inv(p) && Next(p, a).Some?
    ensures Inv(Next(p, a).value)
    ensures Measure(Next(p, a).value) <= if a.Offer? then Measure(p) + 2 else Measure(p) - 1
  {
    StepKeeps(p, a);
    if IsPhaseStep(a) {
      PhaseStepDecreases(p, a);
    } else if a.Abort? {
      StopDecreases(p, Aborting(p.phase.done + 1));
    } else if a.TellStop? {
      StopDecreases(p, Dropping(p.phase.done + 1));
    } else if a.Offer? {
      OneWorkerDecreases(p, a.w, p.workers[a.w].(slot := Some(Query(a.id))));
    } else {
      WorkerStepDecreases(p.workers[a.w], a, p.phase == Closed);
      OneWorkerDecreases(p, a.w, NextWorker(p.workers[a.w], a, p.phase == Closed).value);
    }
  }

  function Offers(steps: seq<PoolStep>): nat {
    if steps == [] then 0
    else Offers(steps[..|steps| - 1]) + if steps[|steps| - 1].Offer? then 1 else 0
  }

  /** No run is longer than the measure it starts with and three steps for each accepted query: a pool
      that takes no more queries stops, with all its workers, after finitely many steps. */
  lemma {:induction false} RunsAreBounded(p: Pool, steps: seq<PoolStep>)
    requires Inv(p) && Run(p, steps).Some?
    ensures Inv(Run(p, steps).value)
    ensures |steps| + Measure(Run(p, steps).value) <= Measure(p) + 3 * Offers(steps)
  {
    if steps != [] {
      RunsAreBounded(p, steps[..|steps| - 1]);
      StepDecreases(Run(p, steps[..|steps| - 1]).value, steps[|steps| - 1]);
    }
  }

  /** The pool has no senders and no workers left. */
  predicate Drained(p: Pool) {
    p.phase == Closed && forall w :: 0 <= w < |p.workers| ==> p.workers[w].stage == Gone
  }

  /** The steps still open to a pool that its owner has let go of, and to one that failed to start. */
  ghost predicate CanStep(p: Pool) {
    exists a: PoolStep :: !a.Offer? && Next(p, a).Some?
  }

  lemma {:induction false} WorkerCanStep(p: Pool, w: nat)
    requires Inv(p) && p.phase == Closed && w < |p.workers| && p.workers[w].stage != Gone
    ensures CanStep(p)
  {
    var a := match p.workers[w].stage
      case Starting => InitFail(w)
      case Idle => Receive(w)
      case Busy(_) => Answer(w)
      case _ => Exit(w);
    assert !a.Offer? && Next(p, a).Some?;
  }

  /** Short of being drained, a pool always has a step to make, so its runs end only when every worker
      has stopped, whether its `Stop` was taken or refused. */
  lemma OnlyDrainedPoolsRest(p: Pool)
    requires Inv(p)
    ensures Drained(p) ==> !CanStep(p)
    ensures !Drained(p) ==> CanStep(p)
  {
    if !Drained(p) {
      ConstructorIsNeverStuck(p);
      if p.phase == Closed {
        var w :| 0 <= w < |p.workers| && p.workers[w].stage != Gone;
        WorkerCanStep(p, w);
      } else if p.phase.Spawning? {
        assert Next(p, Spawn).Some? || Next(p, Spawned).Some?;
      } else if p.phase.Collecting? {
        assert Next(p, Collect).Some? || Next(p, Return).Some? || Next(p, InitFail(p.phase.done)).Some?
               || Next(p, Exit(p.phase.done)).Some?;
      } else if p.phase.Aborting? {
        assert Next(p, Abort).Some? || Next(p, Aborted).Some?;
      } else if p.phase.Dropping? {
        assert Next(p, TellStop).Some? || Next(p, Dropped).Some?;
      } else {
        assert Next(p, BeginDrop).Some?;
      }
    }
  }

  /** The pool is on its way down: it is dropped, or its construction has failed. */
  predicate Down(p: Pool) { p.phase.Dropping? || p.phase.Aborting? || p.phase.Closed? }

  lemma DownStep(p: Pool, a: PoolStep)
    requires Down(p) && Next(p, a).Some?
    ensures Down(Next(p, a).value) && !a.Offer?
  {
  }

  lemma {:induction false} DownStaysDown(p: Pool, steps: seq<PoolStep>)
    requires Down(p) && Run(p, steps).Some?
    ensures Down(Run(p, steps).value) && Offers(steps) == 0
  {
    if steps != [] {
      DownStaysDown(p, steps[..|steps| - 1]);
      DownStep(Run(p, steps[..|steps| - 1]).value, steps[|steps| - 1]);
    }
  }

  /** A pool that is dropped, or whose construction fails, takes no query, makes at most `Measure(p)`
      more steps, and ends with no worker running. */
  lemma {:induction false} DownDrains(p: Pool, steps: seq<PoolStep>)
    requires Inv(p) && Down(p) && Run(p, steps).Some?
    ensures var q := Run(p, steps).value;
            |steps| <= Measure(p) && (CanStep(q) <==> !Drained(q))
  {
    DownStaysDown(p, steps);
    RunsAreBounded(p, steps);
    OnlyDrainedPoolsRest(Run(p, steps).value);
  }

  // ----- accepted queries -----

  /** The step a worker makes next, if nothing goes wrong. */
  function NextStepOf(w: nat, k: Worker): PoolStep {
    match k.stage
    case Starting => BecomeReady(w, {})
    case Idle => Receive(w)
    case Busy(_) => Answer(w)
    case _ => Exit(w)
  }

  /** An accepted query waits for nothing but its own worker: that worker always has a step, and each of its
      steps brings it closer to having taken up and answered what it holds. */
  lemma AcceptedIsNeverStuck(p: Pool, w: nat, a: PoolStep)
    requires Inv(p) && w < |p.workers| && (HasQuery(p.workers[w]) || p.workers[w].stage.Busy?)
    ensures Next(p, NextStepOf(w, p.workers[w])).Some?
    ensures IsWorkerStep(a) && a.w == w && Next(p, a).Some? ==>
              Backlog(Next(p, a).value.workers[w]) < Backlog(p.workers[w])
  {
    assert WorkerOk(p.phase, w, p.workers[w]);
    if IsWorkerStep(a) && a.w == w && Next(p, a).Some? {
      WorkerStepDecreases(p.workers[w], a, p.phase == Closed);
    }
  }

  /** A query stays in its slot until its worker takes it up; only a worker that crashed loses it. So
      what was accepted before a drop is taken before the `Stop`. */
  lemma AcceptedIsTaken(p: Pool, a: PoolStep, w: nat)
    requires Inv(p) && Next(p, a).Some? && w < |p.workers| && HasQuery(p.workers[w])
    ensures var (k, after) := (p.workers[w], Next(p, a).value.workers[w]);
            || after.slot == k.slot
            || (a == Receive(w) && after.stage == Busy(k.slot.value.id))
            || (a == Exit(w) && k.crashed && after.stage == Gone)
  {
  }

  // ----- telling the workers to stop -----

  /** How a worker can start: it says that it is ready and what it found, says that it failed, or says nothing. One
      that leaves without a word is lost to the constructor. */
  lemma StartupMeaning(p: Pool, w: nat, found: set<string>)
    requires w < |p.workers|
    ensures var k := p.workers[w];
            && (k.stage == Starting ==>
                  && Next(p, BecomeReady(w, found)) ==
                     Some(WithWorker(p, w, k.(stage := Idle, signal := Ready(w, found))))
                  && Next(p, InitFail(w)) == Some(WithWorker(p, w, k.(stage := Leaving, signal := Failed)))
                  && Next(p, Crash(w)) == Some(WithWorker(p, w, k.(stage := Leaving, crashed := true))))
            && (k.stage == Leaving ==>
                  Next(p, Exit(w)) ==
                  Some(WithWorker(p, w, k.(stage := Gone, slot := None,
                                           signal := if k.signal == Unsent then Lost else k.signal))))
  {
  }

  /** What the constructor does with each worker's message: it keeps the handle and the relations of a worker that is
      ready, starts telling everybody to stop if one failed, and gives up if one is gone. */
  lemma CollectMeaning(p: Pool)
    requires p.phase.Collecting? && p.phase.done < |p.workers|
    ensures match p.workers[p.phase.done].signal
            case Unsent => Next(p, Collect).None?
            case Ready(handle, relations) =>
              Next(p, Collect) == Some(p.(interrupts := p.interrupts + [handle], relations := p.relations + relations,
                                          phase := Collecting(p.phase.done + 1)))
            case Failed => Next(p, Collect) == Some(p.(phase := Aborting(0)))
            case Lost => Next(p, Collect) == Some(p.(phase := Closed))
  {
  }

  /** Telling a worker to stop, by the constructor or by the drop, puts `Stop` into its slot if that is free; a
      message that is there stays. Nobody else notices. The drop never waits, the constructor waits for a free slot. */
  lemma TellMeaning(p: Pool, step: PoolStep)
    requires step == TellStop || step == Abort
    requires (if step == TellStop then p.phase.Dropping? else p.phase.Aborting?) && p.phase.done < |p.workers|
    ensures var (w, k) := (p.phase.done, p.workers[p.phase.done]);
            && (Next(p, step).Some? <==> step == TellStop || k.slot.None? || k.stage == Gone)
            && (Next(p, step).Some? ==>
                  var after := Next(p, step).value;
                  && after.phase == (if step == TellStop then Dropping(w + 1) else Aborting(w + 1))
                  && after.workers ==
                     p.workers[w := k.(slot := if k.stage == Gone || k.slot.Some? then k.slot else Some(Stop))]
                  && after.interrupts == p.interrupts && after.relations == p.relations && after.size == p.size)
  {
  }

  /** Once a construction has failed, every worker it has told has `Stop` in its slot or has left its loop. */
  predicate Told(p: Pool) {
    p.phase.Aborting? ==>
      forall w :: 0 <= w < p.phase.done && w < |p.workers| ==>
        p.workers[w].slot == Some(Stop) || !p.workers[w].Alive()
  }

  lemma ToldByOthers(p: Pool, a: PoolStep)
    requires Inv(p) && Told(p) && Next(p, a).Some? && !a.Abort?
    ensures Told(Next(p, a).value)
  {
  }

  lemma ToldByAbort(p: Pool)
    requires Inv(p) && Told(p) && Next(p, Abort).Some?
    ensures Told(Next(p, Abort).value)
  {
    var w := p.phase.done;
    assert WorkerOk(p.phase, w, p.workers[w]);
    TellMeaning(p, Abort);
  }

  lemma {:induction false} FailureStopsAll(p: Pool, steps: seq<PoolStep>)
    requires Inv(p) && Told(p) && Run(p, steps).Some?
    ensures Told(Run(p, steps).value)
  {
    if steps != [] {
      var (init, last) := (steps[..|steps| - 1], steps[|steps| - 1]);
      FailureStopsAll(p, init);
      RunKeeps(p, init);
      if last.Abort? {
        ToldByAbort(Run(p, init).value);
      } else {
        ToldByOthers(Run(p, init).value, last);
      }
    }
  }
}
