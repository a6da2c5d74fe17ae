/** The engine: a sequence of pool generations, the active one, and the calls that went through them,
    as one step system. It interleaves the steps of every pool with those of every call. */
module Gateway {
  import opened Wrappers
  import SqlGuard
  import opened WorkerPool

  // ----- state -----

  /** The text of a query, and what the parser makes of it. */
  datatype Request = Request(sql: string, parsed: Option<seq<SqlGuard.Statement>>)

  datatype Outcome =
    | Rejected(error: SqlGuard.GuardError)
    | NoWorker
    | Answered(value: int)
    | WorkerLost
    | TimedOut
    | Cancelled

  /** The state of the one-shot reply channel; `Hung` when its sender is dropped unused. */
  datatype Reply = Pending | Sent(value: int) | Hung

  /** A `try_send` that handed the message back, and the worker as it was then. */
  datatype Refusal = Refusal(w: nat, seen: Worker)

  datatype CallStage = Loaded | Checked | Probing(start: nat, offset: nat) | Waiting(w: nat) | Finished

  /** `pool` is the generation the call has loaded and `home` the worker that accepted it. `ran`,
      `outcomes` and `hits` record where it was run, how it ended and which interrupts it fired. */
  datatype Call = Call(
    request: Request, pool: nat, stage: CallStage, refusals: seq<Refusal>, home: Option<nat>, reply: Reply,
    ran: seq<(nat, nat)>, outcomes: seq<Outcome>, hits: seq<(nat, nat)>)

  datatype State = State(pools: seq<Pool>, counters: seq<nat>, active: Option<nat>, calls: seq<Call>)

  const START := State([], [], None, [])

  /** The counter is a 64-bit `AtomicUsize`. */
  const COUNTER_WIDTH := 0x1_0000_0000_0000_0000

  /** `fetch_add(1)`, which wraps around. */
  function Bumped(counter: nat): nat { if counter + 1 < COUNTER_WIDTH then counter + 1 else 0 }

  function Guard(request: Request, relations: set<string>): Option<SqlGuard.GuardError> {
    SqlGuard.ValidateReadOnly(request.sql, request.parsed, relations)
  }

  // ----- steps -----

  datatype Action =
    // engine
    | BeginBuild(size: nat)
    | Inside(g: nat, step: PoolStep, value: int)
    | Store(g: nat)
    | LetGo(g: nat)
    | Shutdown
    // a call
    | Load(request: Request)
    | Check(q: nat)
    | Draw(q: nat)
    | Try(q: nat)
    | GiveUp(q: nat)
    | TakeReply(q: nat)
    | Timeout(q: nat)
    | Cancel(q: nat)

  predicate Unfinished(c: Call) { c.stage != Finished }

  /** Some call still holds the generation. */
  predicate Held(calls: seq<Call>, g: nat) {
    exists q :: 0 <= q < |calls| && calls[q].pool == g && Unfinished(calls[q])
  }

  function WithCall(s: State, q: nat, c: Call): State
    requires q < |s.calls|
  {
    s.(calls := s.calls[q := c])
  }

  function Ended(c: Call, outcome: Outcome): Call {
    c.(stage := Finished, outcomes := c.outcomes + [outcome])
  }

  /** The guard is dropped while armed: it fires the handle at the selected index. */
  function Interrupted(c: Call, p: Pool, w: nat, outcome: Outcome): Call
    requires w < |p.interrupts|
  {
    Ended(c.(hits := c.hits + [(c.pool, p.interrupts[w])]), outcome)
  }

  function NextState(s: State, a: Action): Option<State> {
    match a
    case BeginBuild(size) =>
      if size > 0 then Some(s.(pools := s.pools + [NewPool(size)], counters := s.counters + [0])) else None
    case Inside(g, step, value) =>
      if g < |s.pools| && !step.Offer? && !step.Publish? && !step.BeginDrop?
      then NextInside(s, g, step, value)
      else None
    case Store(g) =>
      if g < |s.pools| then
        var p :- Next(s.pools[g], Publish);
        Some(s.(pools := s.pools[g := p], active := Some(g)))
      else None
    case LetGo(g) =>
      // the last reference to the pool is dropped
      if g < |s.pools| && s.active != Some(g) && !Held(s.calls, g) then
        var p :- Next(s.pools[g], BeginDrop);
        Some(s.(pools := s.pools[g := p]))
      else None
    case Shutdown => Some(s.(active := None))
    case Load(request) =>
      var g :- s.active;
      Some(s.(calls := s.calls + [Call(request, g, Loaded, [], None, Pending, [], [], [])]))
    case _ =>
      if a.q < |s.calls| && s.calls[a.q].pool < |s.pools| && s.calls[a.q].pool < |s.counters|
      then NextCall(s, a, s.calls[a.q], s.calls[a.q].pool)
      else None
  }

  function NextCall(s: State, a: Action, c: Call, g: nat): Option<State>
    requires a.Check? || a.Draw? || a.Try? || a.GiveUp? || a.TakeReply? || a.Timeout? || a.Cancel?
    requires a.q < |s.calls| && s.calls[a.q] == c && c.pool == g < |s.pools| && g < |s.counters|
  {
    var p := s.pools[g];
    match a
    case Check(q) =>
      if c.stage != Loaded then None
      else
        (match Guard(c.request, p.relations)
         case None => Some(WithCall(s, q, c.(stage := Checked)))
         case Some(error) => Some(WithCall(s, q, Ended(c, Rejected(error)))))
    case Draw(q) =>
      // `fetch_add`, then the remainder
      if c.stage == Checked && |p.workers| > 0
      then Some(WithCall(s, q, c.(stage := Probing(s.counters[g] % |p.workers|, 0)))
                .(counters := s.counters[g := Bumped(s.counters[g])]))
      else None
    case Try(q) =>
      if c.stage.Probing? && c.stage.offset < |p.workers|
      then Some(Tried(s, q, (c.stage.start + c.stage.offset) % |p.workers|))
      else None
    case GiveUp(q) =>
      if c.stage.Probing? && c.stage.offset == |p.workers| then Some(WithCall(s, q, Ended(c, NoWorker))) else None
    case TakeReply(q) =>
      if !c.stage.Waiting? then None
      else
        (match c.reply
         case Pending => None
         case Sent(value) => Some(WithCall(s, q, Ended(c, Answered(value))))
         case Hung => Some(WithCall(s, q, Ended(c, WorkerLost))))
    case Timeout(q) =>
      if c.stage.Waiting? && c.stage.w < |p.interrupts|
      then Some(WithCall(s, q, Interrupted(c, p, c.stage.w, TimedOut)))
      else None
    case Cancel(q) =>
      if c.stage.Waiting? && c.stage.w < |p.interrupts|
      then Some(WithCall(s, q, Interrupted(c, p, c.stage.w, Cancelled)))
      else None
  }

  /** One `try_send`. */
  function Tried(s: State, q: nat, w: nat): State
    requires q < |s.calls| && s.calls[q].stage.Probing?
    requires s.calls[q].pool < |s.pools| && w < |s.pools[s.calls[q].pool].workers|
  {
    var c := s.calls[q];
    match Next(s.pools[c.pool], Offer(w, q))
    case Some(p) =>
      WithCall(s, q, c.(stage := Waiting(w), home := Some(w))).(pools := s.pools[c.pool := p])
    case None =>
      WithCall(s, q, c.(stage := Probing(c.stage.start, c.stage.offset + 1),
                        refusals := c.refusals + [Refusal(w, s.pools[c.pool].workers[w])]))
  }

  /** What a worker's step does to the call whose message it holds. */
  function Noted(c: Call, g: nat, step: PoolStep, value: int): Call {
    match step
    case Receive(w) => c.(ran := c.ran + [(g, w)])
    case Answer(_) => c.(reply := Sent(value))
    case _ => c.(reply := Hung)
  }

  /** The query a step of this pool takes up, answers or loses. */
  function Touched(p: Pool, step: PoolStep): Option<nat> {
    match step
    case Receive(w) => if w < |p.workers| && HasQuery(p.workers[w]) then Some(p.workers[w].slot.value.id) else None
    case Exit(w) => if w < |p.workers| && HasQuery(p.workers[w]) then Some(p.workers[w].slot.value.id) else None
    case Answer(w) => if w < |p.workers| && p.workers[w].stage.Busy? then Some(p.workers[w].stage.id) else None
    case Crash(w) => if w < |p.workers| && p.workers[w].stage.Busy? then Some(p.workers[w].stage.id) else None
    case _ => None
  }

  function NextInside(s: State, g: nat, step: PoolStep, value: int): Option<State>
    requires g < |s.pools|
  {
    var p :- Next(s.pools[g], step);
    var t := s.(pools := s.pools[g := p]);
    match Touched(s.pools[g], step)
    case Some(q) => if q < |s.calls| then Some(WithCall(t, q, Noted(s.calls[q], g, step, value))) else Some(t)
    case None => Some(t)
  }

  // ----- the invariant -----

  predicate Refused(p: Pool, start: nat, refusals: seq<Refusal>)
    requires |p.workers| > 0
  {
    forall k :: 0 <= k < |refusals| ==>
      refusals[k].w == (start + k) % |p.workers| && !refusals[k].seen.Takes()
  }

  /** Where the message of an accepted call is, and what became of it. */
  predicate AtHome(p: Pool, q: nat, c: Call, w: nat) {
    && w < |p.workers|
    && match c.reply
       case Pending =>
         || (p.workers[w].slot == Some(Query(q)) && c.ran == [])
         || (p.workers[w].stage == Busy(q) && c.ran == [(c.pool, w)])
       case Sent(_) => c.ran == [(c.pool, w)]
       case Hung => p.workers[w].crashed && (c.ran == [] || c.ran == [(c.pool, w)])
  }

  predicate StageOk(p: Pool, c: Call)
    requires |p.workers| > 0
  {
    match c.stage
    case Loaded => c.outcomes == [] && c.home.None? && c.refusals == []
    case Checked => c.outcomes == [] && c.home.None? && c.refusals == []
    case Probing(start, offset) =>
      && c.outcomes == [] && c.home.None?
      && start < |p.workers| && offset == |c.refusals| <= |p.workers|
      && Refused(p, start, c.refusals)
    case Waiting(w) => c.outcomes == [] && c.home == Some(w)
    case Finished => |c.outcomes| == 1 && OutcomeOk(p, c, c.outcomes[0])
  }

  predicate OutcomeOk(p: Pool, c: Call, outcome: Outcome)
    requires |p.workers| > 0
  {
    match outcome
    case Rejected(error) => Guard(c.request, p.relations) == Some(error) && c.home.None?
    case NoWorker =>
      c.home.None? && |c.refusals| == |p.workers| && Refused(p, c.refusals[0].w, c.refusals)
    case Answered(value) => c.home.Some? && c.reply == Sent(value)
    case WorkerLost => c.home.Some? && c.reply == Hung
    case TimedOut => c.home.Some?
    case Cancelled => c.home.Some?
  }

  predicate GuardOk(p: Pool, c: Call) {
    c.stage == Loaded || (c.stage == Finished && c.outcomes != [] && c.outcomes[0].Rejected?) ||
    Guard(c.request, p.relations).None?
  }

  predicate HitsOk(c: Call) {
    if c.stage == Finished && c.home.Some? && |c.outcomes| == 1 && (c.outcomes[0].TimedOut? || c.outcomes[0].Cancelled?)
    then c.hits == [(c.pool, c.home.value)]
    else c.hits == []
  }

  predicate CallOk(pools: seq<Pool>, q: nat, c: Call) {
    && c.pool < |pools|
    && var p := pools[c.pool];
       && |p.workers| > 0
       && (p.phase.Open? || (c.stage == Finished && (p.phase.Dropping? || p.phase.Closed?)))
       && StageOk(p, c)
       && GuardOk(p, c)
       && HitsOk(c)
       && match c.home
          case None => c.ran == [] && c.reply == Pending
          case Some(w) => AtHome(p, q, c, w)
  }

  /** The worker holds messages of calls that know about it. */
  predicate Linked(calls: seq<Call>, g: nat, w: nat, k: Worker) {
    && (HasQuery(k) ==>
          var q := k.slot.value.id;
          && q < |calls| && calls[q].pool == g && calls[q].home == Some(w) && calls[q].reply == Pending
          && calls[q].ran == [])
    && (k.stage.Busy? ==>
          var q := k.stage.id;
          && q < |calls| && calls[q].pool == g && calls[q].home == Some(w) && calls[q].reply == Pending
          && calls[q].ran == [(g, w)])
  }

  ghost predicate AllLinked(calls: seq<Call>, g: nat, p: Pool) {
    forall w :: 0 <= w < |p.workers| ==> Linked(calls, g, w, p.workers[w])
  }

  ghost predicate SafeState(s: State) {
    && |s.counters| == |s.pools|
    && (forall g :: 0 <= g < |s.pools| ==> Inv(s.pools[g]) && s.pools[g].size > 0 && AllLinked(s.calls, g, s.pools[g]))
    && (forall g :: 0 <= g < |s.counters| ==> s.counters[g] < COUNTER_WIDTH)
    && (forall q :: 0 <= q < |s.calls| ==> CallOk(s.pools, q, s.calls[q]))
    && (s.active.Some? ==> s.active.value < |s.pools| && s.pools[s.active.value].phase == Open)
  }
}
