/** The order in which a call offers its message to the workers, and how consecutive calls spread. */
module Probing {
  import opened WorkerPool
  import opened Gateway
  import opened GatewayProperties

  // ----- remainders -----

  lemma Multiples(x: int, n: int)
    requires n > 0
    ensures x > 0 ==> x * n >= n
    ensures x < 0 ==> x * n <= -n
  {
  }

  /** Quotient and remainder are unique. */
  lemma ModIs(a: int, n: int, k: int, r: int)
    requires 0 <= r < n && a == k * n + r
    ensures a % n == r
  {
    var q := a / n;
    DivModIs(a, n);
    Multiples(k - q, n);
    assert (k - q) * n == k * n - q * n;
  }

  lemma DivModIs(a: int, n: int)
    requires n > 0
    ensures a == (a / n) * n + a % n
  {
  }

  /** Fewer than `n` apart, two numbers have different remainders. */
  lemma RemaindersDiffer(a: int, b: int, n: int)
    requires a < b < a + n
    ensures a % n != b % n
  {
    var (k, r) := (a / n, a % n);
    DivModIs(a, n);
    if r + (b - a) < n {
      ModIs(b, n, k, r + (b - a));
    } else {
      assert b == (k + 1) * n + (r + (b - a) - n) by { assert (k + 1) * n == k * n + n; }
      ModIs(b, n, k + 1, r + (b - a) - n);
    }
  }

  lemma AddMultiple(a: int, k: int, n: int)
    requires n > 0
    ensures (a + k * n) % n == a % n
  {
    DivModIs(a, n);
    assert a + k * n == (a / n + k) * n + a % n by { assert (a / n + k) * n == (a / n) * n + k * n; }
    ModIs(a + k * n, n, a / n + k, a % n);
  }

  // ----- the order of one call -----

  /** The worker a call tries at one offset. */
  function ProbeAt(start: nat, n: nat, offset: nat): nat
    requires n > 0
  {
    (start + offset) % n
  }

  ghost predicate Visits(start: nat, n: nat, w: nat)
    requires n > 0
  {
    exists k :: 0 <= k < n && ProbeAt(start, n, k) == w
  }

  /** From any start the offsets below `n` visit every worker exactly once. */
  lemma ProbeOrder(start: nat, n: nat)
    requires start < n
    ensures forall i, j :: 0 <= i < j < n ==> ProbeAt(start, n, i) != ProbeAt(start, n, j)
    ensures forall w :: 0 <= w < n ==> Visits(start, n, w)
  {
    forall i, j | 0 <= i < j < n ensures ProbeAt(start, n, i) != ProbeAt(start, n, j) {
      RemaindersDiffer(start + i, start + j, n);
    }
    forall w | 0 <= w < n ensures Visits(start, n, w) {
      var k := if start <= w then w - start else w + n - start;
      ModIs(start + k, n, if start <= w then 0 else 1, w);
      assert ProbeAt(start, n, k) == w;
    }
  }

  ghost predicate RefusedOnce(refusals: seq<Refusal>, w: nat) {
    && (exists k :: 0 <= k < |refusals| && refusals[k].w == w)
    && (forall i, j :: 0 <= i < j < |refusals| ==> refusals[i].w != w || refusals[j].w != w)
  }

  lemma RefusalsInProbeOrder(p: Pool, start: nat, refusals: seq<Refusal>)
    requires |refusals| == |p.workers| > 0 && start < |p.workers| && Refused(p, start, refusals)
    ensures forall w :: 0 <= w < |p.workers| ==> RefusedOnce(refusals, w)
  {
    var n := |p.workers|;
    ProbeOrder(start, n);
    assert forall k :: 0 <= k < n ==> refusals[k].w == ProbeAt(start, n, k);
    forall w | 0 <= w < n ensures RefusedOnce(refusals, w) {
      assert Visits(start, n, w);
    }
  }

  /** A call told that no worker is free has asked every worker of its pool once, and each was gone or had
      its slot full when it was asked. */
  lemma BusyMeansAllRefused(s: State, q: nat)
    requires Reachable(s) && q < |s.calls| && NoWorker in s.calls[q].outcomes
    ensures var c := s.calls[q];
            && c.pool < |s.pools| && |c.refusals| == |s.pools[c.pool].workers|
            && (forall w :: 0 <= w < |c.refusals| ==> RefusedOnce(c.refusals, w))
            && (forall k :: 0 <= k < |c.refusals| ==>
                  c.refusals[k].seen.stage == Gone || c.refusals[k].seen.slot.Some?)
  {
    ReachableIsSafe(s);
    var c := s.calls[q];
    assert CallOk(s.pools, q, c);
    FullyRefused(s.pools[c.pool], c.refusals);
  }

  lemma FullyRefused(p: Pool, refusals: seq<Refusal>)
    requires |refusals| == |p.workers| > 0 && Refused(p, refusals[0].w, refusals)
    ensures forall w :: 0 <= w < |refusals| ==> RefusedOnce(refusals, w)
    ensures forall k :: 0 <= k < |refusals| ==> refusals[k].seen.stage == Gone || refusals[k].seen.slot.Some?
  {
    var start := refusals[0].w;
    assert refusals[0].w == (start + 0) % |p.workers|;
    RefusalsInProbeOrder(p, start, refusals);
  }

  // ----- the starts of consecutive calls -----

  /** Where the call starts that draws the `i`th counter value from `c` on, with a counter of `width` values. */
  function StartAt(c: nat, i: nat, n: nat, width: nat): nat
    requires 0 < n && 0 < width
  {
    ((c + i) % width) % n
  }

  ghost predicate SpreadOut(c: nat, n: nat, width: nat)
    requires 0 < n && 0 < width
  {
    forall i, j :: 0 <= i < j < n ==> StartAt(c, i, n, width) != StartAt(c, j, n, width)
  }

  lemma WrapOf(c: nat, i: nat, width: nat)
    requires c < width && i <= width
    ensures (c + i) % width == if c + i < width then c + i else c + i - width
  {
  }

  lemma StartsWithoutWrap(c: nat, n: nat, width: nat)
    requires 0 < n <= width && c < width && (c + n <= width || width % n == 0)
    ensures SpreadOut(c, n, width)
  {
    forall i, j | 0 <= i < j < n ensures StartAt(c, i, n, width) != StartAt(c, j, n, width) {
      StartIsRemainder(c, i, n, width);
      StartIsRemainder(c, j, n, width);
      RemaindersDiffer(c + i, c + j, n);
    }
  }

  lemma StartIsRemainder(c: nat, i: nat, n: nat, width: nat)
    requires 0 < n <= width && c < width && i < n && (c + n <= width || width % n == 0)
    ensures StartAt(c, i, n, width) == (c + i) % n
  {
    WrapOf(c, i, width);
    if c + i >= width {
      DivModIs(width, n);
      AddMultiple(c + i - width, width / n, n);
    }
  }

  /** Where the counter wraps in a window and its width is no multiple of `n`, two calls start alike. */
  lemma WrapCollides(c: nat, n: nat, width: nat)
    requires 0 < n <= width && c < width && c + n > width && width % n != 0
    ensures !SpreadOut(c, n, width)
  {
    var (j, r) := (width - c, width % n);
    DivModIs(width, n);
    if r < j {
      WrapOf(c, j - r, width);
      WrapOf(c, j, width);
      ModIs(width - r, n, width / n, 0);
      ModIs(0, n, 0, 0);
      assert StartAt(c, j - r, n, width) == StartAt(c, j, n, width);
    } else {
      WrapOf(c, 0, width);
      WrapOf(c, r, width);
      ModIs(c, n, width / n, r - j);
      ModIs(r - j, n, 0, r - j);
      assert StartAt(c, 0, n, width) == StartAt(c, r, n, width);
    }
  }

  /** The starts of `n` consecutive draws are all different exactly if the 64-bit counter does not wrap
      among them, or the number of workers divides its range. */
  lemma ConsecutiveStarts(c: nat, n: nat)
    requires 0 < n <= COUNTER_WIDTH && c < COUNTER_WIDTH
    ensures SpreadOut(c, n, COUNTER_WIDTH) <==> c + n <= COUNTER_WIDTH || COUNTER_WIDTH % n == 0
  {
    if c + n <= COUNTER_WIDTH || COUNTER_WIDTH % n == 0 {
      StartsWithoutWrap(c, n, COUNTER_WIDTH);
    } else {
      WrapCollides(c, n, COUNTER_WIDTH);
    }
  }

  predicate DrawsFrom(s: State, a: Action, g: nat) { a.Draw? && a.q < |s.calls| && s.calls[a.q].pool == g }

  /** The draws of a generation take consecutive counter values: each starts at the counter's remainder and
      moves it by one, wrapping at 64 bits, and nothing else moves it, whatever happens in between. */
  lemma DrawsAreConsecutive(s: State, a: Action, g: nat)
    requires SafeState(s) && NextState(s, a).Some? && g < |s.pools|
    ensures var t := NextState(s, a).value;
            && g < |t.counters|
            && (if DrawsFrom(s, a, g)
                then t.counters[g] == (s.counters[g] + 1) % COUNTER_WIDTH && |s.pools[g].workers| > 0
                     && t.calls == s.calls[a.q := t.calls[a.q]]
                     && t.calls[a.q].stage == Probing(StartAt(s.counters[g], 0, |s.pools[g].workers|, COUNTER_WIDTH), 0)
                else t.counters[g] == s.counters[g])
  {
    if DrawsFrom(s, a, g) {
      WrapOf(s.counters[g], 0, COUNTER_WIDTH);
      WrapOf(s.counters[g], 1, COUNTER_WIDTH);
      DrawnCall(s, a.q);
    } else {
      OthersLeaveTheCounter(s, a, g);
    }
  }

  lemma DrawnCall(s: State, q: nat)
    requires q < |s.calls| && s.calls[q].pool < |s.pools| && s.calls[q].pool < |s.counters|
    requires NextState(s, Draw(q)).Some?
    ensures var (t, n, g) := (NextState(s, Draw(q)).value, |s.pools[s.calls[q].pool].workers|, s.calls[q].pool);
            && n > 0 && t.calls == s.calls[q := t.calls[q]] && t.counters == s.counters[g := Bumped(s.counters[g])]
            && t.calls[q].stage == Probing(s.counters[g] % n, 0)
  {
  }

  lemma OthersLeaveTheCounter(s: State, a: Action, g: nat)
    requires NextState(s, a).Some? && |s.counters| == |s.pools| && g < |s.pools| && !DrawsFrom(s, a, g)
    ensures g < |NextState(s, a).value.counters| && NextState(s, a).value.counters[g] == s.counters[g]
  {
  }
}
