/** Iterator adapters: `map`, `filter` and `flatten` on sequences. */
module Lists {

  function Flat<T>(lists: seq<seq<T>>): seq<T> {
    if lists == [] then [] else lists[0] + Flat(lists[1..])
  }

  function Map<S, T>(f: S -> T, s: seq<S>): (r: seq<T>)
    ensures |r| == |s|
    ensures forall i :: 0 <= i < |s| ==> r[i] == f(s[i])
  {
    seq(|s|, i requires 0 <= i < |s| => f(s[i]))
  }

  lemma MapOfConcat<S, T>(f: S -> T, a: seq<S>, b: seq<S>)
    ensures Map(f, a + b) == Map(f, a) + Map(f, b)
  {
  }

  lemma {:induction false} FlatOfConcat<T>(a: seq<seq<T>>, b: seq<seq<T>>)
    ensures Flat(a + b) == Flat(a) + Flat(b)
  {
    if a == [] {
      assert a + b == b;
    } else {
      assert (a + b)[1..] == a[1..] + b;
      FlatOfConcat(a[1..], b);
    }
  }

  function Filter<T>(f: T -> bool, s: seq<T>): (r: seq<T>)
    ensures forall x | x in r :: x in s && f(x)
    ensures forall x | x in s :: f(x) ==> x in r
    ensures |r| <= |s|
  {
    if s == [] then [] else (if f(s[0]) then [s[0]] else []) + Filter(f, s[1..])
  }

  lemma {:induction false} FilterOfConcat<T>(f: T -> bool, a: seq<T>, b: seq<T>)
    ensures Filter(f, a + b) == Filter(f, a) + Filter(f, b)
  {
    if a == [] {
      assert a + b == b;
    } else {
      assert (a + b)[0] == a[0] && (a + b)[1..] == a[1..] + b;
      FilterOfConcat(f, a[1..], b);
    }
  }

  lemma {:induction false} FilterAgain<T>(f: T -> bool, g: T -> bool, h: T -> bool, s: seq<T>)
    requires forall x :: x in s ==> h(x) == (f(x) && g(x))
    ensures Filter(h, s) == Filter(g, Filter(f, s))
  {
    if s != [] {
      FilterAgain(f, g, h, s[1..]);
      var kept := Filter(f, s[1..]);
      assert s[0] in s;
      assert ([s[0]] + kept)[0] == s[0] && ([s[0]] + kept)[1..] == kept;
      assert [] + kept == kept;
    }
  }

  lemma {:induction false} FilterAll<T>(f: T -> bool, s: seq<T>)
    requires forall x :: x in s ==> f(x)
    ensures Filter(f, s) == s
  {
    if s != [] {
      FilterAll(f, s[1..]);
      assert s == [s[0]] + s[1..];
    }
  }

  lemma {:induction false} FilterNone<T>(f: T -> bool, s: seq<T>)
    requires forall x :: x in s ==> !f(x)
    ensures Filter(f, s) == []
  {
    if s != [] { FilterNone(f, s[1..]); }
  }

  lemma {:induction false} FlatOfSingletons<S, T>(f: S -> T, s: seq<S>)
    ensures Flat(Map(x => [f(x)], s)) == Map(f, s)
  {
    if s != [] {
      FlatOfSingletons(f, s[1..]);
      assert Map(x => [f(x)], s)[1..] == Map(x => [f(x)], s[1..]);
      assert Map(f, s) == [f(s[0])] + Map(f, s[1..]);
    }
  }

  lemma FilterOfOne<T>(f: T -> bool, x: T)
    ensures Filter(f, [x]) == if f(x) then [x] else []
  {
  }
}
