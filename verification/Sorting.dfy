/** `sort_by` and `sort_by_key` on string keys: a stable sort, and why its result is unique
    when the keys are. */
module Sorting {
  import opened Strings

  predicate Sorted<T>(s: seq<T>, key: T -> string) {
    forall i, j :: 0 <= i < j < |s| ==> !Before(key(s[j]), key(s[i]))
  }

  predicate DistinctKeys<T>(s: seq<T>, key: T -> string) {
    forall i, j :: 0 <= i < j < |s| ==> key(s[i]) != key(s[j])
  }

  /** Puts `x` in front of everything that is not before it, so equal keys keep their order. */
  function Insert<T>(x: T, s: seq<T>, key: T -> string): seq<T> {
    if s == [] || !Before(key(s[0]), key(x)) then [x] + s
    else [s[0]] + Insert(x, s[1..], key)
  }

  function Sort<T>(s: seq<T>, key: T -> string): seq<T> {
    if s == [] then [] else Insert(s[0], Sort(s[1..], key), key)
  }

  lemma {:induction false} InsertKeeps<T>(x: T, s: seq<T>, key: T -> string)
    requires Sorted(s, key)
    ensures Sorted(Insert(x, s, key), key)
    ensures multiset(Insert(x, s, key)) == multiset{x} + multiset(s)
  {
    if s == [] {
    } else if !Before(key(s[0]), key(x)) {
      forall j | 0 <= j < |s| ensures !Before(key(s[j]), key(x)) {
        if Before(key(s[j]), key(x)) {
          BeforeIsTotal(key(s[0]), key(s[j]));
          if Before(key(s[0]), key(s[j])) {
            BeforeIsTransitive(key(s[0]), key(s[j]), key(x));
          }
        }
      }
    } else {
      var rest := s[1..];
      InsertKeeps(x, rest, key);
      var r := Insert(x, rest, key);
      assert s == [s[0]] + rest;
      forall j | 0 <= j < |r| ensures !Before(key(r[j]), key(s[0])) {
        assert r[j] in multiset(r);
        if r[j] == x {
          BeforeIsStrict(key(x), key(s[0]));
        } else {
          assert r[j] in rest;
        }
      }
    }
  }

  lemma {:induction false} SortKeeps<T>(s: seq<T>, key: T -> string)
    ensures Sorted(Sort(s, key), key)
    ensures multiset(Sort(s, key)) == multiset(s)
    ensures |Sort(s, key)| == |s|
  {
    if s != [] {
      SortKeeps(s[1..], key);
      InsertKeeps(s[0], Sort(s[1..], key), key);
      assert s == [s[0]] + s[1..];
    }
    SameLength(Sort(s, key), s);
  }

  /** A sorted list is left alone, equal keys included: the sort is stable. */
  lemma {:induction false} SortOfSorted<T>(s: seq<T>, key: T -> string)
    requires Sorted(s, key)
    ensures Sort(s, key) == s
  {
    if s != [] {
      SortOfSorted(s[1..], key);
      assert |s| > 1 ==> !Before(key(s[1]), key(s[0]));
      assert s == [s[0]] + s[1..];
    }
  }

  /** Distinct keys, said of the bag of elements instead of their positions. */
  ghost predicate KeyedBag<T(!new)>(b: multiset<T>, key: T -> string) {
    && (forall x, y :: x in b && y in b && key(x) == key(y) ==> x == y)
    && (forall x :: x in b ==> b[x] == 1)
  }

  lemma DistinctKeysOfTail<T>(s: seq<T>, key: T -> string)
    requires s != []
    ensures DistinctKeys(s, key) <==>
            DistinctKeys(s[1..], key) && forall y :: y in s[1..] ==> key(y) != key(s[0])
  {
  }

  lemma DistinctKeysOfSnoc<T>(s: seq<T>, x: T, key: T -> string)
    ensures DistinctKeys(s + [x], key) <==> DistinctKeys(s, key) && forall y :: y in s ==> key(y) != key(x)
  {
    var now := s + [x];
    assert now[|s|] == x;
    assert forall i :: 0 <= i < |s| ==> now[i] == s[i] && s[i] in s;
  }

  lemma KeyedBagOfSum<T(!new)>(x: T, c: multiset<T>, key: T -> string)
    ensures KeyedBag(multiset{x} + c, key) <==> KeyedBag(c, key) && forall y :: y in c ==> key(y) != key(x)
  {
    var b := multiset{x} + c;
    assert b[x] == 1 + c[x];
    assert forall y :: y != x ==> b[y] == c[y];
    assert forall y :: y in b <==> y == x || y in c;
  }

  lemma {:induction false} DistinctKeysAreKeyed<T(!new)>(s: seq<T>, key: T -> string)
    ensures DistinctKeys(s, key) <==> KeyedBag(multiset(s), key)
  {
    if s != [] {
      var rest := s[1..];
      DistinctKeysAreKeyed(rest, key);
      DistinctKeysOfTail(s, key);
      KeyedBagOfSum(s[0], multiset(rest), key);
      assert s == [s[0]] + rest;
      assert forall y :: y in rest <==> y in multiset(rest);
    }
  }

  lemma DistinctKeysOfPermutation<T(!new)>(s: seq<T>, t: seq<T>, key: T -> string)
    requires multiset(s) == multiset(t)
    ensures DistinctKeys(s, key) <==> DistinctKeys(t, key)
  {
    DistinctKeysAreKeyed(s, key);
    DistinctKeysAreKeyed(t, key);
  }

  lemma HeadsAgree<T(!new)>(s: seq<T>, t: seq<T>, key: T -> string)
    requires s != [] && t != []
    requires Sorted(s, key) && Sorted(t, key)
    requires s[0] in t && t[0] in s
    ensures key(s[0]) == key(t[0])
  {
    var i :| 0 <= i < |t| && t[i] == s[0];
    var j :| 0 <= j < |s| && s[j] == t[0];
    BeforeIsTotal(key(s[0]), key(t[0]));
    BeforeIsStrict(key(s[0]), key(t[0]));
    assert i > 0 ==> !Before(key(t[i]), key(t[0]));
    assert j > 0 ==> !Before(key(s[j]), key(s[0]));
  }

  /** With distinct keys there is only one sorted arrangement. */
  lemma {:induction false} SortedIsUnique<T(!new)>(s: seq<T>, t: seq<T>, key: T -> string)
    requires Sorted(s, key) && Sorted(t, key)
    requires KeyedBag(multiset(s), key)
    requires multiset(s) == multiset(t)
    ensures s == t
  {
    SameLength(s, t);
    if s != [] {
      HeadAndTail(s, t, key);
      SortedIsUnique(s[1..], t[1..], key);
      assert s == [s[0]] + s[1..] && t == [t[0]] + t[1..];
    }
  }

  lemma HeadAndTail<T(!new)>(s: seq<T>, t: seq<T>, key: T -> string)
    requires s != [] && t != []
    requires Sorted(s, key) && Sorted(t, key)
    requires KeyedBag(multiset(s), key)
    requires multiset(s) == multiset(t)
    ensures s[0] == t[0]
    ensures Sorted(s[1..], key) && Sorted(t[1..], key)
    ensures KeyedBag(multiset(s[1..]), key)
    ensures multiset(s[1..]) == multiset(t[1..])
  {
    assert s[0] in multiset(s) && t[0] in multiset(t);
    HeadsAgree(s, t, key);
    TailBag(s);
    TailBag(t);
    TailSorted(s, key);
    TailSorted(t, key);
    KeyedBagOfSum(s[0], multiset(s[1..]), key);
    assert multiset{s[0]} + multiset(s[1..]) == multiset(s);
  }

  lemma TailSorted<T>(s: seq<T>, key: T -> string)
    requires s != [] && Sorted(s, key)
    ensures Sorted(s[1..], key)
  {
  }

  lemma SameLength<T>(s: seq<T>, t: seq<T>)
    requires multiset(s) == multiset(t)
    ensures |s| == |t|
  {
    assert |multiset(s)| == |s| && |multiset(t)| == |t|;
  }

  lemma TailBag<T>(s: seq<T>)
    requires s != []
    ensures multiset(s[1..]) == multiset(s) - multiset{s[0]}
  {
    assert s == [s[0]] + s[1..];
  }

  /** Sorting forgets the order in which distinct keys were listed. */
  lemma {:induction false} SortOfPermutation<T(!new)>(s: seq<T>, t: seq<T>, key: T -> string)
    requires multiset(s) == multiset(t)
    requires DistinctKeys(s, key)
    ensures Sort(s, key) == Sort(t, key)
  {
    SortKeeps(s, key);
    SortKeeps(t, key);
    DistinctKeysAreKeyed(s, key);
    SortedIsUnique(Sort(s, key), Sort(t, key), key);
  }

  // ----- the keys of a map, in order -----

  predicate Least(keys: set<string>, k: string) {
    k in keys && forall j :: j in keys ==> !Before(j, k)
  }

  lemma {:induction false} LeastExists(keys: set<string>)
    requires keys != {}
    ensures exists k :: Least(keys, k)
  {
    var k :| k in keys;
    var rest := keys - {k};
    if rest == {} {
      assert keys == {k};
      BeforeIsStrict(k, k);
      assert Least(keys, k);
    } else {
      LeastExists(rest);
      var least :| Least(rest, least);
      BeforeIsStrict(k, k);
      if Before(k, least) {
        forall j | j in keys ensures !Before(j, k) {
          if j != k && Before(j, k) { BeforeIsTransitive(j, k, least); }
        }
        assert Least(keys, k);
      } else {
        assert Least(keys, least);
      }
    }
  }

  lemma LeastIsUnique(keys: set<string>)
    ensures forall j, k :: Least(keys, j) && Least(keys, k) ==> j == k
  {
    forall j, k | Least(keys, j) && Least(keys, k) ensures j == k { BeforeIsTotal(j, k); }
  }

  /** The order in which a `BTreeMap` is iterated. */
  function SortedKeys(keys: set<string>): (r: seq<string>)
    ensures forall k :: k in keys <==> k in r
    ensures forall i, j :: 0 <= i < j < |r| ==> r[i] != r[j]
    ensures forall i, j :: 0 <= i < j < |r| ==> !Before(r[j], r[i])
    ensures |r| == |keys|
  {
    if keys == {} then []
    else
      LeastExists(keys);
      LeastIsUnique(keys);
      var k :| Least(keys, k);
      [k] + SortedKeys(keys - {k})
  }

  /** Distinct keys come in the order of a dictionary. */
  lemma SortedMeaning<T>(s: seq<T>, key: T -> string)
    ensures Sorted(s, key) && DistinctKeys(s, key) <==>
            forall i, j :: 0 <= i < j < |s| ==> Precedes(key(s[i]), key(s[j]))
  {
    forall i, j | 0 <= i < j < |s|
      ensures !Before(key(s[j]), key(s[i])) && key(s[i]) != key(s[j]) <==> Precedes(key(s[i]), key(s[j]))
    {
      OneWayOnly(key(s[i]), key(s[j]));
    }
  }

  lemma {:induction false} OneWayOnly(a: string, b: string)
    ensures !Before(b, a) && a != b <==> Precedes(a, b)
  {
    BeforeMeaning(a, b);
    BeforeIsStrict(a, b);
    BeforeIsTotal(a, b);
  }

  /** The keys of a map come each once, in the order of a dictionary. */
  lemma {:induction false} SortedKeysMeaning(keys: set<string>)
    ensures forall i, j :: 0 <= i < j < |SortedKeys(keys)| ==> Precedes(SortedKeys(keys)[i], SortedKeys(keys)[j])
    ensures forall k :: k in SortedKeys(keys) <==> k in keys
  {
    var r := SortedKeys(keys);
    forall i, j | 0 <= i < j < |r| ensures Precedes(r[i], r[j]) {
      OneWayOnly(r[i], r[j]);
    }
  }
}
