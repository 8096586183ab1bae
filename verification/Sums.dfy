/** Totals over sequences, and the few laws every money argument in this project rests on. */
module Sums {

  function Sum<T>(s: seq<T>, f: T -> int): int {
    if s == [] then 0 else Sum(s[..|s| - 1], f) + f(s[|s| - 1])
  }

  const Itself: int -> int := (x: int) => x

  function Filter<T(!new)>(s: seq<T>, p: T -> bool): (r: seq<T>)
    ensures |r| <= |s|
    ensures forall x :: x in r <==> x in s && p(x)
  {
    if s == [] then []
    else
      var rest := Filter(s[..|s| - 1], p);
      assert s == s[..|s| - 1] + [s[|s| - 1]];
      if p(s[|s| - 1]) then rest + [s[|s| - 1]] else rest
  }

  /** f where p holds and nothing elsewhere. */
  function Where<T>(p: T -> bool, f: T -> int): T -> int {
    x => if p(x) then f(x) else 0
  }

  function Flatten<T>(ss: seq<seq<T>>): seq<T> {
    if ss == [] then [] else Flatten(ss[..|ss| - 1]) + ss[|ss| - 1]
  }

  function TotalOf<T>(f: T -> int): seq<T> -> int {
    s => Sum(s, f)
  }

  ghost predicate Distinct<T>(s: seq<T>) {
    forall i, j :: 0 <= i < j < |s| ==> s[i] != s[j]
  }

  lemma SumSnoc<T>(s: seq<T>, x: T, f: T -> int)
    ensures Sum(s + [x], f) == Sum(s, f) + f(x)
  {
    assert (s + [x])[..|s|] == s;
  }

  lemma {:induction false} SumAppend<T>(s: seq<T>, t: seq<T>, f: T -> int)
    ensures Sum(s + t, f) == Sum(s, f) + Sum(t, f)
  {
    if t == [] {
      assert s + t == s;
    } else {
      var t' := t[..|t| - 1];
      SumAppend(s, t', f);
      assert s + t == (s + t') + [t[|t| - 1]];
      SumSnoc(s + t', t[|t| - 1], f);
    }
  }

  lemma {:induction false} SumCongruent<T>(s: seq<T>, f: T -> int, g: T -> int)
    requires forall x :: x in s ==> f(x) == g(x)
    ensures Sum(s, f) == Sum(s, g)
  {
    if s != [] {
      assert s[|s| - 1] in s;
      forall x | x in s[..|s| - 1] ensures f(x) == g(x) { assert x in s; }
      SumCongruent(s[..|s| - 1], f, g);
    }
  }

  /** Two columns that agree row by row have the same total. */
  lemma {:induction false} SumAligned<T, U>(s: seq<T>, t: seq<U>, f: T -> int, g: U -> int)
    requires |s| == |t| && forall i :: 0 <= i < |s| ==> f(s[i]) == g(t[i])
    ensures Sum(s, f) == Sum(t, g)
  {
    if s != [] {
      SumAligned(s[..|s| - 1], t[..|t| - 1], f, g);
    }
  }

  lemma {:induction false} SumPlus<T>(s: seq<T>, f: T -> int, g: T -> int, h: T -> int)
    requires forall x :: x in s ==> h(x) == f(x) + g(x)
    ensures Sum(s, h) == Sum(s, f) + Sum(s, g)
  {
    if s != [] {
      assert s[|s| - 1] in s;
      forall x | x in s[..|s| - 1] ensures h(x) == f(x) + g(x) { assert x in s; }
      SumPlus(s[..|s| - 1], f, g, h);
    }
  }

  lemma {:induction false} SumMonotone<T>(s: seq<T>, f: T -> int, g: T -> int)
    requires forall x :: x in s ==> f(x) <= g(x)
    ensures Sum(s, f) <= Sum(s, g)
  {
    if s != [] {
      assert s[|s| - 1] in s;
      forall x | x in s[..|s| - 1] ensures f(x) <= g(x) { assert x in s; }
      SumMonotone(s[..|s| - 1], f, g);
    }
  }

  lemma {:induction false} SumNonNegative<T>(s: seq<T>, f: T -> int)
    requires forall x :: x in s ==> f(x) >= 0
    ensures Sum(s, f) >= 0
  {
    if s != [] {
      assert s[|s| - 1] in s;
      forall x | x in s[..|s| - 1] ensures f(x) >= 0 { assert x in s; }
      SumNonNegative(s[..|s| - 1], f);
    }
  }

  lemma {:induction false} SumZero<T>(s: seq<T>, f: T -> int)
    requires forall x :: x in s ==> f(x) == 0
    ensures Sum(s, f) == 0
  {
    if s != [] {
      assert s[|s| - 1] in s;
      forall x | x in s[..|s| - 1] ensures f(x) == 0 { assert x in s; }
      SumZero(s[..|s| - 1], f);
    }
  }

  /** One member of a non-negative column never exceeds the column. */
  lemma {:induction false} SumAtLeastMember<T>(s: seq<T>, f: T -> int, x: T)
    requires x in s
    requires forall y :: y in s ==> f(y) >= 0
    ensures f(x) <= Sum(s, f)
  {
    var s', last := s[..|s| - 1], s[|s| - 1];
    assert s == s' + [last];
    forall y | y in s' ensures f(y) >= 0 { assert y in s; }
    assert last in s;
    if x in s' {
      SumAtLeastMember(s', f, x);
    } else {
      SumNonNegative(s', f);
    }
  }

  lemma {:induction false} SumFiltered<T(!new)>(s: seq<T>, p: T -> bool, f: T -> int)
    ensures Sum(Filter(s, p), f) == Sum(s, Where(p, f))
  {
    if s != [] {
      SumFiltered(s[..|s| - 1], p, f);
      if p(s[|s| - 1]) {
        SumSnoc(Filter(s[..|s| - 1], p), s[|s| - 1], f);
      }
    }
  }

  lemma SumRemoveAt<T>(s: seq<T>, i: nat, f: T -> int)
    requires i < |s|
    ensures Sum(s, f) == Sum(s[..i] + s[i + 1..], f) + f(s[i])
  {
    hide Sum;
    var before, after := s[..i], s[i + 1..];
    assert s == (before + [s[i]]) + after;
    SumAppend(before + [s[i]], after, f);
    SumSnoc(before, s[i], f);
    SumAppend(before, after, f);
  }

  lemma RemoveAtMultiset<T>(s: seq<T>, i: nat)
    requires i < |s|
    ensures multiset(s[..i] + s[i + 1..]) == multiset(s) - multiset{s[i]}
  {
    assert s == s[..i] + [s[i]] + s[i + 1..];
  }

  /** A total does not depend on the order of its rows. */
  lemma {:induction false} SumPermuted<T>(s: seq<T>, t: seq<T>, f: T -> int)
    requires multiset(s) == multiset(t)
    ensures Sum(s, f) == Sum(t, f)
  {
    if s == [] {
      assert |multiset(t)| == 0;
    } else {
      var last := |s| - 1;
      assert s[last] in multiset(t);
      var i :| 0 <= i < |t| && t[i] == s[last];
      RemoveAtMultiset(s, last);
      RemoveAtMultiset(t, i);
      assert s[..last] + s[last + 1..] == s[..last];
      SumPermuted(s[..last], t[..i] + t[i + 1..], f);
      SumRemoveAt(t, i, f);
    }
  }

  lemma {:induction false} SumOfFlattened<T>(ss: seq<seq<T>>, f: T -> int)
    ensures Sum(Flatten(ss), f) == Sum(ss, TotalOf(f))
  {
    if ss != [] {
      SumOfFlattened(ss[..|ss| - 1], f);
      SumAppend(Flatten(ss[..|ss| - 1]), ss[|ss| - 1], f);
    }
  }

  /** Every entry at most (at least) c bounds the total by |s| * c. */
  lemma {:induction false} SumAtMost<T>(s: seq<T>, f: T -> int, c: int)
    requires forall x :: x in s ==> f(x) <= c
    ensures Sum(s, f) <= |s| * c
  {
    if s != [] {
      assert s[|s| - 1] in s;
      forall x | x in s[..|s| - 1] ensures f(x) <= c { assert x in s; }
      SumAtMost(s[..|s| - 1], f, c);
    }
  }

  lemma {:induction false} SumAtLeast<T>(s: seq<T>, f: T -> int, c: int)
    requires forall x :: x in s ==> f(x) >= c
    ensures Sum(s, f) >= |s| * c
  {
    if s != [] {
      assert s[|s| - 1] in s;
      forall x | x in s[..|s| - 1] ensures f(x) >= c { assert x in s; }
      SumAtLeast(s[..|s| - 1], f, c);
    }
  }

  /** c at one key and nothing at any other. */
  function OnlyAt<K(==)>(key: K, c: int): K -> int {
    k => if k == key then c else 0
  }

  lemma {:induction false} SumOnlyAt<K>(keys: seq<K>, key: K, c: int)
    requires Distinct(keys)
    ensures Sum(keys, OnlyAt(key, c)) == if key in keys then c else 0
  {
    if keys != [] {
      var n := |keys| - 1;
      SumOnlyAt(keys[..n], key, c);
      assert keys == keys[..n] + [keys[n]];
      if keys[n] == key {
        forall i | 0 <= i < n ensures keys[..n][i] != key { assert keys[i] != keys[n]; }
        assert key !in keys[..n];
      }
    }
  }

  /** f for the rows a key belongs to. */
  function At<T, K(==)>(keyOf: T -> K, key: K, f: T -> int): T -> int {
    x => if keyOf(x) == key then f(x) else 0
  }

  /** For each key, the total of its rows. */
  function Buckets<T, K(==)>(s: seq<T>, keyOf: T -> K, f: T -> int): K -> int {
    key => Sum(s, At(keyOf, key, f))
  }

  /** Totalling by key loses nothing and counts nothing twice. */
  lemma {:induction false} BucketsPartition<T, K>(s: seq<T>, keys: seq<K>, keyOf: T -> K, f: T -> int)
    requires Distinct(keys)
    requires forall x :: x in s ==> keyOf(x) in keys
    ensures Sum(keys, Buckets(s, keyOf, f)) == Sum(s, f)
  {
    if s == [] {
      SumZero(keys, Buckets(s, keyOf, f));
    } else {
      var rest, x := s[..|s| - 1], s[|s| - 1];
      assert s == rest + [x];
      forall y | y in rest ensures keyOf(y) in keys { assert y in s; }
      BucketsPartition(rest, keys, keyOf, f);
      SumPlus(keys, Buckets(rest, keyOf, f), OnlyAt(keyOf(x), f(x)), Buckets(s, keyOf, f));
      SumOnlyAt(keys, keyOf(x), f(x));
      assert x in s;
    }
  }

  lemma RepeatCountsTwice<T>(t: seq<T>, i: nat, j: nat)
    requires i < j < |t| && t[i] == t[j]
    ensures multiset(t)[t[i]] >= 2
  {
    assert t == t[..j] + t[j..];
    assert t[..j][i] == t[i] && t[j..][0] == t[i];
  }

  lemma {:induction false} DistinctCountsOnce<T>(s: seq<T>, x: T)
    requires Distinct(s)
    ensures multiset(s)[x] <= 1
  {
    if s != [] {
      var n := |s| - 1;
      DistinctCountsOnce(s[..n], x);
      assert s == s[..n] + [s[n]];
      if s[n] == x { assert x !in s[..n]; }
    }
  }

  lemma PermutationKeepsDistinct<T>(s: seq<T>, t: seq<T>)
    requires Distinct(s) && multiset(s) == multiset(t)
    ensures Distinct(t)
  {
    forall i, j | 0 <= i < j < |t| ensures t[i] != t[j] {
      if t[i] == t[j] {
        RepeatCountsTwice(t, i, j);
        DistinctCountsOnce(s, t[i]);
      }
    }
  }

  lemma SomeCode(codes: set<int>)
    requires codes != {}
    ensures exists code: int :: code in codes
  {
    assert (forall code: int :: code !in codes) ==> codes == {};
  }
}
