/** Longest-processing-time assignment of weighted test files to CI shards. */
module ShardAssignment {
  import opened Sums
  import opened Sorting

  type File = string

  datatype Assignment = Assigned(shards: seq<seq<File>>) | Refused

  // ---------------------------------------------------------------- paths

  /** Code-point order on paths. */
  predicate LexLe(a: File, b: File) {
    a == [] || (b != [] && (a[0] < b[0] || (a[0] == b[0] && LexLe(a[1..], b[1..]))))
  }

  lemma {:induction false} LexTotal(a: File, b: File)
    ensures LexLe(a, b) || LexLe(b, a)
  {
    if a != [] && b != [] { LexTotal(a[1..], b[1..]); }
  }

  lemma {:induction false} LexTransitive(a: File, b: File, c: File)
    requires LexLe(a, b) && LexLe(b, c)
    ensures LexLe(a, c)
  {
    if a != [] && a[0] == b[0] && b[0] == c[0] { LexTransitive(a[1..], b[1..], c[1..]); }
  }

  lemma LexIsTotalPreorder()
    ensures TotalPreorder(LexLe)
  {
    forall a, b ensures LexLe(a, b) || LexLe(b, a) { LexTotal(a, b); }
    forall a, b, c | LexLe(a, b) && LexLe(b, c) ensures LexLe(a, c) { LexTransitive(a, b, c); }
  }

  // ---------------------------------------------------------------- the assignment, functionally

  function Weight(weights: map<File, int>): File -> int {
    f => if f in weights then weights[f] else 0
  }

  /** Heaviest first, then by path. */
  function HeaviestFirst(weights: map<File, int>): (File, File) -> bool {
    (a, b) => Weight(weights)(a) > Weight(weights)(b)
              || (Weight(weights)(a) == Weight(weights)(b) && LexLe(a, b))
  }

  lemma HeaviestFirstIsTotalPreorder(weights: map<File, int>)
    ensures TotalPreorder(HeaviestFirst(weights))
  {
    LexIsTotalPreorder();
  }

  function Loads(shards: seq<seq<File>>, w: File -> int): (r: seq<int>)
    ensures |r| == |shards|
  {
    seq(|shards|, k requires 0 <= k < |shards| => Sum(shards[k], w))
  }

  /** The least loaded shard, the lowest index winning a tie. */
  function LeastLoaded(loads: seq<int>): (t: nat)
    requires loads != []
    ensures t < |loads|
    ensures forall k :: 0 <= k < |loads| ==> loads[t] <= loads[k]
    ensures forall k :: 0 <= k < t ==> loads[t] < loads[k]
  {
    if |loads| == 1 then 0
    else
      var t := LeastLoaded(loads[..|loads| - 1]);
      if loads[|loads| - 1] < loads[t] then |loads| - 1 else t
  }

  function Greedy(files: seq<File>, count: nat, w: File -> int): (r: seq<seq<File>>)
    requires count >= 1
    ensures |r| == count
  {
    if files == [] then seq(count, _ => [])
    else Place(Greedy(files[..|files| - 1], count, w), files[|files| - 1], w)
  }

  function Place(shards: seq<seq<File>>, file: File, w: File -> int): (r: seq<seq<File>>)
    requires shards != []
    ensures |r| == |shards|
  {
    var t := LeastLoaded(Loads(shards, w));
    shards[t := shards[t] + [file]]
  }

  function MaxLoad(shards: seq<seq<File>>, w: File -> int): (m: int)
    requires shards != []
    ensures exists k :: 0 <= k < |shards| && m == Sum(shards[k], w)
    ensures forall k :: 0 <= k < |shards| ==> Sum(shards[k], w) <= m
  {
    if |shards| == 1 then Sum(shards[0], w)
    else
      var m := MaxLoad(shards[..|shards| - 1], w);
      assert forall k :: 0 <= k < |shards| - 1 ==> shards[..|shards| - 1][k] == shards[k];
      if Sum(shards[|shards| - 1], w) > m then Sum(shards[|shards| - 1], w) else m
  }

  /** Every file on exactly one shard, and nothing else on any. */
  ghost predicate Spreads(shards: seq<seq<File>>, files: seq<File>) {
    multiset(Flatten(shards)) == multiset(files)
  }

  ghost predicate Descending(files: seq<File>, w: File -> int) {
    forall i, j :: 0 <= i < j < |files| ==> w(files[i]) >= w(files[j])
  }

  // ---------------------------------------------------------------- every file is placed once

  lemma {:induction false} FlattenAfterPlacing(shards: seq<seq<File>>, t: nat, file: File)
    requires t < |shards|
    ensures multiset(Flatten(shards[t := shards[t] + [file]])) == multiset(Flatten(shards)) + multiset{file}
  {
    var n := |shards| - 1;
    var after := shards[t := shards[t] + [file]];
    if t == n {
      assert after[..n] == shards[..n];
    } else {
      assert after[..n] == shards[..n][t := shards[..n][t] + [file]];
      FlattenAfterPlacing(shards[..n], t, file);
    }
  }

  lemma {:induction false} FlattenOfEmpties(n: nat, shards: seq<seq<File>>)
    requires |shards| == n && forall k :: 0 <= k < n ==> shards[k] == []
    ensures Flatten(shards) == []
  {
    if n > 0 { FlattenOfEmpties(n - 1, shards[..n - 1]); }
  }

  lemma {:induction false} GreedySpreads(files: seq<File>, count: nat, w: File -> int)
    requires count >= 1
    ensures Spreads(Greedy(files, count, w), files)
  {
    if files == [] {
      FlattenOfEmpties(count, Greedy(files, count, w));
    } else {
      var rest := files[..|files| - 1];
      GreedySpreads(rest, count, w);
      var g := Greedy(rest, count, w);
      FlattenAfterPlacing(g, LeastLoaded(Loads(g, w)), files[|files| - 1]);
      assert files == rest + [files[|files| - 1]];
    }
  }

  lemma {:induction false} OnSomeShard(shards: seq<seq<File>>, file: File)
    ensures file in Flatten(shards) <==> exists k :: 0 <= k < |shards| && file in shards[k]
  {
    if shards != [] {
      var n := |shards| - 1;
      OnSomeShard(shards[..n], file);
      if file in shards[n] { }
      if file in Flatten(shards[..n]) {
        var k :| 0 <= k < n && file in shards[..n][k];
        assert file in shards[k];
      }
      if k :| 0 <= k < |shards| && file in shards[k] {
        if k < n { assert file in shards[..n][k]; }
      }
    }
  }

  lemma SpreadFile(shards: seq<seq<File>>, files: seq<File>, file: File)
    requires Spreads(shards, files)
    ensures file in files <==> exists k :: 0 <= k < |shards| && file in shards[k]
  {
    OnSomeShard(shards, file);
    SameMultisetSameElements(Flatten(shards), files);
  }

  lemma SpreadTotal(shards: seq<seq<File>>, files: seq<File>, f: File -> int)
    requires Spreads(shards, files)
    ensures Sum(shards, TotalOf(f)) == Sum(files, f)
  {
    SumPermuted(Flatten(shards), files, f);
    SumOfFlattened(shards, f);
  }

  // ---------------------------------------------------------------- when each shard took its last file

  /** Later placements only add load. */
  lemma {:induction false} LoadsGrow(files: seq<File>, i: nat, count: nat, w: File -> int, k: nat)
    requires count >= 1 && i <= |files| && k < count
    requires forall f :: f in files ==> w(f) >= 1
    ensures Sum(Greedy(files[..i], count, w)[k], w) <= Sum(Greedy(files, count, w)[k], w)
    decreases |files|
  {
    hide Greedy, Sum;
    if i == |files| {
      assert files[..i] == files;
    } else {
      var n := |files| - 1;
      assert files[..n][..i] == files[..i];
      LoadsGrow(files[..n], i, count, w, k);
      OnePlacementAdds(files, count, w, k);
    }
  }

  lemma OnePlacementAdds(files: seq<File>, count: nat, w: File -> int, k: nat)
    requires count >= 1 && files != [] && k < count && w(files[|files| - 1]) >= 1
    ensures Sum(Greedy(files[..|files| - 1], count, w)[k], w) <= Sum(Greedy(files, count, w)[k], w)
  {
    hide Sum;
    SumSnoc(Greedy(files[..|files| - 1], count, w)[k], files[|files| - 1], w);
  }

  lemma LeastLoadedShard(g: seq<seq<File>>, w: File -> int)
    requires g != []
    ensures forall j :: 0 <= j < |g| ==> Sum(g[LeastLoaded(Loads(g, w))], w) <= Sum(g[j], w)
  {
    var t := LeastLoaded(Loads(g, w));
    forall j | 0 <= j < |g| ensures Sum(g[t], w) <= Sum(g[j], w) {
      assert Loads(g, w)[t] <= Loads(g, w)[j];
    }
  }

  lemma PlacedFilesAreLarger(files: seq<File>, count: nat, w: File -> int, k: nat)
    requires count >= 1 && k < count && files != [] && Descending(files, w)
    ensures forall f :: f in Greedy(files[..|files| - 1], count, w)[k] ==> w(f) >= w(files[|files| - 1])
  {
    var rest := files[..|files| - 1];
    GreedySpreads(rest, count, w);
    forall f | f in Greedy(rest, count, w)[k] ensures w(f) >= w(files[|files| - 1]) {
      SpreadFile(Greedy(rest, count, w), rest, f);
      var x :| 0 <= x < |rest| && rest[x] == f;
      assert files[x] == f;
    }
  }

  /** The moment shard k took its last file: it was then a least loaded shard. */
  lemma {:induction false} LastPlaced(files: seq<File>, count: nat, w: File -> int, k: nat) returns (i: nat)
    requires count >= 1 && k < count && Greedy(files, count, w)[k] != []
    requires Descending(files, w) && forall f :: f in files ==> w(f) >= 1
    ensures i < |files|
    ensures Sum(Greedy(files, count, w)[k], w) == Sum(Greedy(files[..i], count, w)[k], w) + w(files[i])
    ensures forall j :: 0 <= j < count ==>
              Sum(Greedy(files[..i], count, w)[k], w) <= Sum(Greedy(files[..i], count, w)[j], w)
    ensures forall f :: f in Greedy(files, count, w)[k] ==> w(f) >= w(files[i])
  {
    hide Sum;
    var n := |files| - 1;
    var g := Greedy(files[..n], count, w);
    var t := LeastLoaded(Loads(g, w));
    if t == k {
      i := n;
      SumSnoc(g[k], files[n], w);
      LeastLoadedShard(g, w);
      PlacedFilesAreLarger(files, count, w, k);
    } else {
      i := LastPlaced(files[..n], count, w, k);
      assert files[..n][..i] == files[..i];
    }
  }

  // ---------------------------------------------------------------- bounds

  /** No file can be taken off a shard and leave it above another. */
  lemma BalancedWithoutAnyFile(files: seq<File>, count: nat, w: File -> int, k: nat, j: nat, f: File)
    requires count >= 1 && k < count && j < count
    requires Descending(files, w) && forall x :: x in files ==> w(x) >= 1
    requires f in Greedy(files, count, w)[k]
    ensures Sum(Greedy(files, count, w)[k], w) - w(f) <= Sum(Greedy(files, count, w)[j], w)
  {
    var i := LastPlaced(files, count, w, k);
    LoadsGrow(files, i, count, w, j);
  }

  /** What was placed before file i, and file i itself, all fit under any other spread. */
  lemma PrefixFits(files: seq<File>, i: nat, w: File -> int, other: seq<seq<File>>, M: int)
    requires i < |files| && Spreads(other, files)
    requires forall x :: x in files ==> w(x) >= 1
    requires forall k :: 0 <= k < |other| ==> Sum(other[k], w) <= M
    ensures Sum(files[..i], w) + w(files[i]) <= |other| * M
    ensures w(files[i]) <= M
  {
    SpreadTotal(other, files, w);
    SumAtMost(other, TotalOf(w), M);
    PrefixTotal(files, i, w);
    SpreadFile(other, files, files[i]);
    var k :| 0 <= k < |other| && files[i] in other[k];
    forall y | y in other[k] ensures w(y) >= 0 { SpreadFile(other, files, y); }
    SumAtLeastMember(other[k], w, files[i]);
  }

  /** The least load among the shards is at most their average. */
  lemma LeastIsBelowAverage(files: seq<File>, i: nat, count: nat, w: File -> int, k: nat)
    requires count >= 1 && i <= |files| && k < count
    requires forall j :: 0 <= j < count ==>
               Sum(Greedy(files[..i], count, w)[k], w) <= Sum(Greedy(files[..i], count, w)[j], w)
    ensures count * Sum(Greedy(files[..i], count, w)[k], w) <= Sum(files[..i], w)
  {
    var g := Greedy(files[..i], count, w);
    GreedySpreads(files[..i], count, w);
    SpreadTotal(g, files[..i], w);
    SumAtLeast(g, TotalOf(w), Sum(g[k], w));
  }

  lemma ListSchedulingStep(m: nat, t: int, p: int, load: int, M: int)
    requires m >= 1 && 0 <= M
    requires load == 0 || (load == t + p && p <= M && m * t + p <= m * M)
    ensures m * load <= (2 * m - 1) * M
  {
    if load == 0 {
      ScaleUp(2 * m - 1, 0, M);
    } else {
      ScaleUp(m - 1, p, M);
      assert (m - 1) * p == m * p - p;
      assert (m - 1) * M == m * M - M;
      assert m * load == m * t + m * p;
      assert (2 * m - 1) * M == 2 * (m * M) - M;
    }
  }

  lemma LptStep(m: nat, t: int, p: int, load: int, M: int)
    requires m >= 1 && 0 <= M
    requires load == 0 || (load == t + p && p >= 1 && m * t + p <= m * M)
    requires load <= M || 3 * p <= M
    ensures 3 * m * load <= (4 * m - 1) * M
  {
    if load <= M {
      ScaleUp(3 * m, load, M);
      ScaleUp(m - 1, 0, M);
      assert (4 * m - 1) * M == 3 * m * M + (m - 1) * M;
    } else {
      SmallLastFile(m, t, p, M);
    }
  }

  lemma LargestLoadIsNonNegative(files: seq<File>, w: File -> int, other: seq<seq<File>>)
    requires other != [] && Spreads(other, files) && forall x :: x in files ==> w(x) >= 1
    ensures MaxLoad(other, w) >= 0
  {
    forall y | y in other[0] ensures w(y) >= 0 { SpreadFile(other, files, y); }
    SumNonNegative(other[0], w);
  }

  /** Counting units for files among `early`: 2 if nothing as large as p fits beside the file, else 1. */
  function Units(early: seq<File>, w: File -> int, p: int, M: int): File -> int {
    f => if f in early then (if w(f) + p > M then 2 else 1) else 0
  }

  /** A shard within M holds at most two units, when three early files never fit together. */
  lemma {:induction false} AtMostTwoUnits(shard: seq<File>, early: seq<File>, w: File -> int, p: int, M: int)
    requires 3 * p > M && p >= 1
    requires forall f :: f in shard ==> w(f) >= 0
    requires forall f :: f in early ==> w(f) >= p
    ensures var v, load := Sum(shard, Units(early, w, p, M)), Sum(shard, w);
            && load >= 0
            && (v >= 1 ==> load >= p)
            && (v >= 2 ==> load >= 2 * p || load > M - p)
            && (v >= 3 ==> load > M)
  {
    if shard != [] {
      assert shard[|shard| - 1] in shard;
      AtMostTwoUnits(shard[..|shard| - 1], early, w, p, M);
    }
  }

  /** A shard no file of size p can join holds at least two units. */
  lemma {:induction false} AtLeastTwoUnits(shard: seq<File>, early: seq<File>, w: File -> int, p: int, M: int)
    requires p <= M
    requires forall f :: f in shard ==> f in early
    ensures var v, load := Sum(shard, Units(early, w, p, M)), Sum(shard, w);
            && v >= 0
            && (v == 0 ==> load == 0)
            && (v == 1 ==> load + p <= M)
  {
    if shard != [] {
      assert shard[|shard| - 1] in shard;
      AtLeastTwoUnits(shard[..|shard| - 1], early, w, p, M);
    }
  }

  /** Any spread within M has room for at most two units a shard. */
  lemma UnitsThatFit(files: seq<File>, early: seq<File>, w: File -> int, other: seq<seq<File>>, p: int, M: int)
    requires Spreads(other, files) && 3 * p > M && p >= 1
    requires forall x :: x in files ==> w(x) >= 1
    requires forall x :: x in early ==> w(x) >= p
    requires forall k :: 0 <= k < |other| ==> Sum(other[k], w) <= M
    ensures Sum(files, Units(early, w, p, M)) <= |other| * 2
  {
    var v := Units(early, w, p, M);
    forall s | s in other ensures TotalOf(v)(s) <= 2 {
      forall f | f in s ensures w(f) >= 0 { SpreadFile(other, files, f); }
      AtMostTwoUnits(s, early, w, p, M);
    }
    SumAtMost(other, TotalOf(v), 2);
    SpreadTotal(other, files, v);
  }

  /** Where no shard can take p more, the placed files are worth two units a shard. */
  lemma UnitsAlreadyPlaced(placed: seq<File>, early: seq<File>, g: seq<seq<File>>, w: File -> int, p: int, M: int)
    requires Spreads(g, placed) && p <= M
    requires forall x :: x in placed ==> x in early
    requires forall k :: 0 <= k < |g| ==> Sum(g[k], w) + p > M
    ensures Sum(placed, Units(early, w, p, M)) >= |g| * 2
  {
    var v := Units(early, w, p, M);
    forall s | s in g ensures TotalOf(v)(s) >= 2 {
      forall f | f in s ensures f in early { SpreadFile(g, placed, f); }
      AtLeastTwoUnits(s, early, w, p, M);
    }
    SumAtLeast(g, TotalOf(v), 2);
    SpreadTotal(g, placed, v);
  }

  lemma PrefixTotal(files: seq<File>, i: nat, v: File -> int)
    requires i < |files| && forall x :: x in files ==> v(x) >= 0
    ensures Sum(files[..i], v) + v(files[i]) <= Sum(files, v)
  {
    assert files == (files[..i] + [files[i]]) + files[i + 1..];
    SumAppend(files[..i] + [files[i]], files[i + 1..], v);
    SumSnoc(files[..i], files[i], v);
    SumNonNegative(files[i + 1..], v);
  }

  lemma EarlyFilesAreLarge(files: seq<File>, i: nat, w: File -> int)
    requires i < |files| && Descending(files, w)
    ensures forall x :: x in files[..i + 1] ==> w(x) >= w(files[i])
    ensures forall x :: x in files[..i] ==> x in files[..i + 1]
    ensures files[i] in files[..i + 1]
  {
    assert files[..i + 1] == files[..i] + [files[i]];
    forall x | x in files[..i + 1] ensures w(x) >= w(files[i]) {
      var j :| 0 <= j <= i && files[..i + 1][j] == x;
      assert x == files[j];
    }
  }

  /**
   * If even the last of the files so far is over a third of M, some shard still has room for it:
   * otherwise the files placed so far are worth more units than `other` has space for.
   */
  lemma SomeShardHasRoom(files: seq<File>, i: nat, count: nat, w: File -> int, other: seq<seq<File>>, M: int)
    requires count >= 1 && i < |files| && |other| == count && Spreads(other, files)
    requires Descending(files, w) && forall x :: x in files ==> w(x) >= 1
    requires forall k :: 0 <= k < count ==> Sum(other[k], w) <= M
    requires 3 * w(files[i]) > M
    ensures exists k :: 0 <= k < count && Sum(Greedy(files[..i], count, w)[k], w) + w(files[i]) <= M
  {
    var g := Greedy(files[..i], count, w);
    var p, early := w(files[i]), files[..i + 1];
    if forall k :: 0 <= k < count ==> Sum(g[k], w) + p > M {
      PrefixFits(files, i, w, other, M);
      EarlyFilesAreLarge(files, i, w);
      UnitsThatFit(files, early, w, other, p, M);
      GreedySpreads(files[..i], count, w);
      UnitsAlreadyPlaced(files[..i], early, g, w, p, M);
      PrefixTotal(files, i, Units(early, w, p, M));
      assert false;
    }
  }

  /** What the last placement on shard k says about it, measured against any other spread. */
  lemma LastPlacement(files: seq<File>, count: nat, w: File -> int, other: seq<seq<File>>, M: int, k: nat)
    returns (t: int, p: int)
    requires count >= 1 && k < count && |other| == count && Spreads(other, files)
    requires Descending(files, w) && forall x :: x in files ==> w(x) >= 1
    requires forall j :: 0 <= j < count ==> Sum(other[j], w) <= M
    ensures var load := Sum(Greedy(files, count, w)[k], w);
            load == 0 || (load == t + p && 1 <= p <= M && count * t + p <= count * M && (3 * p > M ==> load <= M))
  {
    t, p := 0, 0;
    if Greedy(files, count, w)[k] != [] {
      var i := LastPlaced(files, count, w, k);
      t, p := Sum(Greedy(files[..i], count, w)[k], w), w(files[i]);
      PrefixFits(files, i, w, other, M);
      LeastIsBelowAverage(files, i, count, w, k);
      if 3 * p > M {
        SomeShardHasRoom(files, i, count, w, other, M);
      }
    }
  }

  /** List scheduling: m * load <= (2m - 1) * M against any other spread of largest load M. */
  lemma ListSchedulingBound(files: seq<File>, count: nat, w: File -> int, other: seq<seq<File>>, k: nat)
    requires count >= 1 && k < count && |other| == count && Spreads(other, files)
    requires Descending(files, w) && forall x :: x in files ==> w(x) >= 1
    ensures count * Sum(Greedy(files, count, w)[k], w) <= (2 * count - 1) * MaxLoad(other, w)
  {
    var M := MaxLoad(other, w);
    LargestLoadIsNonNegative(files, w, other);
    var t, p := LastPlacement(files, count, w, other, M, k);
    ListSchedulingStep(count, t, p, Sum(Greedy(files, count, w)[k], w), M);
  }

  /**
   * Graham's bound: against any other spread over as many shards, with largest load M,
   * 3m * load <= (4m - 1) * M for every shard.
   */
  lemma LongestProcessingTimeBound(files: seq<File>, count: nat, w: File -> int, other: seq<seq<File>>, k: nat)
    requires count >= 1 && k < count && |other| == count && Spreads(other, files)
    requires Descending(files, w) && forall x :: x in files ==> w(x) >= 1
    ensures 3 * count * Sum(Greedy(files, count, w)[k], w) <= (4 * count - 1) * MaxLoad(other, w)
  {
    var M := MaxLoad(other, w);
    LargestLoadIsNonNegative(files, w, other);
    var t, p := LastPlacement(files, count, w, other, M, k);
    LptStep(count, t, p, Sum(Greedy(files, count, w)[k], w), M);
  }

  lemma ScaleUp(c: nat, x: int, y: int)
    requires x <= y
    ensures c * x <= c * y
  {
  }

  lemma SmallLastFile(m: nat, t: int, p: int, M: int)
    requires m >= 1 && p >= 1 && 3 * p <= M
    requires m * t + p <= m * M
    ensures 3 * m * (t + p) <= (4 * m - 1) * M
  {
    ScaleUp(m - 1, 3 * p, M);
    assert (m - 1) * (3 * p) == 3 * (m * p) - 3 * p;
    assert (m - 1) * M == m * M - M;
    assert 3 * m * (t + p) == 3 * (m * t) + 3 * (m * p);
    assert (4 * m - 1) * M == 4 * (m * M) - M;
  }

  // ---------------------------------------------------------------- every shard gets work

  /** While there are at most as many files as shards, each file opens a shard of its own. */
  lemma {:induction false} EarlyFilesOpenShards(files: seq<File>, count: nat, w: File -> int)
    requires count >= 1 && forall x :: x in files ==> w(x) >= 1
    ensures forall k :: 0 <= k < count && k < |files| ==> Greedy(files, count, w)[k] != []
    ensures |files| <= count ==> forall k :: |files| <= k < count ==> Greedy(files, count, w)[k] == []
  {
    if files != [] {
      var n := |files| - 1;
      EarlyFilesOpenShards(files[..n], count, w);
      var g := Greedy(files[..n], count, w);
      if n < count {
        GreedySpreads(files[..n], count, w);
        assert Loads(g, w)[n] == 0;
        forall k | 0 <= k < n ensures Loads(g, w)[k] >= 1 {
          forall y | y in g[k] ensures w(y) >= 1 {
            SpreadFile(g, files[..n], y);
            assert y in files;
          }
          assert g[k][0] in g[k];
          SumAtLeastMember(g[k], w, g[k][0]);
        }
        assert LeastLoaded(Loads(g, w)) == n by {
          forall k | n < k < count ensures Loads(g, w)[k] == 0 { }
          assert Loads(g, w)[LeastLoaded(Loads(g, w))] <= Loads(g, w)[n];
        }
      }
    }
  }

  // ---------------------------------------------------------------- validation

  function Elements(s: seq<File>): (r: set<File>)
    ensures forall f :: f in r <==> f in s
  {
    set f | f in s
  }

  lemma DistinctSnoc(s: seq<File>, x: File)
    ensures Distinct(s + [x]) <==> Distinct(s) && x !in s
  {
    var t := s + [x];
    if Distinct(t) {
      assert x == t[|s|];
      forall i, j | 0 <= i < j < |s| ensures s[i] != s[j] { assert s[i] == t[i] && s[j] == t[j]; }
      forall i | 0 <= i < |s| ensures s[i] != x { assert s[i] == t[i]; }
    }
  }

  lemma {:induction false} CountsItsElements(s: seq<File>)
    ensures |Elements(s)| <= |s|
    ensures |Elements(s)| == |s| <==> Distinct(s)
  {
    if s != [] {
      var n := |s| - 1;
      CountsItsElements(s[..n]);
      DistinctSnoc(s[..n], s[n]);
      assert s == s[..n] + [s[n]];
      assert Elements(s) == Elements(s[..n]) + {s[n]};
      if s[n] in s[..n] {
        assert Elements(s) == Elements(s[..n]);
      }
    }
  }

  lemma {:induction false} DistinctMultiset(s: seq<File>)
    requires Distinct(s)
    ensures multiset(s) == multiset(Elements(s))
  {
    if s != [] {
      var n := |s| - 1;
      DistinctMultiset(s[..n]);
      assert s == s[..n] + [s[n]];
      assert Elements(s) == Elements(s[..n]) + {s[n]};
      assert s[n] !in s[..n];
    }
  }

  /** The check a caller repeats: non-empty shards, no file twice, exactly the given files. */
  predicate Validates(shards: seq<seq<File>>, files: seq<File>) {
    var flattened := Flatten(shards);
    && shards != []
    && (forall k :: 0 <= k < |shards| ==> shards[k] != [])
    && |flattened| == |Elements(flattened)|
    && Elements(flattened) == Elements(files)
  }

  lemma ValidationMeansSpread(shards: seq<seq<File>>, files: seq<File>)
    requires Distinct(files)
    ensures Validates(shards, files) <==>
            shards != [] && (forall k :: 0 <= k < |shards| ==> shards[k] != []) && Spreads(shards, files)
  {
    var flattened := Flatten(shards);
    CountsItsElements(flattened);
    CountsItsElements(files);
    DistinctMultiset(files);
    if Validates(shards, files) {
      DistinctMultiset(flattened);
    }
    if Spreads(shards, files) {
      SameMultisetSameElements(flattened, files);
      assert Elements(flattened) == Elements(files);
    }
  }

  // ---------------------------------------------------------------- the procedure

  /** The order the files are placed in. */
  function PlacingOrder(files: seq<File>, weights: map<File, int>): seq<File> {
    SortBy(files, HeaviestFirst(weights))
  }

  lemma PlacingOrderDescends(files: seq<File>, weights: map<File, int>)
    ensures Descending(PlacingOrder(files, weights), Weight(weights))
  {
    HeaviestFirstIsTotalPreorder(weights);
    SortIsSorted(files, HeaviestFirst(weights));
    var order := PlacingOrder(files, weights);
    forall i, j | 0 <= i < j < |order| ensures Weight(weights)(order[i]) >= Weight(weights)(order[j]) {
      assert HeaviestFirst(weights)(order[i], order[j]);
    }
  }

  /** At the first character where they differ a has the earlier one, or a is the beginning of b. */
  ghost predicate ReadsBefore(a: File, b: File) {
    exists n :: 0 <= n <= |a| && n <= |b| && DiffersAt(a, b, n)
  }

  predicate DiffersAt(a: File, b: File, n: nat)
    requires n <= |a| && n <= |b|
  {
    a[..n] == b[..n] && n < |b| && (n == |a| || a[n] < b[n])
  }

  lemma {:induction false} LexReadsBefore(a: File, b: File)
    requires LexLe(a, b) && a != b
    ensures ReadsBefore(a, b)
  {
    if a == [] {
      assert DiffersAt(a, b, 0);
    } else if a[0] < b[0] {
      assert DiffersAt(a, b, 0);
    } else {
      assert a == [a[0]] + a[1..] && b == [b[0]] + b[1..];
      LexReadsBefore(a[1..], b[1..]);
      var n :| 0 <= n <= |a[1..]| && n <= |b[1..]| && DiffersAt(a[1..], b[1..], n);
      assert a[..n + 1] == [a[0]] + a[1..][..n] && b[..n + 1] == [b[0]] + b[1..][..n];
      assert DiffersAt(a, b, n + 1);
    }
  }

  /** Every file is placed before the lighter ones, and before those of its own weight that read later. */
  lemma HeaviestThenEarliest(files: seq<File>, weights: map<File, int>)
    requires Distinct(files) && forall f :: f in files ==> f in weights
    ensures var order := PlacingOrder(files, weights);
            && multiset(order) == multiset(files)
            && (forall f :: f in order ==> f in weights)
            && forall i, j :: 0 <= i < j < |order| ==>
                 || weights[order[i]] > weights[order[j]]
                 || (weights[order[i]] == weights[order[j]] && ReadsBefore(order[i], order[j]))
  {
    hide ReadsBefore;
    var order := PlacingOrder(files, weights);
    HeaviestFirstIsTotalPreorder(weights);
    SortIsSorted(files, HeaviestFirst(weights));
    PermutationKeepsDistinct(files, order);
    forall i, j | 0 <= i < j < |order|
      ensures weights[order[i]] >= weights[order[j]]
      ensures weights[order[i]] == weights[order[j]] ==> ReadsBefore(order[i], order[j])
    {
      assert order[i] in files && order[j] in files;
      assert HeaviestFirst(weights)(order[i], order[j]);
      assert Weight(weights)(order[i]) == weights[order[i]] && Weight(weights)(order[j]) == weights[order[j]];
      if weights[order[i]] == weights[order[j]] { LexReadsBefore(order[i], order[j]); }
    }
  }

  /** So does each shard list its paths. */
  lemma EachShardReadsInOrder(shards: seq<seq<File>>, unsorted: seq<seq<File>>, k: nat)
    requires SortedWithin(shards, unsorted) && k < |shards| && Distinct(unsorted[k])
    ensures multiset(shards[k]) == multiset(unsorted[k])
    ensures forall i, j :: 0 <= i < j < |shards[k]| ==> ReadsBefore(shards[k][i], shards[k][j])
  {
    hide ReadsBefore, LexLe;
    LexIsTotalPreorder();
    SortIsSorted(unsorted[k], LexLe);
    PermutationKeepsDistinct(unsorted[k], shards[k]);
    forall i, j | 0 <= i < j < |shards[k]| ensures ReadsBefore(shards[k][i], shards[k][j]) {
      LexReadsBefore(shards[k][i], shards[k][j]);
    }
  }

  lemma {:induction false} LexAntisymmetric(a: File, b: File)
    requires LexLe(a, b) && LexLe(b, a)
    ensures a == b
  {
    if a != [] {
      LexAntisymmetric(a[1..], b[1..]);
      assert a == [a[0]] + a[1..] && b == [b[0]] + b[1..];
    }
  }

  /** The order, and so the whole assignment, does not depend on the order the weights are listed in. */
  lemma ListingOrderDoesNotMatter(files: seq<File>, again: seq<File>, weights: map<File, int>)
    requires multiset(files) == multiset(again)
    ensures PlacingOrder(files, weights) == PlacingOrder(again, weights)
  {
    var le := HeaviestFirst(weights);
    HeaviestFirstIsTotalPreorder(weights);
    forall a, b | le(a, b) && le(b, a) ensures a == b { LexAntisymmetric(a, b); }
    SortIsSorted(files, le);
    SortIsSorted(again, le);
    SortedArrangementIsUnique(SortBy(files, le), SortBy(again, le), le);
  }

  /** The same shards with each one's paths in order. */
  ghost predicate SortedWithin(shards: seq<seq<File>>, unsorted: seq<seq<File>>) {
    && |shards| == |unsorted|
    && forall k :: 0 <= k < |shards| ==> shards[k] == SortBy(unsorted[k], LexLe)
  }

  lemma {:induction false} SortingWithinKeepsFiles(shards: seq<seq<File>>, unsorted: seq<seq<File>>)
    requires SortedWithin(shards, unsorted)
    ensures multiset(Flatten(shards)) == multiset(Flatten(unsorted))
  {
    if shards != [] {
      var n := |shards| - 1;
      SortingWithinKeepsFiles(shards[..n], unsorted[..n]);
    }
  }

  lemma SortingWithinKeepsLoads(shards: seq<seq<File>>, unsorted: seq<seq<File>>, w: File -> int)
    requires SortedWithin(shards, unsorted)
    ensures forall k :: 0 <= k < |shards| ==> Sum(shards[k], w) == Sum(unsorted[k], w)
  {
    forall k | 0 <= k < |shards| ensures Sum(shards[k], w) == Sum(unsorted[k], w) {
      SumPermuted(shards[k], unsorted[k], w);
    }
  }

  lemma NoShardIsEmpty(order: seq<File>, count: nat, w: File -> int, shards: seq<seq<File>>)
    requires 1 <= count <= |order| && forall x :: x in order ==> w(x) >= 1
    requires SortedWithin(shards, Greedy(order, count, w))
    ensures forall k :: 0 <= k < count ==> shards[k] != []
  {
    EarlyFilesOpenShards(order, count, w);
  }

  /** Sorting the paths within each shard changes neither what is spread nor any load. */
  lemma AssignedShards(files: seq<File>, weights: map<File, int>, count: nat, shards: seq<seq<File>>)
    requires 1 <= count <= |files| && Distinct(files)
    requires forall f :: f in files <==> f in weights
    requires forall f :: f in weights ==> weights[f] >= 1
    requires SortedWithin(shards, Greedy(PlacingOrder(files, weights), count, Weight(weights)))
    ensures Validates(shards, files)
    ensures forall k :: 0 <= k < count ==>
              Sum(shards[k], Weight(weights))
                  == Sum(Greedy(PlacingOrder(files, weights), count, Weight(weights))[k], Weight(weights))
  {
    var order, w := PlacingOrder(files, weights), Weight(weights);
    var g := Greedy(order, count, w);
    assert Spreads(shards, files) by {
      GreedySpreads(order, count, w);
      SortingWithinKeepsFiles(shards, g);
    }
    NoShardIsEmpty(order, count, w, shards);
    ValidationMeansSpread(shards, files);
    SortingWithinKeepsLoads(shards, g, w);
  }

  /** No other spread over as many shards has a largest load below 3m / (4m - 1) of this one's. */
  lemma AssignmentBound(files: seq<File>, weights: map<File, int>, count: nat, shards: seq<seq<File>>,
          other: seq<seq<File>>)
    requires 1 <= count <= |files| && Distinct(files)
    requires forall f :: f in files <==> f in weights
    requires forall f :: f in weights ==> weights[f] >= 1
    requires SortedWithin(shards, Greedy(PlacingOrder(files, weights), count, Weight(weights)))
    requires |other| == count && Spreads(other, files)
    ensures 3 * count * MaxLoad(shards, Weight(weights)) <= (4 * count - 1) * MaxLoad(other, Weight(weights))
  {
    var order, w := PlacingOrder(files, weights), Weight(weights);
    AssignedShards(files, weights, count, shards);
    PlacingOrderDescends(files, weights);
    var k :| 0 <= k < |shards| && MaxLoad(shards, w) == Sum(shards[k], w);
    LongestProcessingTimeBound(order, count, w, other, k);
  }

  /** One file joins the shard that is least loaded when its turn comes. */
  method PlaceOne(file: File, weight: int, shards: array<seq<File>>, loads: array<int>, ghost w: File -> int)
    requires shards.Length >= 1 && shards != loads as object && w(file) == weight
    requires loads[..] == Loads(shards[..], w)
    modifies shards, loads
    ensures shards[..] == Place(old(shards[..]), file, w)
    ensures loads[..] == Loads(shards[..], w)
  {
    ghost var was, loadsWere := shards[..], loads[..];
    var target := LeastLoaded(loads[..]);
    shards[target] := shards[target] + [file];
    loads[target] := loads[target] + weight;
    assert shards[..] == was[target := was[target] + [file]];
    assert loads[..] == loadsWere[target := loadsWere[target] + weight];
  }

  method PlaceAll(order: seq<File>, weights: map<File, int>, shards: array<seq<File>>, loads: array<int>)
    requires shards.Length >= 1 && shards != loads as object
    requires forall f :: f in order ==> f in weights
    requires shards[..] == Greedy([], shards.Length, Weight(weights))
    requires loads[..] == Loads(shards[..], Weight(weights))
    modifies shards, loads
    ensures shards[..] == Greedy(order, shards.Length, Weight(weights))
  {
    ghost var w := Weight(weights);
    for i := 0 to |order|
      invariant shards[..] == Greedy(order[..i], shards.Length, w)
      invariant loads[..] == Loads(shards[..], w)
    {
      PlaceOne(order[i], weights[order[i]], shards, loads, w);
      assert order[..i + 1][..i] == order[..i];
    }
    assert order[..|order|] == order;
  }

  method SortEach(shards: array<seq<File>>)
    modifies shards
    ensures SortedWithin(shards[..], old(shards[..]))
  {
    ghost var before := shards[..];
    for k := 0 to shards.Length
      invariant SortedWithin(shards[..k], before[..k])
      invariant shards[k..] == before[k..]
    {
      ghost var done := shards[..k];
      assert shards[k] == shards[k..][0] == before[k];
      var sorted := SortBy(shards[k], LexLe);
      shards[k] := sorted;
      assert shards[..k + 1] == done + [sorted];
      assert shards[k + 1..] == before[k..][1..];
    }
    assert shards[..shards.Length] == shards[..] && before[..shards.Length] == before;
  }

  /** `files` lists the keys of `weights` in their own order. */
  method Assign(weights: map<File, int>, files: seq<File>, count: int) returns (r: Assignment)
    requires Distinct(files) && forall f :: f in files <==> f in weights
    ensures r.Refused? <==> count < 1 || count > |files| || exists f :: f in weights && weights[f] < 1
    ensures r.Assigned? ==> |r.shards| == count && Validates(r.shards, files)
    ensures r.Assigned? ==>
              SortedWithin(r.shards, Greedy(PlacingOrder(files, weights), count, Weight(weights)))
    ensures r.Assigned? ==> forall other :: |other| == count && Spreads(other, files) ==>
              3 * count * MaxLoad(r.shards, Weight(weights)) <= (4 * count - 1) * MaxLoad(other, Weight(weights))
  {
    if count < 1 || count > |files| || exists f | f in weights :: weights[f] < 1 {
      return Refused;
    }
    var shards := new seq<File>[count](_ => []);
    var loads := new int[count](_ => 0);
    assert shards[..] == Greedy([], count, Weight(weights));
    assert loads[..] == Loads(shards[..], Weight(weights));
    PlaceAll(PlacingOrder(files, weights), weights, shards, loads);
    SortEach(shards);
    var result := shards[..];
    AssignedShards(files, weights, count, result);
    if !Validates(result, files) {
      return Refused;
    }
    forall other | |other| == count && Spreads(other, files)
      ensures 3 * count * MaxLoad(result, Weight(weights)) <= (4 * count - 1) * MaxLoad(other, Weight(weights))
    {
      AssignmentBound(files, weights, count, result, other);
    }
    r := Assigned(result);
  }
}
