/** Both phases of the calculation: matched actuals, then the unattributed pools of each month. */
module RemainingForecast {
  import opened Amounts
  import opened Calendar
  import opened Sums
  import opened Sorting
  import opened ForecastMatching
  import opened ForecastRemainders
  import opened UnattributedSpread

  const ScopedThenId: (Line, Line) -> bool := (a: Line, b: Line) =>
    if a.phase.Some? != b.phase.Some? then a.phase.Some? else a.id <= b.id

  const ById: (Line, Line) -> bool := (a: Line, b: Line) => a.id <= b.id

  function TurnOrder(lines: seq<Line>): seq<Line> { SortBy(lines, ScopedThenId) }

  lemma TurnOrderIsSound(lines: seq<Line>)
    requires DistinctLines(lines) && NonNegativeLines(lines)
    ensures var order := TurnOrder(lines);
            ScopedFirst(order) && DistinctLines(order) && NonNegativeLines(order) && multiset(order) == multiset(lines)
  {
    var order := TurnOrder(lines);
    assert TotalPreorder(ScopedThenId);
    SortIsSorted(lines, ScopedThenId);
    forall i, j | 0 <= i < j < |order| && order[i].phase.None? ensures order[j].phase.None? {
      assert ScopedThenId(order[i], order[j]);
    }
    LinesStayDistinct(lines, order);
    forall j | 0 <= j < |order| ensures order[j].amount >= 0 { assert order[j] in lines; }
  }

  lemma LinesStayDistinct(s: seq<Line>, t: seq<Line>)
    requires DistinctLines(s) && multiset(s) == multiset(t)
    ensures DistinctLines(t)
  {
    PermutationKeepsDistinct(s, t);
    SameMultisetSameElements(t, s);
    forall i, j | 0 <= i < j < |t| ensures t[i].id != t[j].id {
      assert t[i] in s && t[j] in s && t[i] != t[j];
    }
  }

  // ---------------------------------------------------------------- matched actuals

  /** Every line at its governed amount. */
  function AmountsOf(lines: seq<Line>): map<int, int> {
    if lines == [] then map[] else AmountsOf(lines[..|lines| - 1])[lines[|lines| - 1].id := lines[|lines| - 1].amount]
  }

  lemma {:induction false} AmountsAreTheirOwn(lines: seq<Line>)
    requires DistinctLines(lines)
    ensures forall j :: 0 <= j < |lines| ==>
              lines[j].id in AmountsOf(lines) && AmountsOf(lines)[lines[j].id] == lines[j].amount
  {
    if lines != [] {
      AmountsAreTheirOwn(lines[..|lines| - 1]);
      assert forall j :: 0 <= j < |lines| - 1 ==> lines[j] == lines[..|lines| - 1][j];
    }
  }

  /** What is expected of each line once the first n in order have had their turn. */
  function AfterTurns(order: seq<Line>, n: nat, keys: seq<Key>, matched: Pools): map<int, int>
    requires n <= |order|
  {
    if n == 0 then AmountsOf(order)
    else
      var left := order[n - 1].amount - Taken(keys, matched, order, n - 1);
      AfterTurns(order, n - 1, keys, matched)[order[n - 1].id := left]
  }

  /** What matching leaves of each line: a function of the pools, not of the order they are visited in. */
  function AfterMatching(lines: seq<Line>, keys: seq<Key>, matched: Pools): map<int, int> {
    AfterTurns(TurnOrder(lines), |lines|, keys, matched)
  }

  ghost predicate Lists(keys: seq<Key>, pools: Pools) {
    Distinct(keys) && forall key :: key in keys <==> key in pools
  }

  /** Where the turns stand, both as a plan and in closed form. */
  ghost predicate Turned(order: seq<Line>, n: nat, keys: seq<Key>, matched: Pools, left: Pools,
          remaining: map<int, int>, plan: seq<Take>)
    requires n <= |order|
  {
    && Matched(order, n, matched, left, remaining, plan)
    && OwnPools(matched, left, order, n)
    && GroupPools(keys, matched, left, order, n)
    && remaining == AfterTurns(order, n, keys, matched)
  }

  lemma NoTurnsYet(order: seq<Line>, keys: seq<Key>, matched: Pools)
    requires DistinctLines(order) && NonNegativeLines(order)
    ensures Turned(order, 0, keys, matched, matched, AmountsOf(order), [])
  {
    AmountsAreTheirOwn(order);
    assert order[..0] == [];
  }

  lemma OneMoreTurn(order: seq<Line>, n: nat, keys: seq<Key>, matched: Pools, left: Pools, after: Pools,
          remaining: map<int, int>, plan: seq<Take>, rest: int, takes: seq<Take>)
    requires DistinctLines(order) && ScopedFirst(order) && NonNegativeLines(order) && n < |order|
    requires Lists(keys, matched)
    requires Turned(order, n, keys, matched, left, remaining, plan)
    requires Turn(order[n], left, after, rest, takes)
    ensures Turned(order, n + 1, keys, matched, after, remaining[order[n].id := rest], plan + takes)
  {
    hide Matched, OwnPools, GroupPools, Turn, Taken, Sum;
    TurnKeepsMatched(order, n, matched, left, after, remaining, plan, rest, takes);
    KeysAgree(order, n, matched, left);
    if General(order[n]) {
      GeneralTurn(keys, matched, left, after, order, n, rest, takes);
      GeneralTurnKeepsOwn(matched, left, after, order, n, rest, takes);
    } else {
      OwnTurn(keys, matched, left, after, order, n, rest, takes);
      OwnTurnKeepsGroups(keys, matched, left, after, order, n, rest, takes);
    }
  }

  lemma KeysAgree(order: seq<Line>, n: nat, matched: Pools, left: Pools)
    requires n <= |order| && OwnPools(matched, left, order, n)
    ensures left.Keys == matched.Keys
  {
  }

  /** Consume each pool at most once, phase-scoped lines first. `keys` lists the pools. */
  method MatchLines(lines: seq<Line>, matched: Pools, ghost keys: seq<Key>)
    returns (remaining: map<int, int>, left: Pools, ghost plan: seq<Take>)
    requires DistinctLines(lines) && NonNegativeLines(lines) && Lists(keys, matched)
    ensures remaining == AfterMatching(lines, keys, matched)
    ensures Matched(TurnOrder(lines), |lines|, matched, left, remaining, plan)
    ensures forall rival :: Feasible(rival, TurnOrder(lines), matched) ==> Sum(rival, Cents) <= Sum(plan, Cents)
  {
    hide Turned, Turn, Matched, SortBy, AmountsOf, Feasible, Sum;
    var order := TurnOrder(lines);
    TurnOrderIsSound(lines);
    remaining, left, plan := AmountsOf(order), matched, [];
    NoTurnsYet(order, keys, matched);
    for n := 0 to |order|
      invariant Turned(order, n, keys, matched, left, remaining, plan)
    {
      var rest, after;
      ghost var takes;
      rest, after, takes := TakeTurn(order[n], left);
      OneMoreTurn(order, n, keys, matched, left, after, remaining, plan, rest, takes);
      remaining, left, plan := remaining[order[n].id := rest], after, plan + takes;
    }
    TurnsEnd(order, keys, matched, left, remaining, plan);
    forall rival | Feasible(rival, order, matched) ensures Sum(rival, Cents) <= Sum(plan, Cents) {
      NothingOffsetsMore(order, matched, left, remaining, plan, keys, rival);
    }
  }

  lemma TurnsEnd(order: seq<Line>, keys: seq<Key>, matched: Pools, left: Pools, remaining: map<int, int>,
          plan: seq<Take>)
    requires Turned(order, |order|, keys, matched, left, remaining, plan)
    ensures Matched(order, |order|, matched, left, remaining, plan)
    ensures remaining == AfterTurns(order, |order|, keys, matched)
  {
  }

  /** Lines keep between nothing and their governed amount, and all are accounted for. */
  lemma {:induction false} MatchingKeepsWithin(order: seq<Line>, n: nat, keys: seq<Key>, matched: Pools)
    requires DistinctLines(order) && NonNegativeLines(order) && n <= |order|
    ensures forall j :: 0 <= j < |order| ==>
              order[j].id in AfterTurns(order, n, keys, matched)
                  && 0 <= AfterTurns(order, n, keys, matched)[order[j].id] <= order[j].amount
  {
    hide Sum;
    if n == 0 {
      AmountsAreTheirOwn(order);
    } else {
      MatchingKeepsWithin(order, n - 1, keys, matched);
    }
  }

  lemma {:induction false} AfterTurnsAt(order: seq<Line>, n: nat, keys: seq<Key>, matched: Pools, j: nat)
    requires DistinctLines(order) && j < n <= |order|
    ensures order[j].id in AfterTurns(order, n, keys, matched)
    ensures AfterTurns(order, n, keys, matched)[order[j].id] == order[j].amount - Taken(keys, matched, order, j)
  {
    hide Taken;
    if j < n - 1 { AfterTurnsAt(order, n - 1, keys, matched, j); }
  }

  /** In whatever order the pools are listed, the lines come out the same. */
  lemma ListingPoolsDifferently(keys: seq<Key>, again: seq<Key>, pools: Pools, order: seq<Line>, j: nat)
    requires multiset(keys) == multiset(again) && j < |order|
    ensures Taken(keys, pools, order, j) == Taken(again, pools, order, j)
  {
    SumPermuted(keys, again, GroupLeft(pools, order[..j], order[j].period, order[j].category));
  }

  // ---------------------------------------------------------------- unattributed construction cash

  /** A construction line of a month that still expects something. */
  function OpenIn(remaining: map<int, int>, month: Date): Line -> bool {
    (line: Line) => line.kind == ConstructionPlanKind && line.period == month && line.id in remaining
        && remaining[line.id] > 0
  }

  function OpenLinesOf(lines: seq<Line>, remaining: map<int, int>, month: Date): seq<Line> {
    SortBy(Filter(lines, OpenIn(remaining, month)), ById)
  }

  function PartsOf(codes: seq<Line>, remaining: map<int, int>): (parts: seq<int>)
    ensures |parts| == |codes|
  {
    seq(|codes|, i requires 0 <= i < |codes| => if codes[i].id in remaining then remaining[codes[i].id] else 0)
  }

  function PoolOf(unattributed: map<Date, int>, month: Date): int {
    if month in unattributed then unattributed[month] else 0
  }

  /** A month spread: its open lines share its pool. */
  ghost predicate SpreadIn(after: map<int, int>, before: map<int, int>, lines: seq<Line>, pool: int, month: Date) {
    var codes := OpenLinesOf(lines, before, month);
    var spread := AfterSpread(PartsOf(codes, before), pool);
    forall i :: 0 <= i < |codes| ==> codes[i].id in after && after[codes[i].id] == spread[i]
  }

  /** Every month spread, and nothing else touched. */
  ghost predicate IsSpread(after: map<int, int>, before: map<int, int>, lines: seq<Line>,
          unattributed: map<Date, int>) {
    && after.Keys == before.Keys
    && (forall month :: SpreadIn(after, before, lines, PoolOf(unattributed, month), month))
    && (forall line :: line in lines && line.id in before && !OpenIn(before, line.period)(line) ==>
          after[line.id] == before[line.id])
  }

  /** Half way through: the months done are spread, and everything else is as it was. */
  ghost predicate SpreadExcept(after: map<int, int>, before: map<int, int>, lines: seq<Line>,
          unattributed: map<Date, int>, todo: set<Date>) {
    && after.Keys == before.Keys
    && (forall month :: month !in todo ==> SpreadIn(after, before, lines, PoolOf(unattributed, month), month))
    && (forall line ::
          (line in lines && line.id in before && (line.period in todo || !OpenIn(before, line.period)(line))) ==>
            after[line.id] == before[line.id])
  }

  /** With nothing in its pool a month keeps what it expects. */
  lemma EmptyPoolSpreadsNothing(parts: seq<int>)
    requires OpenLines(parts)
    ensures AfterSpread(parts, 0) == parts
  {
    if parts != [] {
      OpenTotal(parts);
      var n, total := |parts| - 1, Sum(parts, Itself);
      forall i | 0 <= i < |parts| ensures HalfUpShare(0, parts[i], total) == 0 {
        assert 0 * parts[i] == 0;
      }
      SumZeroShares(parts[..n], total);
    }
  }

  lemma SumZeroShares(parts: seq<int>, total: int)
    requires total > 0
    ensures Sum(EarlierShares(parts, 0, total), Itself) == 0
  {
    forall i | 0 <= i < |parts| ensures EarlierShares(parts, 0, total)[i] == 0 {
      assert 0 * parts[i] == 0;
    }
    SumZero(EarlierShares(parts, 0, total), Itself);
  }

  lemma OpenCodes(lines: seq<Line>, remaining: map<int, int>, month: Date)
    requires DistinctLines(lines)
    ensures var codes := OpenLinesOf(lines, remaining, month);
            && DistinctLines(codes)
            && OpenLines(PartsOf(codes, remaining))
            && (forall line :: line in codes <==> line in lines && OpenIn(remaining, month)(line))
  {
    var open := Filter(lines, OpenIn(remaining, month));
    FilterKeepsDistinct(lines, OpenIn(remaining, month));
    LinesStayDistinct(open, OpenLinesOf(lines, remaining, month));
    var codes := OpenLinesOf(lines, remaining, month);
    forall i | 0 <= i < |codes| ensures PartsOf(codes, remaining)[i] > 0 { assert codes[i] in open; }
  }

  lemma {:induction false} FilterKeepsDistinct(lines: seq<Line>, p: Line -> bool)
    requires DistinctLines(lines)
    ensures DistinctLines(Filter(lines, p))
  {
    if lines != [] {
      var n := |lines| - 1;
      FilterKeepsDistinct(lines[..n], p);
      forall line | line in Filter(lines[..n], p) ensures line.id != lines[n].id {
        var j :| 0 <= j < n && lines[..n][j] == line;
        assert lines[j] == line;
      }
    }
  }

  /** The months not yet spread look as they did at the start. */
  lemma SameOpenLines(lines: seq<Line>, before: map<int, int>, now: map<int, int>, month: Date)
    requires now.Keys == before.Keys
    requires forall line :: line in lines && line.id in before && line.period == month ==>
              now[line.id] == before[line.id]
    ensures OpenLinesOf(lines, now, month) == OpenLinesOf(lines, before, month)
    ensures PartsOf(OpenLinesOf(lines, now, month), now) == PartsOf(OpenLinesOf(lines, before, month), before)
  {
    SameFilter(lines, OpenIn(now, month), OpenIn(before, month));
    var codes := OpenLinesOf(lines, before, month);
    forall i | 0 <= i < |codes| ensures PartsOf(codes, now)[i] == PartsOf(codes, before)[i] {
      assert codes[i] in Filter(lines, OpenIn(before, month));
    }
  }

  lemma {:induction false} SameFilter(lines: seq<Line>, p: Line -> bool, q: Line -> bool)
    requires forall line :: line in lines ==> p(line) == q(line)
    ensures Filter(lines, p) == Filter(lines, q)
  {
    if lines != [] {
      forall line | line in lines[..|lines| - 1] ensures p(line) == q(line) { assert line in lines; }
      SameFilter(lines[..|lines| - 1], p, q);
      assert lines[|lines| - 1] in lines;
    }
  }

  /** The first i lines have given up their shares; nothing else has moved. */
  ghost predicate SharedOut(after: map<int, int>, before: map<int, int>, codes: seq<Line>, spread: int, total: int,
          i: nat)
    requires total > 0 && i <= |codes|
  {
    var parts := PartsOf(codes, before);
    && after.Keys == before.Keys
    && (forall k :: 0 <= k < |codes| ==> codes[k].id in after)
    && (forall k :: 0 <= k < i ==> after[codes[k].id] == Max0(parts[k] - ShareOf(parts, spread, total, k)))
    && (forall k :: i <= k < |codes| ==> after[codes[k].id] == parts[k])
    && (forall id :: (id in before && forall k :: 0 <= k < |codes| ==> codes[k].id != id) ==> after[id] == before[id])
  }

  lemma OneLineShares(after: map<int, int>, before: map<int, int>, codes: seq<Line>, spread: int, total: int, i: nat)
    requires DistinctLines(codes) && total > 0 && i < |codes| && SharedOut(after, before, codes, spread, total, i)
    ensures var parts := PartsOf(codes, before);
            && codes[i].id in after && after[codes[i].id] == parts[i]
            && SharedOut(after[codes[i].id := Max0(parts[i] - ShareOf(parts, spread, total, i))],
                         before, codes, spread, total, i + 1)
  {
    hide ShareOf, Max0;
  }

  /** One month: proportional shares in line order, the last line taking what rounding leaves. */
  method SpreadMonth(codes: seq<Line>, before: map<int, int>, pool: int) returns (after: map<int, int>)
    requires DistinctLines(codes) && pool >= 0
    requires forall i :: 0 <= i < |codes| ==> codes[i].id in before
    ensures after.Keys == before.Keys
    ensures forall i :: 0 <= i < |codes| ==> after[codes[i].id] == AfterSpread(PartsOf(codes, before), pool)[i]
    ensures forall id :: id in before && (forall i :: 0 <= i < |codes| ==> codes[i].id != id) ==>
              after[id] == before[id]
  {
    hide HalfUpShare, Sum, EarlierShares, SharedOut, PartsOf, EarlierTotal;
    after := before;
    ghost var parts := PartsOf(codes, before);
    EarlierSharesOfNone(parts);
    var total := Sum(PartsOf(codes, before), Itself);
    if |codes| == 0 || total <= 0 {
      NothingToShare(codes, before, pool);
      return;
    }
    var spread := if pool < total then pool else total;
    var running := 0;
    NothingSharedYet(before, codes, spread, total);
    for i := 0 to |codes|
      invariant SharedOut(after, before, codes, spread, total, i)
      invariant i < |codes| ==> running == EarlierTotal(parts, spread, total, i)
    {
      var id := codes[i].id;
      OneLineShares(after, before, codes, spread, total, i);
      var share := if i == |codes| - 1 then spread - running else HalfUpShare(spread, after[id], total);
      ShareIs(parts, spread, total, i);
      if i < |codes| - 1 { RunningGrows(parts, spread, total, i); }
      running := running + share;
      after := after[id := Max0(after[id] - share)];
    }
    EveryLineShared(after, before, codes, pool);
  }

  lemma NothingToShare(codes: seq<Line>, before: map<int, int>, pool: int)
    requires |codes| == 0 || Sum(PartsOf(codes, before), Itself) <= 0
    requires forall i :: 0 <= i < |codes| ==> codes[i].id in before
    ensures forall i :: 0 <= i < |codes| ==> before[codes[i].id] == AfterSpread(PartsOf(codes, before), pool)[i]
  {
    hide Sum;
  }

  lemma NothingSharedYet(before: map<int, int>, codes: seq<Line>, spread: int, total: int)
    requires total > 0 && forall i :: 0 <= i < |codes| ==> codes[i].id in before
    ensures SharedOut(before, before, codes, spread, total, 0)
  {
    hide ShareOf;
  }

  lemma ShareIs(parts: seq<int>, spread: int, total: int, i: nat)
    requires total > 0 && i < |parts|
    ensures ShareOf(parts, spread, total, i)
            == if i == |parts| - 1 then spread - EarlierTotal(parts, spread, total, i)
               else HalfUpShare(spread, parts[i], total)
  {
    hide HalfUpShare, Sum, EarlierShares;
  }

  lemma EveryLineShared(after: map<int, int>, before: map<int, int>, codes: seq<Line>, pool: int)
    requires codes != [] && Sum(PartsOf(codes, before), Itself) > 0
    requires var total := Sum(PartsOf(codes, before), Itself);
             SharedOut(after, before, codes, if pool < total then pool else total, total, |codes|)
    ensures after.Keys == before.Keys
    ensures forall i :: 0 <= i < |codes| ==>
              codes[i].id in after && after[codes[i].id] == AfterSpread(PartsOf(codes, before), pool)[i]
    ensures forall id :: id in before && (forall i :: 0 <= i < |codes| ==> codes[i].id != id) ==>
              after[id] == before[id]
  {
    hide Sum, ShareOf, Max0;
  }

  function EarlierTotal(parts: seq<int>, spread: int, total: int, i: nat): int
    requires i <= |parts| && total > 0
  {
    Sum(EarlierShares(parts[..i], spread, total), Itself)
  }

  lemma EarlierSharesOfNone(parts: seq<int>)
    ensures forall spread, total :: total > 0 ==> EarlierTotal(parts, spread, total, 0) == 0
  {
    assert parts[..0] == [];
  }

  lemma RunningGrows(parts: seq<int>, spread: int, total: int, i: nat)
    requires i < |parts| && total > 0
    ensures EarlierTotal(parts, spread, total, i + 1)
            == EarlierTotal(parts, spread, total, i) + HalfUpShare(spread, parts[i], total)
  {
    hide HalfUpShare;
    var shares := EarlierShares(parts[..i + 1], spread, total);
    assert shares[..i] == EarlierShares(parts[..i], spread, total);
  }

  /** One month more: spread now, and out of the way of every other month. */
  lemma OneMonthSpread(now: map<int, int>, after: map<int, int>, before: map<int, int>, lines: seq<Line>,
          unattributed: map<Date, int>, todo: set<Date>, month: Date)
    requires DistinctLines(lines) && month in todo
    requires SpreadExcept(now, before, lines, unattributed, todo)
    requires after.Keys == now.Keys
    requires SpreadIn(after, before, lines, PoolOf(unattributed, month), month)
    requires forall id :: id in now && (forall line :: line in OpenLinesOf(lines, before, month) ==> line.id != id) ==>
              after[id] == now[id]
    ensures SpreadExcept(after, before, lines, unattributed, todo - {month})
  {
    hide AfterSpread, IsLeap, DaysIn, SpreadIn, OpenLinesOf;
    OpenCodes(lines, before, month);
    forall line | line in lines && line.id in before && (line.period != month || !OpenIn(before, month)(line))
      ensures after[line.id] == now[line.id]
    {
      OtherLineKept(now, after, before, lines, month, line);
    }
    forall m | m !in todo - {month} ensures SpreadIn(after, before, lines, PoolOf(unattributed, m), m) {
      if m != month {
        OpenCodes(lines, before, m);
        SpreadInKept(now, after, before, lines, PoolOf(unattributed, m), m);
      }
    }
  }

  lemma OtherLineKept(now: map<int, int>, after: map<int, int>, before: map<int, int>, lines: seq<Line>, month: Date,
          line: Line)
    requires DistinctLines(lines) && line in lines && line.id in now
    requires line.period != month || !OpenIn(before, month)(line)
    requires after.Keys == now.Keys
    requires forall id ::
               (id in now && (forall other :: other in OpenLinesOf(lines, before, month) ==> other.id != id)) ==>
                 after[id] == now[id]
    ensures after[line.id] == now[line.id]
  {
    OpenCodes(lines, before, month);
    forall other | other in OpenLinesOf(lines, before, month) ensures other.id != line.id {
      if other.id == line.id { OneLinePerId(lines, other, line); }
    }
  }

  lemma SpreadInKept(now: map<int, int>, after: map<int, int>, before: map<int, int>, lines: seq<Line>, pool: int,
          month: Date)
    requires DistinctLines(lines) && after.Keys == now.Keys
    requires SpreadIn(now, before, lines, pool, month)
    requires forall line :: line in lines && OpenIn(before, month)(line) && line.id in now ==>
              after[line.id] == now[line.id]
    ensures SpreadIn(after, before, lines, pool, month)
  {
    hide AfterSpread, IsLeap, DaysIn;
    OpenCodes(lines, before, month);
    var codes := OpenLinesOf(lines, before, month);
    forall i | 0 <= i < |codes| ensures codes[i].id in after && after[codes[i].id] == now[codes[i].id] {
      assert codes[i] in codes;
    }
  }

  lemma OneLinePerId(lines: seq<Line>, a: Line, b: Line)
    requires DistinctLines(lines) && a in lines && b in lines && a.id == b.id
    ensures a == b
  {
    var i :| 0 <= i < |lines| && lines[i] == a;
    var j :| 0 <= j < |lines| && lines[j] == b;
    assert i == j;
  }

  lemma NoMonthSpreadYet(before: map<int, int>, lines: seq<Line>, unattributed: map<Date, int>)
    requires DistinctLines(lines)
    ensures SpreadExcept(before, before, lines, unattributed, unattributed.Keys)
  {
    hide AfterSpread;
    forall month | month !in unattributed ensures SpreadIn(before, before, lines, PoolOf(unattributed, month), month) {
      OpenCodes(lines, before, month);
      EmptyPoolSpreadsNothing(PartsOf(OpenLinesOf(lines, before, month), before));
      var codes := OpenLinesOf(lines, before, month);
      forall i | 0 <= i < |codes| ensures codes[i].id in before { assert codes[i] in codes; }
    }
  }

  lemma AllMonthsSpread(after: map<int, int>, before: map<int, int>, lines: seq<Line>, unattributed: map<Date, int>)
    requires SpreadExcept(after, before, lines, unattributed, {})
    ensures IsSpread(after, before, lines, unattributed)
  {
  }

  lemma MonthToSpread(now: map<int, int>, before: map<int, int>, lines: seq<Line>, unattributed: map<Date, int>,
          todo: set<Date>, month: Date)
    requires DistinctLines(lines) && month in todo && SpreadExcept(now, before, lines, unattributed, todo)
    ensures OpenLinesOf(lines, now, month) == OpenLinesOf(lines, before, month)
    ensures var codes := OpenLinesOf(lines, before, month);
            && PartsOf(codes, now) == PartsOf(codes, before)
            && DistinctLines(codes) && forall i :: 0 <= i < |codes| ==> codes[i].id in now
  {
    SameOpenLines(lines, before, now, month);
    OpenCodes(lines, before, month);
    var codes := OpenLinesOf(lines, before, month);
    forall i | 0 <= i < |codes| ensures codes[i].id in now { assert codes[i] in codes; }
  }

  /** Every month with a pool, in any order at all: the result is the same for all of them. */
  method SpreadMonths(lines: seq<Line>, before: map<int, int>, unattributed: map<Date, int>)
    returns (after: map<int, int>)
    requires DistinctLines(lines)
    requires forall month :: month in unattributed ==> unattributed[month] >= 0
    ensures IsSpread(after, before, lines, unattributed)
  {
    hide SpreadExcept, IsSpread, AfterSpread, OpenLinesOf, DistinctLines, IsLeap, DaysIn;
    after := before;
    var todo := unattributed.Keys;
    NoMonthSpreadYet(before, lines, unattributed);
    while todo != {}
      invariant todo <= unattributed.Keys
      invariant SpreadExcept(after, before, lines, unattributed, todo)
      decreases todo
    {
      var month :| month in todo;
      MonthToSpread(after, before, lines, unattributed, todo, month);
      ghost var now := after;
      after := SpreadMonth(OpenLinesOf(lines, after, month), after, unattributed[month]);
      OneMonthSpread(now, after, before, lines, unattributed, todo, month);
      todo := todo - {month};
    }
    AllMonthsSpread(after, before, lines, unattributed);
  }

  /** Matched actuals first, then the unattributed pools over what each month still expects. */
  method RemainingForecastAmounts(lines: seq<Line>, matched: Pools, unattributed: map<Date, int>, ghost keys: seq<Key>)
    returns (remaining: map<int, int>)
    requires DistinctLines(lines) && NonNegativeLines(lines) && Lists(keys, matched)
    requires forall month :: month in unattributed ==> unattributed[month] >= 0
    ensures IsSpread(remaining, AfterMatching(lines, keys, matched), lines, unattributed)
  {
    hide AfterMatching, IsSpread, Matched, Feasible;
    var first, left;
    ghost var plan;
    first, left, plan := MatchLines(lines, matched, keys);
    remaining := SpreadMonths(lines, first, unattributed);
  }

  /** The calculation has one answer, and empty unattributed pools play no part in it. */
  lemma OneAnswer(a: map<int, int>, b: map<int, int>, before: map<int, int>, lines: seq<Line>, u: map<Date, int>,
          v: map<Date, int>, line: Line)
    requires DistinctLines(lines) && IsSpread(a, before, lines, u) && IsSpread(b, before, lines, v)
    requires forall month :: PoolOf(u, month) == PoolOf(v, month)
    requires line in lines && line.id in before
    ensures a[line.id] == b[line.id]
  {
    hide AfterSpread, OpenLinesOf, IsLeap, DaysIn;
    if OpenIn(before, line.period)(line) {
      OpenCodes(lines, before, line.period);
      var codes := OpenLinesOf(lines, before, line.period);
      assert line in codes;
      var i :| 0 <= i < |codes| && codes[i] == line;
      assert SpreadIn(a, before, lines, PoolOf(u, line.period), line.period);
      assert SpreadIn(b, before, lines, PoolOf(v, line.period), line.period);
    }
  }

  // ---------------------------------------------------------------- what is promised of the remainders

  /** A line keeps what matching left it, or its place among its month's open lines says what it keeps. */
  lemma RemainderOf(after: map<int, int>, before: map<int, int>, lines: seq<Line>, u: map<Date, int>, line: Line)
    returns (i: nat)
    requires DistinctLines(lines) && IsSpread(after, before, lines, u) && line in lines && line.id in before
    ensures line.id in after
    ensures !OpenIn(before, line.period)(line) ==> after[line.id] == before[line.id]
    ensures OpenIn(before, line.period)(line) ==>
              var codes := OpenLinesOf(lines, before, line.period);
              var parts := PartsOf(codes, before);
              && i < |codes| && codes[i] == line && parts[i] == before[line.id] && OpenLines(parts)
              && after[line.id] == AfterSpread(parts, PoolOf(u, line.period))[i]
  {
    hide AfterSpread, OpenLinesOf, IsLeap, DaysIn;
    i := 0;
    if OpenIn(before, line.period)(line) {
      OpenCodes(lines, before, line.period);
      var codes := OpenLinesOf(lines, before, line.period);
      assert line in codes;
      i :| 0 <= i < |codes| && codes[i] == line;
      assert SpreadIn(after, before, lines, PoolOf(u, line.period), line.period);
    }
  }

  /** No remainder is negative, and one rises above what matching left it by at most half a cent for each other line. */
  lemma RemaindersAreWithin(
      after: map<int, int>, lines: seq<Line>, keys: seq<Key>, matched: Pools, u: map<Date, int>, line: Line)
    requires DistinctLines(lines) && NonNegativeLines(lines) && line in lines
    requires IsSpread(after, AfterMatching(lines, keys, matched), lines, u)
    requires forall month :: month in u ==> u[month] >= 0
    ensures var before := AfterMatching(lines, keys, matched);
            && line.id in after && line.id in before && after[line.id] >= 0
            && 2 * after[line.id] <= 2 * before[line.id] + Max0(|OpenLinesOf(lines, before, line.period)| - 1)
  {
    hide AfterTurns, SortBy, IsSpread, AfterSpread, OpenLinesOf, IsLeap, DaysIn;
    var before := AfterMatching(lines, keys, matched);
    MatchedLineIsWithin(lines, keys, matched, line);
    var i := RemainderOf(after, before, lines, u, line);
    if OpenIn(before, line.period)(line) {
      LinesAfterSpread(PartsOf(OpenLinesOf(lines, before, line.period), before), PoolOf(u, line.period), i);
    }
  }

  lemma MatchedLineIsWithin(lines: seq<Line>, keys: seq<Key>, matched: Pools, line: Line)
    requires DistinctLines(lines) && NonNegativeLines(lines) && line in lines
    ensures line.id in AfterMatching(lines, keys, matched)
    ensures 0 <= AfterMatching(lines, keys, matched)[line.id] <= line.amount
  {
    hide AfterTurns, SortBy;
    TurnOrderIsSound(lines);
    MatchingKeepsWithin(TurnOrder(lines), |lines|, keys, matched);
    assert line in multiset(TurnOrder(lines));
    var j :| 0 <= j < |TurnOrder(lines)| && TurnOrder(lines)[j] == line;
  }

  /**
   * A line ends above what matching left it exactly when it is the last open construction line of
   * its month and the rounded shares of the others exceed the spread.
   */
  lemma RemainderGrowsExactlyWhen(after: map<int, int>, before: map<int, int>, lines: seq<Line>, u: map<Date, int>,
          line: Line)
    requires DistinctLines(lines) && IsSpread(after, before, lines, u) && line in lines && line.id in before
    requires forall month :: month in u ==> u[month] >= 0
    ensures line.id in after
    ensures after[line.id] > before[line.id] <==>
              var codes := OpenLinesOf(lines, before, line.period);
              var parts := PartsOf(codes, before);
              && codes != [] && codes[|codes| - 1] == line && Sum(parts, Itself) > 0
              && var spread := Spread(parts, PoolOf(u, line.period));
                 Sum(EarlierShares(parts[..|parts| - 1], spread, Sum(parts, Itself)), Itself) > spread
  {
    hide AfterSpread, OpenLinesOf, IsLeap, DaysIn, IsSpread, EarlierShares, Spread, Sum;
    var i := RemainderOf(after, before, lines, u, line);
    var codes := OpenLinesOf(lines, before, line.period);
    var parts := PartsOf(codes, before);
    OpenCodes(lines, before, line.period);
    if OpenIn(before, line.period)(line) {
      LastLineGrowsExactlyWhen(parts, PoolOf(u, line.period));
      LinesAfterSpread(parts, PoolOf(u, line.period), i);
      if codes[|codes| - 1] == line { SameLineSamePlace(codes, i, |codes| - 1); }
    } else if codes != [] {
      assert codes[|codes| - 1] in codes;
    }
  }

  /**
   * A line ends above its own governed amount exactly when it is the last open construction line of
   * its month and the rounded shares of the others overrun the spread by more than was matched to it.
   */
  lemma RemainderPassesItsLineExactlyWhen(
      after: map<int, int>, lines: seq<Line>, keys: seq<Key>, matched: Pools, u: map<Date, int>, line: Line)
    requires DistinctLines(lines) && NonNegativeLines(lines) && line in lines
    requires IsSpread(after, AfterMatching(lines, keys, matched), lines, u)
    requires forall month :: month in u ==> u[month] >= 0
    ensures line.id in after && line.id in AfterMatching(lines, keys, matched)
    ensures after[line.id] > line.amount <==>
              var before := AfterMatching(lines, keys, matched);
              var codes := OpenLinesOf(lines, before, line.period);
              var parts := PartsOf(codes, before);
              && codes != [] && codes[|codes| - 1] == line && Sum(parts, Itself) > 0
              && var spread := Spread(parts, PoolOf(u, line.period));
                 Sum(EarlierShares(parts[..|parts| - 1], spread, Sum(parts, Itself)), Itself) - spread
                 > line.amount - before[line.id]
  {
    hide AfterTurns, AfterMatching, AfterSpread, OpenLinesOf, IsLeap, DaysIn, IsSpread, EarlierShares, Spread, Sum;
    var before := AfterMatching(lines, keys, matched);
    MatchedLineIsWithin(lines, keys, matched, line);
    var i := RemainderOf(after, before, lines, u, line);
    var codes := OpenLinesOf(lines, before, line.period);
    var parts := PartsOf(codes, before);
    OpenCodes(lines, before, line.period);
    if OpenIn(before, line.period)(line) {
      LastLineIsLeftWith(parts, PoolOf(u, line.period));
      LinesAfterSpread(parts, PoolOf(u, line.period), i);
      if codes[|codes| - 1] == line { SameLineSamePlace(codes, i, |codes| - 1); }
    } else if codes != [] {
      assert codes[|codes| - 1] in codes;
    }
  }

  lemma SameLineSamePlace(codes: seq<Line>, i: nat, j: nat)
    requires DistinctLines(codes) && i < |codes| && j < |codes| && codes[i] == codes[j]
    ensures i == j
  {
  }

  // ---------------------------------------------------------------- a month's total

  /** What a map expects of a month's construction lines. */
  function ExpectedIn(remaining: map<int, int>, month: Date): Line -> int {
    (line: Line) =>
      if line.kind == ConstructionPlanKind && line.period == month && line.id in remaining then remaining[line.id]
          else 0
  }

  function Expects(remaining: map<int, int>): Line -> int {
    (line: Line) => if line.id in remaining then remaining[line.id] else 0
  }

  /** A month's construction falls by its spread, short of it by at most half a cent for every line but one. */
  lemma MonthFallsByItsPool(after: map<int, int>, before: map<int, int>, lines: seq<Line>, u: map<Date, int>,
          month: Date)
    requires DistinctLines(lines) && IsSpread(after, before, lines, u)
    requires forall m :: m in u ==> u[m] >= 0
    ensures var codes := OpenLinesOf(lines, before, month);
            var fall := Sum(lines, ExpectedIn(before, month)) - Sum(lines, ExpectedIn(after, month));
            if codes == [] then fall == 0
            else
              var spread := Spread(PartsOf(codes, before), PoolOf(u, month));
              2 * spread - (|codes| - 1) <= 2 * fall <= 2 * spread
  {
    hide AfterSpread, OpenLinesOf, IsLeap, DaysIn, IsSpread, Spread, Sum;
    var codes := OpenLinesOf(lines, before, month);
    OpenCodes(lines, before, month);
    FallIsOfOpenLines(after, before, lines, u, month);
    OpenTotals(after, before, lines, u, month);
    if codes != [] {
      MonthFallsByTheSpread(PartsOf(codes, before), PoolOf(u, month));
    } else {
      NothingExpected(after, before);
    }
  }

  lemma NothingExpected(after: map<int, int>, before: map<int, int>)
    ensures Sum([], Expects(before)) == 0 && Sum([], Expects(after)) == 0
  {
  }

  /** Only the open lines of a month move its total. */
  lemma FallIsOfOpenLines(after: map<int, int>, before: map<int, int>, lines: seq<Line>, u: map<Date, int>, month: Date)
    requires DistinctLines(lines) && IsSpread(after, before, lines, u)
    ensures var codes := OpenLinesOf(lines, before, month);
            Sum(lines, ExpectedIn(before, month)) - Sum(lines, ExpectedIn(after, month))
            == Sum(codes, Expects(before)) - Sum(codes, Expects(after))
  {
    hide AfterSpread, SpreadIn, IsLeap, DaysIn, Sum, SortBy;
    var open := OpenIn(before, month);
    forall line | line in lines
      ensures ExpectedIn(before, month)(line) + Where(open, Expects(after))(line)
              == ExpectedIn(after, month)(line) + Where(open, Expects(before))(line)
    {
    }
    var both: Line -> int := line => ExpectedIn(before, month)(line) + Where(open, Expects(after))(line);
    SumPlus(lines, ExpectedIn(before, month), Where(open, Expects(after)), both);
    SumPlus(lines, ExpectedIn(after, month), Where(open, Expects(before)), both);
    SumFiltered(lines, open, Expects(before));
    SumFiltered(lines, open, Expects(after));
    SumPermuted(Filter(lines, open), OpenLinesOf(lines, before, month), Expects(before));
    SumPermuted(Filter(lines, open), OpenLinesOf(lines, before, month), Expects(after));
  }

  lemma OpenTotals(after: map<int, int>, before: map<int, int>, lines: seq<Line>, u: map<Date, int>, month: Date)
    requires DistinctLines(lines) && IsSpread(after, before, lines, u)
    ensures var codes := OpenLinesOf(lines, before, month);
            var parts := PartsOf(codes, before);
            && Sum(codes, Expects(before)) == Sum(parts, Itself)
            && Sum(codes, Expects(after)) == Sum(AfterSpread(parts, PoolOf(u, month)), Itself)
  {
    hide OpenLinesOf, IsLeap, DaysIn, Sum, AfterSpread;
    var codes := OpenLinesOf(lines, before, month);
    var parts := PartsOf(codes, before);
    OpenCodes(lines, before, month);
    assert SpreadIn(after, before, lines, PoolOf(u, month), month);
    SpreadKeepsCount(parts, PoolOf(u, month));
    SumAligned(codes, parts, Expects(before), Itself);
    SumAligned(codes, AfterSpread(parts, PoolOf(u, month)), Expects(after), Itself);
  }

  lemma SpreadKeepsCount(parts: seq<int>, pool: int)
    ensures |AfterSpread(parts, pool)| == |parts|
  {
  }
}
