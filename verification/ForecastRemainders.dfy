/** The remainders of matching in closed form, which is one for every order of visiting the pools. */
module ForecastRemainders {
  import opened Amounts
  import opened Calendar
  import opened Sums
  import opened CashModel
  import opened ForecastMatching

  // ---------------------------------------------------------------- closed form

  /** What the lines written for one pool ask of it. */
  function OwnDemand(key: Key): Line -> int {
    (line: Line) => if !General(line) && Answers(line, key) then line.amount else 0
  }

  /** What the general lines of a month and category ask of its pools together. */
  function GroupDemand(month: Date, category: Category): Line -> int {
    (line: Line) => if General(line) && line.period == month && line.category == category then line.amount else 0
  }

  predicate InGroup(key: Key, month: Date, category: Category) {
    key.month == month && key.grain.DevelopmentGrain? && key.grain.development == category
  }

  /** What a pool has left once its own lines are met. */
  function OwnLeft(pools: Pools, lines: seq<Line>, key: Key): int {
    Max0(Get(pools, key) - Sum(lines, OwnDemand(key)))
  }

  function GroupLeft(pools: Pools, lines: seq<Line>, month: Date, category: Category): Key -> int {
    key => if InGroup(key, month, category) then OwnLeft(pools, lines, key) else 0
  }

  function GroupPool(keys: seq<Key>, pools: Pools, lines: seq<Line>, month: Date, category: Category): int {
    Sum(keys, GroupLeft(pools, lines, month, category))
  }

  /** What the j-th line in order takes, from the pools as they were at the start. */
  function Taken(keys: seq<Key>, pools: Pools, order: seq<Line>, j: nat): int
    requires j < |order|
  {
    var line, earlier := order[j], order[..j];
    match GrainOf(line)
    case None => 0
    case Some(grain) =>
      if General(line) then
        Covered(GroupPool(keys, pools, earlier, line.period, line.category),
                Sum(earlier, GroupDemand(line.period, line.category)), line.amount)
      else
        Covered(Get(pools, Key(line.period, grain)), Sum(earlier, OwnDemand(Key(line.period, grain))), line.amount)
  }

  // ---------------------------------------------------------------- a turn takes all it can

  /** What a line could draw in all. */
  function Offer(line: Line, pools: Pools): Key -> int {
    key => if key in pools && Answers(line, key) then Max0(pools[key]) else 0
  }

  lemma TurnTakesAllItCan(line: Line, before: Pools, after: Pools, left: int, takes: seq<Take>, keys: seq<Key>)
    requires Turn(line, before, after, left, takes)
    requires Distinct(keys) && forall key :: key in keys <==> key in before
    ensures line.amount - left == Least(line.amount, Sum(keys, Offer(line, before)))
    ensures Sum(keys, Offer(line, after)) == Sum(keys, Offer(line, before)) - (line.amount - left)
  {
    hide Sum, OnKey;
    var drawn := Buckets(takes, KeyOfTake, Cents);
    BucketsPartition(takes, keys, KeyOfTake, Cents);
    forall key | key in keys ensures Offer(line, before)(key) == Offer(line, after)(key) + drawn(key) {
      DrawnIsOnKey(takes, key);
      if !Answers(line, key) { TurnLeavesOthers(line, before, after, left, takes, key); }
    }
    SumPlus(keys, Offer(line, after), drawn, Offer(line, before));
    SumNonNegative(keys, Offer(line, after));
    if left > 0 { SumZero(keys, Offer(line, after)); }
  }

  lemma DrawnIsOnKey(takes: seq<Take>, key: Key)
    ensures Buckets(takes, KeyOfTake, Cents)(key) == OnKey(takes, key)
  {
  }

  // ---------------------------------------------------------------- the pools in closed form

  predicate DrawnByGeneral(order: seq<Line>, n: nat, key: Key)
    requires n <= |order|
  {
    exists j :: 0 <= j < n && General(order[j]) && Answers(order[j], key)
  }

  predicate GroupStarted(order: seq<Line>, n: nat, month: Date, category: Category)
    requires n <= |order|
  {
    exists j :: 0 <= j < n && General(order[j]) && order[j].period == month && order[j].category == category
  }

  function GroupOffer(pools: Pools, month: Date, category: Category): Key -> int {
    key => if key in pools && InGroup(key, month, category) then Max0(pools[key]) else 0
  }

  /** Pools no general line has drawn on hold what their own lines left. */
  ghost predicate OwnPools(pools: Pools, left: Pools, order: seq<Line>, n: nat)
    requires n <= |order|
  {
    && left.Keys == pools.Keys
    && forall key :: key in pools && !DrawnByGeneral(order, n, key) ==>
          Max0(left[key]) == OwnLeft(pools, order[..n], key)
  }

  /** The pools of a group its general lines have drawn on hold together what those lines left. */
  ghost predicate GroupPools(keys: seq<Key>, pools: Pools, left: Pools, order: seq<Line>, n: nat)
    requires n <= |order|
  {
    forall month, category :: GroupStarted(order, n, month, category) ==>
      Sum(keys, GroupOffer(left, month, category))
      == Max0(GroupPool(keys, pools, order[..n], month, category) - Sum(order[..n], GroupDemand(month, category)))
  }

  lemma DemandSnoc(order: seq<Line>, n: nat, f: Line -> int)
    requires n < |order|
    ensures Sum(order[..n + 1], f) == Sum(order[..n], f) + f(order[n])
  {
    assert order[..n + 1] == order[..n] + [order[n]];
    SumSnoc(order[..n], order[n], f);
  }

  lemma NonNegativeDemand(order: seq<Line>, n: nat, f: Line -> int)
    requires n <= |order| && forall j :: 0 <= j < |order| ==> f(order[j]) >= 0
    ensures Sum(order[..n], f) >= 0
  {
    SumNonNegative(order[..n], f);
  }

  ghost predicate NonNegativeLines(order: seq<Line>) {
    forall j :: 0 <= j < |order| ==> order[j].amount >= 0
  }

  /** A line that names its own pool: only that pool moves, and by what the closed form says. */
  lemma OwnTurn(keys: seq<Key>, pools: Pools, left: Pools, after: Pools, order: seq<Line>, n: nat, rest: int,
          takes: seq<Take>)
    requires n < |order| && ScopedFirst(order) && NonNegativeLines(order) && !General(order[n])
    requires Distinct(keys) && forall key :: key in keys <==> key in pools
    requires OwnPools(pools, left, order, n)
    requires Turn(order[n], left, after, rest, takes)
    ensures order[n].amount - rest == Taken(keys, pools, order, n)
    ensures OwnPools(pools, after, order, n + 1)
  {
    hide Sum, Turning, IsLeap, DaysIn, OnKey;
    var line := order[n];
    TurnTakesAllItCan(line, left, after, rest, takes, keys);
    TurnKeysAndRest(line, left, after, rest, takes);
    if GrainOf(line).None? {
      SumZero(keys, Offer(line, left));
      forall key | key in pools && !DrawnByGeneral(order, n + 1, key)
        ensures Max0(after[key]) == OwnLeft(pools, order[..n + 1], key)
      {
        TurnLeavesOthers(line, left, after, rest, takes, key);
        DemandSnoc(order, n, OwnDemand(key));
        assert !DrawnByGeneral(order, n, key);
      }
    } else {
      var own := Key(line.period, GrainOf(line).value);
      OwnOffer(line, left, keys, own);
      OwnOffer(line, after, keys, own);
      forall j | 0 <= j < n ensures !(General(order[j]) && Answers(order[j], own)) { }
      assert !DrawnByGeneral(order, n, own);
      forall key | key in pools && !DrawnByGeneral(order, n + 1, key)
        ensures Max0(after[key]) == OwnLeft(pools, order[..n + 1], key)
      {
        DemandSnoc(order, n, OwnDemand(key));
        assert !DrawnByGeneral(order, n, key);
        if key != own { TurnLeavesOthers(line, left, after, rest, takes, key); }
      }
      if own !in pools { NonNegativeDemand(order, n, OwnDemand(own)); }
    }
  }

  lemma TurnKeysAndRest(line: Line, before: Pools, after: Pools, left: int, takes: seq<Take>)
    requires Turn(line, before, after, left, takes)
    ensures after.Keys == before.Keys && left >= 0
  {
  }

  lemma OwnOffer(line: Line, pools: Pools, keys: seq<Key>, own: Key)
    requires !General(line) && GrainOf(line).Some? && own == Key(line.period, GrainOf(line).value)
    requires Distinct(keys) && forall key :: key in keys <==> key in pools
    ensures Sum(keys, Offer(line, pools)) == if own in pools then Max0(pools[own]) else 0
  {
    var c := if own in pools then Max0(pools[own]) else 0;
    SumCongruent(keys, Offer(line, pools), OnlyAt(own, c));
    SumOnlyAt(keys, own, c);
  }

  /** Such a line leaves every group that general lines have drawn on as it was. */
  lemma OwnTurnKeepsGroups(keys: seq<Key>, pools: Pools, left: Pools, after: Pools, order: seq<Line>, n: nat, rest: int,
          takes: seq<Take>)
    requires n < |order| && ScopedFirst(order) && !General(order[n])
    requires left.Keys == pools.Keys && forall key :: key in keys <==> key in pools
    requires GroupPools(keys, pools, left, order, n)
    requires Turn(order[n], left, after, rest, takes)
    ensures GroupPools(keys, pools, after, order, n + 1)
  {
    hide Sum, Turning, IsLeap, DaysIn, OnKey;
    var line := order[n];
    TurnKeysAndRest(line, left, after, rest, takes);
    forall month, category | GroupStarted(order, n + 1, month, category)
      ensures Sum(keys, GroupOffer(after, month, category))
              == Max0(GroupPool(keys, pools, order[..n + 1], month, category)
                      - Sum(order[..n + 1], GroupDemand(month, category)))
    {
      assert GroupStarted(order, n, month, category);
      assert line.phase.None?;
      forall key | key in keys && InGroup(key, month, category)
        ensures after[key] == left[key] && OwnLeft(pools, order[..n + 1], key) == OwnLeft(pools, order[..n], key)
      {
        TurnLeavesOthers(line, left, after, rest, takes, key);
        DemandSnoc(order, n, OwnDemand(key));
      }
      SumCongruent(keys, GroupOffer(after, month, category), GroupOffer(left, month, category));
      SumCongruent(keys, GroupLeft(pools, order[..n + 1], month, category),
                   GroupLeft(pools, order[..n], month, category));
      DemandSnoc(order, n, GroupDemand(month, category));
    }
  }

  /** What a group offers its next general line. */
  lemma GroupHolds(keys: seq<Key>, pools: Pools, left: Pools, order: seq<Line>, n: nat, month: Date, category: Category)
    requires n <= |order| && forall key :: key in keys <==> key in pools
    requires OwnPools(pools, left, order, n) && GroupPools(keys, pools, left, order, n)
    ensures Sum(keys, GroupOffer(left, month, category))
            == Max0(GroupPool(keys, pools, order[..n], month, category) - Sum(order[..n], GroupDemand(month, category)))
  {
    hide Sum, IsLeap, DaysIn;
    if !GroupStarted(order, n, month, category) {
      forall key | key in keys
        ensures GroupOffer(left, month, category)(key) == GroupLeft(pools, order[..n], month, category)(key)
      {
        if InGroup(key, month, category) { assert !DrawnByGeneral(order, n, key); }
      }
      SumCongruent(keys, GroupOffer(left, month, category), GroupLeft(pools, order[..n], month, category));
      SumNonNegative(keys, GroupLeft(pools, order[..n], month, category));
      SumZero(order[..n], GroupDemand(month, category));
    }
  }

  /** A general line: its group's pools together fall by what the closed form says. */
  lemma GeneralTurn(keys: seq<Key>, pools: Pools, left: Pools, after: Pools, order: seq<Line>, n: nat, rest: int,
          takes: seq<Take>)
    requires n < |order| && NonNegativeLines(order) && General(order[n])
    requires Distinct(keys) && forall key :: key in keys <==> key in pools
    requires OwnPools(pools, left, order, n) && GroupPools(keys, pools, left, order, n)
    requires Turn(order[n], left, after, rest, takes)
    ensures order[n].amount - rest == Taken(keys, pools, order, n)
    ensures GroupPools(keys, pools, after, order, n + 1)
  {
    hide Sum, Turning, IsLeap, DaysIn, OnKey;
    var line := order[n];
    TurnTakesAllItCan(line, left, after, rest, takes, keys);
    TurnKeysAndRest(line, left, after, rest, takes);
    GroupHolds(keys, pools, left, order, n, line.period, line.category);
    SumCongruent(keys, Offer(line, left), GroupOffer(left, line.period, line.category));
    SumCongruent(keys, Offer(line, after), GroupOffer(after, line.period, line.category));
    forall month, category | GroupStarted(order, n + 1, month, category)
      ensures Sum(keys, GroupOffer(after, month, category))
              == Max0(GroupPool(keys, pools, order[..n + 1], month, category)
                      - Sum(order[..n + 1], GroupDemand(month, category)))
    {
      GeneralLineAsksNoPool(keys, pools, order, n, month, category);
      DemandSnoc(order, n, GroupDemand(month, category));
      if month != line.period || category != line.category {
        assert GroupStarted(order, n, month, category);
        forall key | key in keys && InGroup(key, month, category) ensures after[key] == left[key] {
          TurnLeavesOthers(line, left, after, rest, takes, key);
        }
        SumCongruent(keys, GroupOffer(after, month, category), GroupOffer(left, month, category));
      }
    }
  }

  lemma GeneralLineAsksNoPool(keys: seq<Key>, pools: Pools, order: seq<Line>, n: nat, month: Date, category: Category)
    requires n < |order| && General(order[n])
    ensures GroupPool(keys, pools, order[..n + 1], month, category)
            == GroupPool(keys, pools, order[..n], month, category)
  {
    hide Sum;
    forall key | key in keys
      ensures GroupLeft(pools, order[..n + 1], month, category)(key)
              == GroupLeft(pools, order[..n], month, category)(key)
    {
      DemandSnoc(order, n, OwnDemand(key));
    }
    SumCongruent(keys, GroupLeft(pools, order[..n + 1], month, category),
                 GroupLeft(pools, order[..n], month, category));
  }

  lemma GeneralTurnKeepsOwn(pools: Pools, left: Pools, after: Pools, order: seq<Line>, n: nat, rest: int,
          takes: seq<Take>)
    requires n < |order| && General(order[n])
    requires OwnPools(pools, left, order, n)
    requires Turn(order[n], left, after, rest, takes)
    ensures OwnPools(pools, after, order, n + 1)
  {
    hide Sum, Turning, OnKey;
    TurnKeysAndRest(order[n], left, after, rest, takes);
    forall key | key in pools && !DrawnByGeneral(order, n + 1, key)
      ensures Max0(after[key]) == OwnLeft(pools, order[..n + 1], key)
    {
      assert !DrawnByGeneral(order, n, key);
      DemandSnoc(order, n, OwnDemand(key));
      TurnLeavesOthers(order[n], left, after, rest, takes, key);
    }
  }
}
