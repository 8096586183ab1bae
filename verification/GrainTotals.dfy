/** What matching leaves of the lines of one grain, taken together. */
module GrainTotals {
  import opened Amounts
  import opened Calendar
  import opened Sums
  import opened Sorting
  import opened CashModel
  import opened ForecastMatching
  import opened ForecastRemainders
  import opened Standing
  import opened RemainingForecast

  /** What a map leaves of the lines that name a pool. */
  function OwnLeftOf(remaining: map<int, int>, key: Key): Line -> int {
    (line: Line) => if !General(line) && Answers(line, key) && line.id in remaining then remaining[line.id] else 0
  }

  /** And of the lines that stand for a category across the project. */
  function GroupLeftOf(remaining: map<int, int>, month: Date, category: Category): Line -> int {
    (line: Line) =>
      if General(line) && line.period == month && line.category == category && line.id in remaining
      then remaining[line.id] else 0
  }

  /** One more line in turn: together they are left with what is asked past the pool. */
  lemma CoveredInTurn(asked: int, pool: int, amount: int)
    requires asked >= 0 && amount >= 0
    ensures Max0(asked - Max0(pool)) + amount - Covered(pool, asked, amount) == Max0(asked + amount - Max0(pool))
  {
  }

  lemma {:induction false} OwnLinesInTurn(order: seq<Line>, n: nat, keys: seq<Key>, matched: Pools, key: Key)
    requires DistinctLines(order) && NonNegativeLines(order) && n <= |order|
    ensures var remaining := AfterTurns(order, |order|, keys, matched);
            Sum(order[..n], OwnLeftOf(remaining, key))
            == Max0(Sum(order[..n], OwnDemand(key)) - Max0(Get(matched, key)))
  {
    hide Sum, AfterTurns, Covered, Taken;
    var remaining := AfterTurns(order, |order|, keys, matched);
    if n == 0 {
      NothingAsked(order, OwnLeftOf(remaining, key), OwnDemand(key));
    } else {
      OwnLinesInTurn(order, n - 1, keys, matched, key);
      var line := order[n - 1];
      DemandSnoc(order, n - 1, OwnLeftOf(remaining, key));
      DemandSnoc(order, n - 1, OwnDemand(key));
      NonNegativeDemand(order, n - 1, OwnDemand(key));
      AfterTurnsAt(order, |order|, keys, matched, n - 1);
      if !General(line) && Answers(line, key) {
        OwnTaken(order, keys, matched, n - 1, key);
        CoveredInTurn(Sum(order[..n - 1], OwnDemand(key)), Get(matched, key), line.amount);
      }
    }
  }

  lemma NothingAsked(order: seq<Line>, f: Line -> int, g: Line -> int)
    ensures Sum(order[..0], f) == 0 && Sum(order[..0], g) == 0
  {
  }

  lemma OwnTaken(order: seq<Line>, keys: seq<Key>, matched: Pools, j: nat, key: Key)
    requires j < |order| && !General(order[j]) && Answers(order[j], key)
    ensures Taken(keys, matched, order, j)
            == Covered(Get(matched, key), Sum(order[..j], OwnDemand(key)), order[j].amount)
  {
    hide Sum, Covered;
    assert key == Key(order[j].period, GrainOf(order[j]).value);
  }

  /**
   * The lines that name a pool are left, together, with what they were forecast at less what the
   * pool holds, and with nothing once it holds more.
   */
  lemma GrainIsLeftWithTheRest(lines: seq<Line>, keys: seq<Key>, matched: Pools, key: Key)
    requires DistinctLines(lines) && NonNegativeLines(lines)
    ensures Sum(lines, OwnLeftOf(AfterMatching(lines, keys, matched), key))
            == Max0(Sum(lines, OwnDemand(key)) - Max0(Get(matched, key)))
  {
    hide Sum, AfterTurns, SortBy;
    var order := TurnOrder(lines);
    TurnOrderIsSound(lines);
    OwnLinesInTurn(order, |order|, keys, matched, key);
    assert order[..|order|] == order;
    SumPermuted(order, lines, OwnLeftOf(AfterMatching(lines, keys, matched), key));
    SumPermuted(order, lines, OwnDemand(key));
  }

  // ---------------------------------------------------------------- general lines of a category

  /** After the first line that names no phase, no line asks for itself of a development pool. */
  lemma NoOwnDemandAfter(order: seq<Line>, j: nat, key: Key)
    requires ScopedFirst(order) && j < |order| && General(order[j]) && key.grain.DevelopmentGrain?
    ensures Sum(order[..j], OwnDemand(key)) == Sum(order, OwnDemand(key))
  {
    hide Sum;
    assert order == order[..j] + order[j..];
    SumAppend(order[..j], order[j..], OwnDemand(key));
    forall line | line in order[j..] ensures OwnDemand(key)(line) == 0 {
      var k :| 0 <= k < |order[j..]| && order[j..][k] == line;
      assert line == order[j + k];
    }
    SumZero(order[j..], OwnDemand(key));
  }

  /** So every general line of a category sees the same pool: what the phase-scoped lines leave of it. */
  lemma GroupPoolIsSettled(order: seq<Line>, j: nat, keys: seq<Key>, matched: Pools, month: Date, category: Category)
    requires ScopedFirst(order) && j < |order| && General(order[j])
    ensures GroupPool(keys, matched, order[..j], month, category) == GroupPool(keys, matched, order, month, category)
  {
    hide Sum;
    forall key | key in keys
      ensures GroupLeft(matched, order[..j], month, category)(key) == GroupLeft(matched, order, month, category)(key)
    {
      if InGroup(key, month, category) { NoOwnDemandAfter(order, j, key); }
    }
    SumCongruent(keys, GroupLeft(matched, order[..j], month, category), GroupLeft(matched, order, month, category));
  }

  lemma {:induction false} GroupLinesInTurn(
      order: seq<Line>, n: nat, keys: seq<Key>, matched: Pools, month: Date, category: Category)
    requires DistinctLines(order) && NonNegativeLines(order) && ScopedFirst(order) && n <= |order|
    ensures var remaining := AfterTurns(order, |order|, keys, matched);
            Sum(order[..n], GroupLeftOf(remaining, month, category))
            == Max0(Sum(order[..n], GroupDemand(month, category))
                    - Max0(GroupPool(keys, matched, order, month, category)))
  {
    hide Sum, AfterTurns, Covered, Taken, GroupPool;
    var remaining := AfterTurns(order, |order|, keys, matched);
    if n == 0 {
      NothingAsked(order, GroupLeftOf(remaining, month, category), GroupDemand(month, category));
    } else {
      GroupLinesInTurn(order, n - 1, keys, matched, month, category);
      var line := order[n - 1];
      DemandSnoc(order, n - 1, GroupLeftOf(remaining, month, category));
      DemandSnoc(order, n - 1, GroupDemand(month, category));
      NonNegativeDemand(order, n - 1, GroupDemand(month, category));
      AfterTurnsAt(order, |order|, keys, matched, n - 1);
      if General(line) && line.period == month && line.category == category {
        GroupTaken(order, keys, matched, n - 1);
        GroupPoolIsSettled(order, n - 1, keys, matched, month, category);
        CoveredInTurn(Sum(order[..n - 1], GroupDemand(month, category)),
                      GroupPool(keys, matched, order, month, category), line.amount);
      }
    }
  }

  lemma GroupTaken(order: seq<Line>, keys: seq<Key>, matched: Pools, j: nat)
    requires j < |order| && General(order[j])
    ensures var line := order[j];
            Taken(keys, matched, order, j)
            == Covered(GroupPool(keys, matched, order[..j], line.period, line.category),
                       Sum(order[..j], GroupDemand(line.period, line.category)), line.amount)
  {
    hide Sum, Covered, GroupPool;
  }

  /**
   * The general lines of a category and month are left, together, with what they were forecast at
   * less what the phase-scoped lines leave of the category's pools.
   */
  lemma CategoryIsLeftWithTheRest(
      lines: seq<Line>, keys: seq<Key>, matched: Pools, month: Date, category: Category)
    requires DistinctLines(lines) && NonNegativeLines(lines)
    ensures Sum(lines, GroupLeftOf(AfterMatching(lines, keys, matched), month, category))
            == Max0(Sum(lines, GroupDemand(month, category)) - GroupPool(keys, matched, lines, month, category))
  {
    hide Sum, AfterTurns, SortBy;
    var order := TurnOrder(lines);
    TurnOrderIsSound(lines);
    GroupLinesInTurn(order, |order|, keys, matched, month, category);
    assert order[..|order|] == order;
    SumPermuted(order, lines, GroupLeftOf(AfterMatching(lines, keys, matched), month, category));
    SumPermuted(order, lines, GroupDemand(month, category));
    SamePoolInAnyOrder(keys, matched, order, lines, month, category);
  }

  lemma SamePoolInAnyOrder(
      keys: seq<Key>, matched: Pools, order: seq<Line>, lines: seq<Line>, month: Date, category: Category)
    requires multiset(order) == multiset(lines)
    ensures GroupPool(keys, matched, order, month, category) == GroupPool(keys, matched, lines, month, category) >= 0
  {
    hide Sum;
    forall key | key in keys
      ensures GroupLeft(matched, order, month, category)(key) == GroupLeft(matched, lines, month, category)(key) >= 0
    {
      SumPermuted(order, lines, OwnDemand(key));
    }
    SumCongruent(keys, GroupLeft(matched, order, month, category), GroupLeft(matched, lines, month, category));
    SumNonNegative(keys, GroupLeft(matched, lines, month, category));
  }

  // ---------------------------------------------------------------- grain by grain, keys written out

  function PoolAt(matched: Pools, key: Key): int { if key in matched then matched[key] else 0 }

  predicate ForCode(line: Line, month: Date, code: int) {
    line.kind == ConstructionPlanKind && line.period == month && line.costCode == Some(code)
  }

  predicate ForPhase(line: Line, month: Date, category: Category, phase: int) {
    line.kind == DevelopmentPlanKind && line.period == month && line.category == category && line.phase == Some(phase)
  }

  predicate ForProject(line: Line, month: Date, category: Category) {
    line.kind == DevelopmentPlanKind && line.period == month && line.category == category && line.phase == None
  }

  predicate ForFinancing(line: Line, month: Date, category: Category, direction: Direction) {
    line.kind == FinancingPlanKind && line.period == month && line.category == category && line.direction == direction
  }

  function OfCode(month: Date, code: int): Line -> bool { (line: Line) => ForCode(line, month, code) }

  function OfPhase(month: Date, category: Category, phase: int): Line -> bool {
    (line: Line) => ForPhase(line, month, category, phase)
  }

  function OfProject(month: Date, category: Category): Line -> bool {
    (line: Line) => ForProject(line, month, category)
  }

  function OfFinancing(month: Date, category: Category, direction: Direction): Line -> bool {
    (line: Line) => ForFinancing(line, month, category, direction)
  }

  const Forecast: Line -> int := (line: Line) => line.amount

  function Left(remaining: map<int, int>): Line -> int {
    (line: Line) => if line.id in remaining then remaining[line.id] else 0
  }

  /** The lines of a test, together, are left with their forecast less what was matched, and never less than nothing. */
  ghost predicate LeftWithTheRest(lines: seq<Line>, remaining: map<int, int>, test: Line -> bool, pool: int) {
    Sum(lines, Where(test, Left(remaining))) == Max0(Sum(lines, Where(test, Forecast)) - Max0(pool))
  }

  lemma TestIsGrain(lines: seq<Line>, keys: seq<Key>, matched: Pools, test: Line -> bool, key: Key)
    requires DistinctLines(lines) && NonNegativeLines(lines)
    requires forall line :: test(line) <==> !General(line) && Answers(line, key)
    ensures LeftWithTheRest(lines, AfterMatching(lines, keys, matched), test, PoolAt(matched, key))
  {
    hide Sum, AfterMatching, General, Answers;
    var remaining := AfterMatching(lines, keys, matched);
    GrainIsLeftWithTheRest(lines, keys, matched, key);
    SumCongruent(lines, OwnLeftOf(remaining, key), Where(test, Left(remaining)));
    SumCongruent(lines, OwnDemand(key), Where(test, Forecast));
  }

  /** A month's construction lines of one cost code keep what was not paid on that code in that month. */
  lemma CodeKeepsWhatWasNotPaid(lines: seq<Line>, keys: seq<Key>, matched: Pools, month: Date, code: int)
    requires DistinctLines(lines) && NonNegativeLines(lines)
    ensures LeftWithTheRest(lines, AfterMatching(lines, keys, matched), OfCode(month, code),
                            PoolAt(matched, Key(month, CostCodeGrain(Some(code)))))
  {
    hide AfterMatching, LeftWithTheRest, IsLeap, DaysIn;
    TestIsGrain(lines, keys, matched, OfCode(month, code), Key(month, CostCodeGrain(Some(code))));
  }

  /** A month's development lines of one category and phase keep what was not spent on that phase. */
  lemma PhaseKeepsWhatWasNotSpent(lines: seq<Line>, keys: seq<Key>, matched: Pools, month: Date, category: Category,
          phase: int)
    requires DistinctLines(lines) && NonNegativeLines(lines)
    ensures LeftWithTheRest(lines, AfterMatching(lines, keys, matched), OfPhase(month, category, phase),
                            PoolAt(matched, Key(month, DevelopmentGrain(category, Some(phase)))))
  {
    hide AfterMatching, LeftWithTheRest, IsLeap, DaysIn;
    TestIsGrain(lines, keys, matched, OfPhase(month, category, phase),
                Key(month, DevelopmentGrain(category, Some(phase))));
  }

  /** A month's financing lines of one type and direction keep what has not moved that way. */
  lemma FinancingKeepsWhatHasNotMoved(lines: seq<Line>, keys: seq<Key>, matched: Pools, month: Date, category: Category,
          direction: Direction)
    requires DistinctLines(lines) && NonNegativeLines(lines)
    ensures LeftWithTheRest(lines, AfterMatching(lines, keys, matched), OfFinancing(month, category, direction),
                            PoolAt(matched, Key(month, FinancingGrain(category, direction))))
  {
    hide AfterMatching, LeftWithTheRest, IsLeap, DaysIn;
    TestIsGrain(lines, keys, matched, OfFinancing(month, category, direction),
                Key(month, FinancingGrain(category, direction)));
  }

  /** What a development pool has over once the lines of its own phase are met. */
  function OverAt(lines: seq<Line>, matched: Pools, key: Key): int {
    match key.grain
    case DevelopmentGrain(category, Some(phase)) =>
      Max0(PoolAt(matched, key) - Sum(lines, Where(OfPhase(key.month, category, phase), Forecast)))
    case DevelopmentGrain(_, None) => Max0(PoolAt(matched, key))
    case _ => 0
  }

  function OverIn(lines: seq<Line>, matched: Pools, month: Date, category: Category): Key -> int {
    (key: Key) =>
      if key.month == month && key.grain.DevelopmentGrain? && key.grain.development == category
      then OverAt(lines, matched, key) else 0
  }

  /** A month's development lines that name no phase keep what is not met by all its phases have over. */
  lemma ProjectKeepsWhatPhasesLeave(lines: seq<Line>, keys: seq<Key>, matched: Pools, month: Date, category: Category)
    requires DistinctLines(lines) && NonNegativeLines(lines)
    ensures LeftWithTheRest(lines, AfterMatching(lines, keys, matched), OfProject(month, category),
                            Sum(keys, OverIn(lines, matched, month, category)))
  {
    hide Sum, AfterMatching, IsLeap, DaysIn;
    var remaining := AfterMatching(lines, keys, matched);
    CategoryIsLeftWithTheRest(lines, keys, matched, month, category);
    SumCongruent(lines, GroupLeftOf(remaining, month, category), Where(OfProject(month, category), Left(remaining)));
    SumCongruent(lines, GroupDemand(month, category), Where(OfProject(month, category), Forecast));
    forall key | key in keys
      ensures GroupLeft(matched, lines, month, category)(key) == OverIn(lines, matched, month, category)(key) >= 0
    {
      if InGroup(key, month, category) { OverIsOwnLeft(lines, matched, key); }
    }
    SumCongruent(keys, GroupLeft(matched, lines, month, category), OverIn(lines, matched, month, category));
    SumNonNegative(keys, OverIn(lines, matched, month, category));
  }

  lemma OverIsOwnLeft(lines: seq<Line>, matched: Pools, key: Key)
    requires key.grain.DevelopmentGrain?
    ensures OwnLeft(matched, lines, key) == OverAt(lines, matched, key)
  {
    hide Sum, IsLeap, DaysIn;
    if key.grain.phase.Some? {
      SumCongruent(lines, OwnDemand(key),
                   Where(OfPhase(key.month, key.grain.development, key.grain.phase.value), Forecast));
    } else {
      SumZero(lines, OwnDemand(key));
    }
  }

  /** An expectation of unsold stock is never met by anything, matched or not. */
  lemma UnsoldKeepsItsAmount(after: map<int, int>, lines: seq<Line>, keys: seq<Key>, matched: Pools, u: map<Date, int>,
          line: Line)
    requires DistinctLines(lines) && NonNegativeLines(lines) && line in lines && line.kind == UnsoldCustomerKind
    requires IsSpread(after, AfterMatching(lines, keys, matched), lines, u)
    ensures line.id in after && after[line.id] == line.amount
  {
    hide AfterTurns, SortBy, IsSpread, Sum;
    var order := TurnOrder(lines);
    TurnOrderIsSound(lines);
    assert line in multiset(order);
    var j :| 0 <= j < |order| && order[j] == line;
    AfterTurnsAt(order, |order|, keys, matched, j);
    OnlyConstructionIsSpread(after, AfterMatching(lines, keys, matched), lines, u, line);
  }

  /** Cash with no cost code falls on construction alone: every other line ends as matching left it. */
  lemma OnlyConstructionIsSpread(after: map<int, int>, before: map<int, int>, lines: seq<Line>, u: map<Date, int>,
          line: Line)
    requires IsSpread(after, before, lines, u) && line in lines && line.id in before
    requires line.kind != ConstructionPlanKind
    ensures line.id in after && after[line.id] == before[line.id]
  {
    hide SpreadIn, IsLeap, DaysIn;
  }
}
