/** Offsetting forecast lines by the actual cash that has met them, at the grain they were written on. */
module ForecastMatching {
  import opened Amounts
  import opened Calendar
  import opened Standing
  import opened Sums
  import opened CashModel

  datatype SourceKind = UnsoldCustomerKind | DevelopmentPlanKind | ConstructionPlanKind | FinancingPlanKind

  datatype Line = Line(
    id: int, period: Date, kind: SourceKind, category: Category, direction: Direction,
    amount: int, phase: Option<int>, costCode: Option<int>)

  datatype Grain =
    | CostCodeGrain(code: Option<int>)
    | DevelopmentGrain(development: Category, phase: Option<int>)
    | FinancingGrain(financing: Category, direction: Direction)

  datatype Key = Key(month: Date, grain: Grain)

  type Pools = map<Key, int>

  function Get(pools: Pools, key: Key): int { if key in pools then pools[key] else 0 }

  /** The key an actual has to match to have met a line's expectation. */
  function GrainOf(line: Line): Option<Grain> {
    match line.kind
    case ConstructionPlanKind => Some(CostCodeGrain(line.costCode))
    case DevelopmentPlanKind => Some(DevelopmentGrain(line.category, line.phase))
    case FinancingPlanKind => Some(FinancingGrain(line.category, line.direction))
    case UnsoldCustomerKind => None
  }

  /** A development line naming no phase stands for its category across the project. */
  predicate General(line: Line) { line.kind == DevelopmentPlanKind && line.phase.None? }

  predicate Answers(line: Line, key: Key) {
    && GrainOf(line).Some? && key.month == line.period
    && (if General(line) then key.grain.DevelopmentGrain? && key.grain.development == line.category
        else key.grain == GrainOf(line).value)
  }

  // ---------------------------------------------------------------- plans of what is taken from where

  datatype Take = Take(line: int, general: bool, key: Key, cents: int)

  const Cents: Take -> int := (t: Take) => t.cents
  const LineOfTake: Take -> int := (t: Take) => t.line
  const KeyOfTake: Take -> Key := (t: Take) => t.key

  function OnLine(plan: seq<Take>, line: int): int { Sum(plan, At(LineOfTake, line, Cents)) }

  function OnKey(plan: seq<Take>, key: Key): int { Sum(plan, At(KeyOfTake, key, Cents)) }

  /** A plan any accountant could draw up: actuals set against lines they answer, no cash and no line used twice. */
  ghost predicate Feasible(plan: seq<Take>, lines: seq<Line>, pools: Pools) {
    && (forall t :: t in plan ==>
          && t.cents >= 0 && t.key in pools
          && exists j :: 0 <= j < |lines| && lines[j].id == t.line && Answers(lines[j], t.key))
    && (forall j :: 0 <= j < |lines| ==> OnLine(plan, lines[j].id) <= lines[j].amount)
    && (forall key :: key in pools ==> OnKey(plan, key) <= Max0(pools[key]))
  }

  ghost predicate DistinctLines(lines: seq<Line>) {
    forall i, j :: 0 <= i < j < |lines| ==> lines[i].id != lines[j].id
  }

  // ---------------------------------------------------------------- one line's turn

  /** A line's turn under way: what it has taken so far, with the keys still to visit untouched. */
  ghost predicate Turning(line: Line, before: Pools, after: Pools, left: int, takes: seq<Take>, todo: set<Key>) {
    && after.Keys == before.Keys
    && (forall key :: key in before ==> after[key] == before[key] - OnKey(takes, key))
    && (forall key :: key in before ==> after[key] == before[key] || 0 <= after[key] < before[key])
    && (forall key :: key in todo ==> key in before && Answers(line, key) && after[key] == before[key])
    && (forall t :: t in takes ==>
          t.line == line.id && t.general == General(line) && t.cents >= 0 && t.key in before && Answers(line, t.key)
          && (t.cents > 0 ==> before[t.key] > 0))
    && left == line.amount - Sum(takes, Cents) >= 0
    && (left == 0 || forall key :: key in before && Answers(line, key) && key !in todo ==> after[key] <= 0)
  }

  /** What one line's turn does: it takes all it can from the pools it answers to. */
  ghost predicate Turn(line: Line, before: Pools, after: Pools, left: int, takes: seq<Take>) {
    Turning(line, before, after, left, takes, {})
  }

  lemma OnKeySnoc(takes: seq<Take>, t: Take, key: Key)
    ensures OnKey(takes + [t], key) == OnKey(takes, key) + (if t.key == key then t.cents else 0)
  {
    SumSnoc(takes, t, At(KeyOfTake, key, Cents));
  }

  lemma TurnTakes(line: Line, before: Pools, after: Pools, left: int, takes: seq<Take>, todo: set<Key>, key: Key)
    requires Turning(line, before, after, left, takes, todo) && key in todo && after[key] > 0
    ensures var taken := if after[key] < left then after[key] else left;
            Turning(line, before, after[key := after[key] - taken], left - taken,
                    takes + [Take(line.id, General(line), key, taken)], todo - {key})
  {
    hide Answers, General, Sum;
    var taken := if after[key] < left then after[key] else left;
    var t := Take(line.id, General(line), key, taken);
    forall other ensures OnKey(takes + [t], other) == OnKey(takes, other) + (if key == other then taken else 0) {
      OnKeySnoc(takes, t, other);
    }
    SumSnoc(takes, t, Cents);
  }

  /** The keys a line may draw on. */
  function KeysFor(line: Line, pools: Pools): set<Key> {
    set key | key in pools && Answers(line, key)
  }

  /** A line's turn, its keys visited in any order at all. */
  method TakeTurn(line: Line, pools: Pools) returns (left: int, after: Pools, ghost takes: seq<Take>)
    requires line.amount >= 0
    ensures Turn(line, pools, after, left, takes)
    ensures after.Keys == pools.Keys && 0 <= left <= line.amount
    ensures forall key :: key in pools && !Answers(line, key) ==> after[key] == pools[key]
    ensures forall key :: key in pools ==> after[key] == pools[key] || 0 <= after[key] < pools[key]
    ensures left == 0 || forall key :: key in pools && Answers(line, key) ==> after[key] <= 0
  {
    hide Turning, Answers, General, Sum;
    left, after, takes := line.amount, pools, [];
    var todo := KeysFor(line, pools);
    TurnStarts(line, pools);
    while todo != {}
      invariant Turning(line, pools, after, left, takes, todo)
      invariant todo <= pools.Keys && after.Keys == pools.Keys
      decreases todo
    {
      var key :| key in todo;
      var available := after[key];
      if available > 0 {
        TurnTakes(line, pools, after, left, takes, todo, key);
        var taken := if available < left then available else left;
        takes := takes + [Take(line.id, General(line), key, taken)];
        after := after[key := available - taken];
        left := left - taken;
      } else {
        TurnSkips(line, pools, after, left, takes, todo, key);
      }
      todo := todo - {key};
    }
    TurnShows(line, pools, after, left, takes);
  }

  /** Pools a line does not answer to are as they were. */
  lemma TurnLeavesOthers(line: Line, before: Pools, after: Pools, left: int, takes: seq<Take>, key: Key)
    requires Turn(line, before, after, left, takes) && key in before && !Answers(line, key)
    ensures after[key] == before[key]
  {
    SumZero(takes, At(KeyOfTake, key, Cents));
  }

  lemma TurnShows(line: Line, before: Pools, after: Pools, left: int, takes: seq<Take>)
    requires Turn(line, before, after, left, takes)
    ensures after.Keys == before.Keys && 0 <= left <= line.amount
    ensures forall key :: key in before && !Answers(line, key) ==> after[key] == before[key]
    ensures forall key :: key in before ==> after[key] == before[key] || 0 <= after[key] < before[key]
    ensures left == 0 || forall key :: key in before && Answers(line, key) ==> after[key] <= 0
  {
    hide Answers, General, Sum, OnKey;
    SumNonNegative(takes, Cents);
    forall key | key in before && !Answers(line, key) ensures after[key] == before[key] {
      TurnLeavesOthers(line, before, after, left, takes, key);
    }
  }

  lemma TurnStarts(line: Line, pools: Pools)
    requires line.amount >= 0
    ensures Turning(line, pools, pools, line.amount, [], KeysFor(line, pools))
  {
  }

  lemma TurnSkips(line: Line, before: Pools, after: Pools, left: int, takes: seq<Take>, todo: set<Key>, key: Key)
    requires Turning(line, before, after, left, takes, todo) && key in todo && after[key] <= 0
    ensures Turning(line, before, after, left, takes, todo - {key})
  {
    hide Answers, General, Sum, OnKey;
  }

  // ---------------------------------------------------------------- every line's turn

  /** Phase-scoped lines come before lines that name no phase. */
  ghost predicate ScopedFirst(order: seq<Line>) {
    forall i, j :: 0 <= i < j < |order| && order[i].phase.None? ==> order[j].phase.None?
  }

  ghost predicate LeftOver(order: seq<Line>, remaining: map<int, int>, plan: seq<Take>) {
    forall j :: 0 <= j < |order| ==>
      order[j].id in remaining && remaining[order[j].id] == order[j].amount - OnLine(plan, order[j].id) >= 0
  }

  ghost predicate Drawn(pools: Pools, left: Pools, plan: seq<Take>) {
    && left.Keys == pools.Keys
    && forall key :: key in pools ==>
         left[key] == pools[key] - OnKey(plan, key) && (left[key] == pools[key] || 0 <= left[key] < pools[key])
  }

  ghost predicate Licensed(order: seq<Line>, n: nat, pools: Pools, plan: seq<Take>) {
    forall t :: t in plan ==>
      t.cents >= 0 && t.key in pools
      && exists j :: 0 <= j < n && j < |order| && order[j].id == t.line && Answers(order[j], t.key)
            && t.general == General(order[j])
  }

  /** Wherever a line that has had its turn could still be met, it has been, or there is nothing left to meet it. */
  ghost predicate Exhausted(order: seq<Line>, n: nat, remaining: map<int, int>, left: Pools) {
    forall j, key :: 0 <= j < n && j < |order| && order[j].id in remaining && key in left && Answers(order[j], key) ==>
      remaining[order[j].id] == 0 || left[key] <= 0
  }

  /** A general line draws on a pool only after the lines of its own phase are met in full. */
  ghost predicate ScopedMetFirst(order: seq<Line>, remaining: map<int, int>, plan: seq<Take>) {
    forall t, j ::
      (&& t in plan && t.general && t.cents > 0
       && 0 <= j < |order| && !General(order[j]) && Answers(order[j], t.key) && order[j].id in remaining) ==>
        remaining[order[j].id] == 0
  }

  ghost predicate Matched(order: seq<Line>, n: nat, pools: Pools, left: Pools, remaining: map<int, int>,
          plan: seq<Take>) {
    && LeftOver(order, remaining, plan)
    && Drawn(pools, left, plan)
    && Licensed(order, n, pools, plan)
    && Exhausted(order, n, remaining, left)
    && ScopedMetFirst(order, remaining, plan)
  }

  lemma OnLineAfterTurn(plan: seq<Take>, takes: seq<Take>, line: Line, other: int)
    requires forall t :: t in takes ==> t.line == line.id
    ensures OnLine(plan + takes, other) == OnLine(plan, other) + (if other == line.id then Sum(takes, Cents) else 0)
  {
    SumAppend(plan, takes, At(LineOfTake, other, Cents));
    if other == line.id {
      SumCongruent(takes, At(LineOfTake, other, Cents), Cents);
    } else {
      SumZero(takes, At(LineOfTake, other, Cents));
    }
  }

  lemma NoTakesYet(order: seq<Line>, n: nat, pools: Pools, plan: seq<Take>, line: int)
    requires Licensed(order, n, pools, plan) && forall j :: 0 <= j < n && j < |order| ==> order[j].id != line
    ensures OnLine(plan, line) == 0
  {
    SumZero(plan, At(LineOfTake, line, Cents));
  }

  lemma TurnKeepsLeftOver(order: seq<Line>, n: nat, pools: Pools, left: Pools, after: Pools, remaining: map<int, int>,
          plan: seq<Take>, rest: int, takes: seq<Take>)
    requires DistinctLines(order) && n < |order|
    requires LeftOver(order, remaining, plan) && Licensed(order, n, pools, plan)
    requires Turn(order[n], left, after, rest, takes)
    ensures LeftOver(order, remaining[order[n].id := rest], plan + takes)
  {
    hide Answers, General, Sum, OnLine;
    NoTakesYet(order, n, pools, plan, order[n].id);
    forall j | 0 <= j < |order|
      ensures var r := remaining[order[n].id := rest];
              order[j].id in r && r[order[j].id] == order[j].amount - OnLine(plan + takes, order[j].id) >= 0
    {
      OnLineAfterTurn(plan, takes, order[n], order[j].id);
    }
  }

  lemma TurnKeepsDrawn(line: Line, pools: Pools, left: Pools, after: Pools, plan: seq<Take>, rest: int,
          takes: seq<Take>)
    requires Drawn(pools, left, plan) && Turn(line, left, after, rest, takes)
    ensures Drawn(pools, after, plan + takes)
  {
    hide Answers, General, Sum;
    forall key | key in pools ensures OnKey(plan + takes, key) == OnKey(plan, key) + OnKey(takes, key) {
      SumAppend(plan, takes, At(KeyOfTake, key, Cents));
    }
  }

  lemma TurnKeepsLicensed(order: seq<Line>, n: nat, pools: Pools, left: Pools, after: Pools, plan: seq<Take>, rest: int,
          takes: seq<Take>)
    requires n < |order| && left.Keys == pools.Keys
    requires Licensed(order, n, pools, plan) && Turn(order[n], left, after, rest, takes)
    ensures Licensed(order, n + 1, pools, plan + takes)
  {
    hide Answers, General, Sum, OnKey;
    forall t | t in plan + takes
      ensures t.cents >= 0 && t.key in pools
              && exists j :: 0 <= j < n + 1 && j < |order| && order[j].id == t.line && Answers(order[j], t.key)
                    && t.general == General(order[j])
    {
      if t in takes { assert order[n].id == t.line; }
    }
  }

  lemma TurnKeepsExhausted(order: seq<Line>, n: nat, left: Pools, after: Pools, remaining: map<int, int>, rest: int,
          takes: seq<Take>)
    requires DistinctLines(order) && n < |order|
    requires Exhausted(order, n, remaining, left) && Turn(order[n], left, after, rest, takes)
    ensures Exhausted(order, n + 1, remaining[order[n].id := rest], after)
  {
    hide Answers, General, Sum, OnKey;
  }

  lemma TurnKeepsScopedMetFirst(order: seq<Line>, n: nat, pools: Pools, left: Pools, after: Pools,
          remaining: map<int, int>, plan: seq<Take>, rest: int, takes: seq<Take>)
    requires DistinctLines(order) && ScopedFirst(order) && n < |order|
    requires LeftOver(order, remaining, plan) && Licensed(order, n, pools, plan) && Exhausted(order, n, remaining, left)
    requires ScopedMetFirst(order, remaining, plan)
    requires Turn(order[n], left, after, rest, takes)
    ensures ScopedMetFirst(order, remaining[order[n].id := rest], plan + takes)
  {
    hide Sum, OnKey, OnLine;
    var r := remaining[order[n].id := rest];
    forall t, j | t in plan + takes && t.general && t.cents > 0 && 0 <= j < |order| && !General(order[j])
        && Answers(order[j], t.key) && order[j].id in r
      ensures r[order[j].id] == 0
    {
      assert order[j].phase.Some?;
      if t in takes {
        assert j < n;
      } else {
        var i :| 0 <= i < n && order[i].id == t.line && Answers(order[i], t.key) && t.general == General(order[i]);
        assert j != n;
      }
    }
  }

  lemma TurnKeepsMatched(order: seq<Line>, n: nat, pools: Pools, left: Pools, after: Pools, remaining: map<int, int>,
          plan: seq<Take>, rest: int, takes: seq<Take>)
    requires DistinctLines(order) && ScopedFirst(order) && n < |order|
    requires Matched(order, n, pools, left, remaining, plan)
    requires Turn(order[n], left, after, rest, takes)
    ensures Matched(order, n + 1, pools, after, remaining[order[n].id := rest], plan + takes)
  {
    hide LeftOver, Licensed, Exhausted, ScopedMetFirst, Turning;
    TurnKeepsLeftOver(order, n, pools, left, after, remaining, plan, rest, takes);
    TurnKeepsDrawn(order[n], pools, left, after, plan, rest, takes);
    TurnKeepsLicensed(order, n, pools, left, after, plan, rest, takes);
    TurnKeepsExhausted(order, n, left, after, remaining, rest, takes);
    TurnKeepsScopedMetFirst(order, n, pools, left, after, remaining, plan, rest, takes);
  }

  // ---------------------------------------------------------------- nothing offsets more

  function Ids(lines: seq<Line>): (ids: seq<int>)
    ensures |ids| == |lines| && forall i :: 0 <= i < |lines| ==> ids[i] == lines[i].id
  {
    seq(|lines|, i requires 0 <= i < |lines| => lines[i].id)
  }

  function FromLines(a: set<int>): Take -> int {
    (t: Take) => if t.line in a then t.cents else 0
  }

  function FromKeys(b: set<Key>): Take -> int {
    (t: Take) => if t.key in b then t.cents else 0
  }

  /** What a plan sets against the lines of a, and draws from the keys of b. */
  function AgainstLines(plan: seq<Take>, a: set<int>): int -> int {
    id => if id in a then OnLine(plan, id) else 0
  }

  function DrawnFrom(plan: seq<Take>, b: set<Key>): Key -> int {
    key => if key in b then OnKey(plan, key) else 0
  }

  lemma LinesTotal(plan: seq<Take>, ids: seq<int>, a: set<int>)
    requires Distinct(ids) && forall t :: t in plan ==> t.line in ids
    ensures Sum(plan, FromLines(a)) == Sum(ids, AgainstLines(plan, a))
  {
    BucketsPartition(plan, ids, LineOfTake, FromLines(a));
    forall id | id in ids ensures Buckets(plan, LineOfTake, FromLines(a))(id) == AgainstLines(plan, a)(id) {
      if id in a { SumCongruent(plan, At(LineOfTake, id, FromLines(a)), At(LineOfTake, id, Cents)); }
      else { SumZero(plan, At(LineOfTake, id, FromLines(a))); }
    }
    SumCongruent(ids, Buckets(plan, LineOfTake, FromLines(a)), AgainstLines(plan, a));
  }

  lemma KeysTotal(plan: seq<Take>, keys: seq<Key>, b: set<Key>)
    requires Distinct(keys) && forall t :: t in plan ==> t.key in keys
    ensures Sum(plan, FromKeys(b)) == Sum(keys, DrawnFrom(plan, b))
  {
    BucketsPartition(plan, keys, KeyOfTake, FromKeys(b));
    forall key | key in keys ensures Buckets(plan, KeyOfTake, FromKeys(b))(key) == DrawnFrom(plan, b)(key) {
      if key in b { SumCongruent(plan, At(KeyOfTake, key, FromKeys(b)), At(KeyOfTake, key, Cents)); }
      else { SumZero(plan, At(KeyOfTake, key, FromKeys(b))); }
    }
    SumCongruent(keys, Buckets(plan, KeyOfTake, FromKeys(b)), DrawnFrom(plan, b));
  }

  function Either(a: set<int>, b: set<Key>): Take -> int {
    (t: Take) => FromLines(a)(t) + FromKeys(b)(t)
  }

  /** Lines and keys that between them touch every take hold at least as much as any plan moves. */
  lemma CoverBounds(plan: seq<Take>, ids: seq<int>, keys: seq<Key>, a: set<int>, b: set<Key>)
    requires Distinct(ids) && Distinct(keys)
    requires forall t :: t in plan ==> t.line in ids && t.key in keys && t.cents >= 0 && (t.line in a || t.key in b)
    ensures Sum(plan, Cents) <= Sum(ids, AgainstLines(plan, a)) + Sum(keys, DrawnFrom(plan, b))
  {
    LinesTotal(plan, ids, a);
    KeysTotal(plan, keys, b);
    SumPlus(plan, FromLines(a), FromKeys(b), Either(a, b));
    SumMonotone(plan, Cents, Either(a, b));
  }

  /** When each take is touched just once, they hold exactly what the plan moves. */
  lemma CoverIsExact(plan: seq<Take>, ids: seq<int>, keys: seq<Key>, a: set<int>, b: set<Key>)
    requires Distinct(ids) && Distinct(keys)
    requires forall t :: t in plan ==>
              t.line in ids && t.key in keys && (t.cents == 0 || (t.line in a <==> t.key !in b))
    ensures Sum(plan, Cents) == Sum(ids, AgainstLines(plan, a)) + Sum(keys, DrawnFrom(plan, b))
  {
    LinesTotal(plan, ids, a);
    KeysTotal(plan, keys, b);
    SumPlus(plan, FromLines(a), FromKeys(b), Either(a, b));
    SumCongruent(plan, Cents, Either(a, b));
  }

  /** Every general line that could draw on a key is met in full. */
  ghost predicate GeneralLinesMet(order: seq<Line>, remaining: map<int, int>, key: Key) {
    forall j :: 0 <= j < |order| && General(order[j]) && Answers(order[j], key) && order[j].id in remaining ==>
        remaining[order[j].id] == 0
  }

  ghost predicate GeneralLinesDrew(plan: seq<Take>, key: Key) {
    exists t :: t in plan && t.general && t.key == key && t.cents > 0
  }

  /** The keys that limit the offset: drained, and not merely by general lines that were met anyway. */
  ghost predicate Limits(order: seq<Line>, remaining: map<int, int>, left: Pools, plan: seq<Take>, key: Key) {
    key in left && left[key] <= 0 && (!GeneralLinesMet(order, remaining, key) || !GeneralLinesDrew(plan, key))
  }

  /** The lines that limit it: those whose cash does not come through a limiting key. */
  ghost predicate IsLimit(order: seq<Line>, remaining: map<int, int>, left: Pools, plan: seq<Take>, line: Line) {
    forall key :: key in left && Answers(line, key) ==>
      if General(line) then GeneralLinesMet(order, remaining, key) else !Limits(order, remaining, left, plan, key)
  }

  ghost function LimitingKeys(order: seq<Line>, remaining: map<int, int>, left: Pools, plan: seq<Take>): set<Key> {
    set key | key in left && Limits(order, remaining, left, plan, key)
  }

  ghost function LimitingLines(order: seq<Line>, remaining: map<int, int>, left: Pools, plan: seq<Take>): set<int> {
    set j | 0 <= j < |order| && IsLimit(order, remaining, left, plan, order[j])
        && AnswersSome(order[j], left) :: order[j].id
  }

  ghost predicate AnswersSome(line: Line, left: Pools) {
    exists key :: key in left && Answers(line, key)
  }

  /** Any answering pair is limited on one side: the line is met in full, or the key is drained. */
  lemma LimitsTouch(order: seq<Line>, pools: Pools, left: Pools, remaining: map<int, int>, plan: seq<Take>, j: nat,
          key: Key)
    requires Matched(order, |order|, pools, left, remaining, plan) && DistinctLines(order)
    requires j < |order| && key in left && Answers(order[j], key)
    ensures order[j].id in LimitingLines(order, remaining, left, plan)
            || key in LimitingKeys(order, remaining, left, plan)
    ensures order[j].id in LimitingLines(order, remaining, left, plan) ==> remaining[order[j].id] == 0
  {
    hide Sum, OnLine, OnKey;
    var line := order[j];
    if line.id in LimitingLines(order, remaining, left, plan) {
      var i :| 0 <= i < |order| && IsLimit(order, remaining, left, plan, order[i]) && order[i].id == line.id;
      assert i == j;
      if General(line) {
        assert GeneralLinesMet(order, remaining, key);
      } else if left[key] <= 0 {
        var t :| t in plan && t.general && t.key == key && t.cents > 0;
        assert remaining[line.id] == 0;
      }
    } else if General(line) {
      var k2 :| k2 in left && Answers(line, k2) && !GeneralLinesMet(order, remaining, k2);
      var i :| 0 <= i < |order| && General(order[i]) && Answers(order[i], key) && order[i].id in remaining
          && remaining[order[i].id] != 0;
      assert left[key] <= 0;
    } else {
      var k2 :| k2 in left && Answers(line, k2) && Limits(order, remaining, left, plan, k2);
      assert k2 == key;
    }
  }

  /** What was actually taken is limited on exactly one side. */
  lemma TakesTouchOnce(order: seq<Line>, pools: Pools, left: Pools, remaining: map<int, int>, plan: seq<Take>, t: Take)
    requires Matched(order, |order|, pools, left, remaining, plan) && DistinctLines(order)
    requires t in plan && t.cents > 0
    ensures t.line in LimitingLines(order, remaining, left, plan)
            <==> t.key !in LimitingKeys(order, remaining, left, plan)
  {
    hide Sum, OnLine, OnKey;
    var j :| 0 <= j < |order| && order[j].id == t.line && Answers(order[j], t.key) && t.general == General(order[j]);
    LimitsTouch(order, pools, left, remaining, plan, j, t.key);
    if t.line in LimitingLines(order, remaining, left, plan) {
      var i :| 0 <= i < |order| && IsLimit(order, remaining, left, plan, order[i]) && order[i].id == t.line;
      assert i == j;
      if t.general { assert GeneralLinesDrew(plan, t.key); }
    }
  }

  /**
   * The offset is maximal: no plan of actuals against lines at the same grain offsets more cash
   * than the one that lets phase-scoped lines go first.
   */
  lemma NothingOffsetsMore(order: seq<Line>, pools: Pools, left: Pools, remaining: map<int, int>, plan: seq<Take>,
          keys: seq<Key>, rival: seq<Take>)
    requires DistinctLines(order) && Matched(order, |order|, pools, left, remaining, plan)
    requires Distinct(keys) && forall key :: key in keys <==> key in pools
    requires Feasible(rival, order, pools)
    ensures Sum(rival, Cents) <= Sum(plan, Cents)
  {
    hide Sum, OnLine, OnKey, LimitingLines, LimitingKeys, Answers, General, Exhausted, ScopedMetFirst;
    var ids := Ids(order);
    var a, b := LimitingLines(order, remaining, left, plan), LimitingKeys(order, remaining, left, plan);
    forall t | t in rival ensures t.line in ids && t.key in keys && t.cents >= 0 && (t.line in a || t.key in b) {
      var j :| 0 <= j < |order| && order[j].id == t.line && Answers(order[j], t.key);
      assert ids[j] == t.line;
      LimitsTouch(order, pools, left, remaining, plan, j, t.key);
    }
    CoverBounds(rival, ids, keys, a, b);
    forall t | t in plan ensures t.line in ids && t.key in keys && (t.cents == 0 || (t.line in a <==> t.key !in b)) {
      var j :| 0 <= j < |order| && order[j].id == t.line && Answers(order[j], t.key) && t.general == General(order[j]);
      assert ids[j] == t.line;
      if t.cents > 0 { TakesTouchOnce(order, pools, left, remaining, plan, t); }
    }
    CoverIsExact(plan, ids, keys, a, b);
    LimitedLinesAreFull(order, pools, left, remaining, plan, rival);
    SumMonotone(ids, AgainstLines(rival, a), AgainstLines(plan, a));
    LimitingKeysAreDrained(order, pools, left, remaining, plan, rival);
    SumMonotone(keys, DrawnFrom(rival, b), DrawnFrom(plan, b));
  }

  lemma LimitedLinesAreFull(order: seq<Line>, pools: Pools, left: Pools, remaining: map<int, int>, plan: seq<Take>,
          rival: seq<Take>)
    requires DistinctLines(order) && Matched(order, |order|, pools, left, remaining, plan)
    requires Feasible(rival, order, pools)
    ensures var a := LimitingLines(order, remaining, left, plan);
            forall id :: id in Ids(order) ==> AgainstLines(rival, a)(id) <= AgainstLines(plan, a)(id)
  {
    hide Sum, OnLine, OnKey, Answers, General;
    var a := LimitingLines(order, remaining, left, plan);
    forall id | id in Ids(order) ensures AgainstLines(rival, a)(id) <= AgainstLines(plan, a)(id) {
      var j :| 0 <= j < |order| && Ids(order)[j] == id;
      if id in a {
        var i :| 0 <= i < |order| && IsLimit(order, remaining, left, plan, order[i]) && AnswersSome(order[i], left)
            && order[i].id == id;
        var key :| key in left && Answers(order[i], key);
        LimitsTouch(order, pools, left, remaining, plan, i, key);
      }
    }
  }

  lemma LimitingKeysAreDrained(order: seq<Line>, pools: Pools, left: Pools, remaining: map<int, int>, plan: seq<Take>,
          rival: seq<Take>)
    requires Matched(order, |order|, pools, left, remaining, plan) && Feasible(rival, order, pools)
    ensures var b := LimitingKeys(order, remaining, left, plan);
            forall key :: key in pools ==> DrawnFrom(rival, b)(key) <= DrawnFrom(plan, b)(key)
  {
    hide Sum, OnLine, OnKey, Answers, General, Licensed, Exhausted, ScopedMetFirst, LeftOver;
  }
}
