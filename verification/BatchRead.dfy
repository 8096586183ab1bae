/** The portfolio's batch read of many projects, which must answer what each project's own read answers. */
module BatchRead {
  import opened Calendar
  import opened Standing
  import opened Sums
  import opened CashModel
  import opened Assembly
  import opened ForecastMatching
  import opened ForecastRemainders
  import opened RemainingForecast
  import Bridge

  // ---------------------------------------------------------------- cash after the forecast's cutoff

  const DevelopmentKey: DevelopmentRow -> Key := (row: DevelopmentRow) =>
    Key(MonthOf(row.date), DevelopmentGrain(Development(row.kind), row.phase))
  const DevelopmentDate: DevelopmentRow -> Date := (row: DevelopmentRow) => row.date
  const DevelopmentAmount: DevelopmentRow -> int := (row: DevelopmentRow) => row.amount

  const FinancingKey: FinancingRow -> Key := (row: FinancingRow) =>
    Key(MonthOf(row.date), FinancingGrain(Financing(row.kind), row.direction))
  const FinancingDate: FinancingRow -> Date := (row: FinancingRow) => row.date
  const FinancingAmount: FinancingRow -> int := (row: FinancingRow) => row.amount

  function CostKey(month: Date, code: int): Key { Key(month, CostCodeGrain(Some(code))) }

  /** What one payment says was spent at a key. */
  function CostAt(row: PaymentRow, key: Key): int {
    if key.month == MonthOf(row.business) && key.grain.CostCodeGrain? && key.grain.code.Some?
        && key.grain.code.value in row.byCostCode
    then row.byCostCode[key.grain.code.value] else 0
  }

  function CostKeys(row: PaymentRow): set<Key> {
    set code | code in row.byCostCode :: CostKey(MonthOf(row.business), code)
  }

  function CostAfter(cutoff: Date, key: Key): PaymentRow -> int {
    (row: PaymentRow) => if Before(cutoff, row.business) then CostAt(row, key) else 0
  }

  /** What a movement posts at a key, if it moved after the cutoff. */
  function PostedAfter<T>(cutoff: Date, dateOf: T -> Date, keyOf: T -> Key, amountOf: T -> int, key: Key): T -> int {
    (row: T) => if Before(cutoff, dateOf(row)) && keyOf(row) == key then amountOf(row) else 0
  }

  function UnattributedAfter(cutoff: Date, month: Date): PaymentRow -> int {
    (row: PaymentRow) => if Before(cutoff, row.business) && MonthOf(row.business) == month then row.unattributed else 0
  }

  function PaymentKeys(rows: seq<PaymentRow>, cutoff: Date): set<Key> {
    set row, key | row in rows && Before(cutoff, row.business) && key in CostKeys(row) :: key
  }

  function PostedKeys<T>(rows: seq<T>, cutoff: Date, dateOf: T -> Date, keyOf: T -> Key): set<Key> {
    set i | 0 <= i < |rows| && Before(cutoff, dateOf(rows[i])) :: keyOf(rows[i])
  }

  /** Cash added to pools: more keys, and each key's cash on top of what it held. */
  ghost predicate Adds(after: Pools, before: Pools, keys: set<Key>, amount: Key -> int) {
    after.Keys == before.Keys + keys && forall key: Key :: Get(after, key) == Get(before, key) + amount(key)
  }

  function CostsOf(rows: seq<PaymentRow>, cutoff: Date): Key -> int { key => Sum(rows, CostAfter(cutoff, key)) }

  function PostedOf<T>(rows: seq<T>, cutoff: Date, dateOf: T -> Date, keyOf: T -> Key, amountOf: T -> int): Key -> int {
    key => Sum(rows, PostedAfter(cutoff, dateOf, keyOf, amountOf, key))
  }

  function DevelopmentKeys(s: Sources, cutoff: Date): set<Key> {
    PostedKeys(s.development, cutoff, DevelopmentDate, DevelopmentKey)
  }

  function DevelopmentOf(s: Sources, cutoff: Date): Key -> int {
    PostedOf(s.development, cutoff, DevelopmentDate, DevelopmentKey, DevelopmentAmount)
  }

  function FinancingKeys(s: Sources, cutoff: Date): set<Key> {
    PostedKeys(s.financing, cutoff, FinancingDate, FinancingKey)
  }

  function FinancingOf(s: Sources, cutoff: Date): Key -> int {
    PostedOf(s.financing, cutoff, FinancingDate, FinancingKey, FinancingAmount)
  }

  function UnattributedIn(rows: seq<PaymentRow>, cutoff: Date, month: Date): int {
    Sum(rows, UnattributedAfter(cutoff, month))
  }

  /** The matched pools: every key that cash was posted to, holding all of it. */
  ghost predicate IsMatched(m: Pools, s: Sources, cutoff: Date) {
    && m.Keys == PaymentKeys(s.payments, cutoff) + DevelopmentKeys(s, cutoff) + FinancingKeys(s, cutoff)
    && forall key: Key ::
         Get(m, key) == CostsOf(s.payments, cutoff)(key) + DevelopmentOf(s, cutoff)(key) + FinancingOf(s, cutoff)(key)
  }

  lemma MatchedIsUnique(a: Pools, b: Pools, s: Sources, cutoff: Date)
    requires IsMatched(a, s, cutoff) && IsMatched(b, s, cutoff)
    ensures a == b
  {
    forall key | key in a ensures a[key] == b[key] { assert Get(a, key) == Get(b, key); }
  }

  // ---------------------------------------------------------------- the loops both reads share

  /** What a payment posts once only some of its codes are still to do. */
  function CostDone(row: PaymentRow, todo: set<int>): Key -> int {
    (key: Key) => if key.grain.CostCodeGrain? && key.grain.code.Some? && key.grain.code.value in todo then 0
        else CostAt(row, key)
  }

  function KeysDone(row: PaymentRow, todo: set<int>): set<Key> {
    set code | code in row.byCostCode && code !in todo :: CostKey(MonthOf(row.business), code)
  }

  /** One payment's cost codes, in any order. */
  method PostCosts(pools: Pools, row: PaymentRow) returns (m: Pools)
    ensures Adds(m, pools, CostKeys(row), CostDone(row, {}))
  {
    hide Adds, CostDone, KeysDone, IsLeap, DaysIn;
    m := pools;
    var todo := row.byCostCode.Keys;
    NoCostYet(pools, row);
    while todo != {}
      invariant todo <= row.byCostCode.Keys
      invariant Adds(m, pools, KeysDone(row, todo), CostDone(row, todo))
      decreases todo
    {
      SomeCode(todo);
      var code: int :| code in todo;
      var key := CostKey(MonthOf(row.business), code);
      OneCostMore(m, pools, row, todo, code);
      m := m[key := Get(m, key) + row.byCostCode[code]];
      todo := todo - {code};
    }
    EveryCostDone(row);
  }

  lemma NoCostYet(pools: Pools, row: PaymentRow)
    ensures Adds(pools, pools, KeysDone(row, row.byCostCode.Keys), CostDone(row, row.byCostCode.Keys))
  {
  }

  lemma OneCostMore(m: Pools, pools: Pools, row: PaymentRow, todo: set<int>, code: int)
    requires Adds(m, pools, KeysDone(row, todo), CostDone(row, todo)) && code in todo && todo <= row.byCostCode.Keys
    ensures var key := CostKey(MonthOf(row.business), code);
            Adds(m[key := Get(m, key) + row.byCostCode[code]], pools, KeysDone(row, todo - {code}),
                 CostDone(row, todo - {code}))
  {
    hide Adds, IsLeap, DaysIn;
    var key := CostKey(MonthOf(row.business), code);
    AddsOneMore(m, pools, KeysDone(row, todo), CostDone(row, todo), key, row.byCostCode[code],
                CostDone(row, todo - {code}));
    assert KeysDone(row, todo - {code}) == KeysDone(row, todo) + {key};
  }

  lemma EveryCostDone(row: PaymentRow)
    ensures KeysDone(row, {}) == CostKeys(row)
  {
  }

  lemma AddsOneMore(m: Pools, pools: Pools, keys: set<Key>, amount: Key -> int, key: Key, cents: int, after: Key -> int)
    requires Adds(m, pools, keys, amount)
    requires forall k: Key :: after(k) == amount(k) + if k == key then cents else 0
    ensures Adds(m[key := Get(m, key) + cents], pools, keys + {key}, after)
  {
  }

  lemma AddsTheSame(m: Pools, pools: Pools, keys: set<Key>, amount: Key -> int, after: Key -> int)
    requires Adds(m, pools, keys, amount)
    requires forall k: Key :: after(k) == amount(k)
    ensures Adds(m, pools, keys + {}, after)
  {
  }

  lemma AddsAgain(m': Pools, m: Pools, pools: Pools, keys: set<Key>, amount: Key -> int, more: set<Key>,
          extra: Key -> int, after: Key -> int)
    requires Adds(m, pools, keys, amount) && Adds(m', m, more, extra)
    requires forall k: Key :: after(k) == amount(k) + extra(k)
    ensures Adds(m', pools, keys + more, after)
  {
  }

  /** One register of movements: the cash after the cutoff, added where it was spent or raised. */
  method PostEach<T>(pools: Pools, rows: seq<T>, cutoff: Date, dateOf: T -> Date, keyOf: T -> Key, amountOf: T -> int)
    returns (m: Pools)
    ensures Adds(m, pools, PostedKeys(rows, cutoff, dateOf, keyOf), PostedOf(rows, cutoff, dateOf, keyOf, amountOf))
  {
    hide Adds, Before, IsLeap, DaysIn, PostedKeys, PostedOf, Sum;
    m := pools;
    NothingPosted(pools, rows, cutoff, dateOf, keyOf, amountOf);
    for i := 0 to |rows|
      invariant Adds(m, pools, PostedKeys(rows[..i], cutoff, dateOf, keyOf),
                     PostedOf(rows[..i], cutoff, dateOf, keyOf, amountOf))
    {
      ghost var keys, posted :=
          PostedKeys(rows[..i], cutoff, dateOf, keyOf), PostedOf(rows[..i], cutoff, dateOf, keyOf, amountOf);
      ghost var after := PostedOf(rows[..i + 1], cutoff, dateOf, keyOf, amountOf);
      PostedGrows(rows, cutoff, dateOf, keyOf, amountOf, i);
      if Before(cutoff, dateOf(rows[i])) {
        var key := keyOf(rows[i]);
        AddsOneMore(m, pools, keys, posted, key, amountOf(rows[i]), after);
        m := m[key := Get(m, key) + amountOf(rows[i])];
      } else {
        AddsTheSame(m, pools, keys, posted, after);
      }
    }
    assert rows[..|rows|] == rows;
  }

  lemma NothingPosted<T>(pools: Pools, rows: seq<T>, cutoff: Date, dateOf: T -> Date, keyOf: T -> Key,
          amountOf: T -> int)
    ensures Adds(pools, pools, PostedKeys(rows[..0], cutoff, dateOf, keyOf),
                 PostedOf(rows[..0], cutoff, dateOf, keyOf, amountOf))
  {
  }

  lemma PostedGrows<T>(rows: seq<T>, cutoff: Date, dateOf: T -> Date, keyOf: T -> Key, amountOf: T -> int, i: nat)
    requires i < |rows|
    ensures PostedKeys(rows[..i + 1], cutoff, dateOf, keyOf)
            == PostedKeys(rows[..i], cutoff, dateOf, keyOf) + if Before(cutoff, dateOf(rows[i])) then {keyOf(rows[i])}
                else {}
    ensures forall key: Key :: PostedOf(rows[..i + 1], cutoff, dateOf, keyOf, amountOf)(key)
                               == PostedOf(rows[..i], cutoff, dateOf, keyOf, amountOf)(key)
                                  + PostedAfter(cutoff, dateOf, keyOf, amountOf, key)(rows[i])
  {
    hide Before, IsLeap, DaysIn, Sum;
    assert rows[..i + 1] == rows[..i] + [rows[i]];
    forall key: Key
      ensures PostedOf(rows[..i + 1], cutoff, dateOf, keyOf, amountOf)(key)
              == PostedOf(rows[..i], cutoff, dateOf, keyOf, amountOf)(key)
                  + PostedAfter(cutoff, dateOf, keyOf, amountOf, key)(rows[i])
    {
      SumSnoc(rows[..i], rows[i], PostedAfter(cutoff, dateOf, keyOf, amountOf, key));
    }
  }

  // ---------------------------------------------------------------- one project's own read, and the batch

  /** What a month's unattributed pool holds, for the months that have one. */
  ghost predicate IsUnattributed(u: map<Date, int>, rows: seq<PaymentRow>, cutoff: Date) {
    forall month: Date :: PoolOf(u, month) == UnattributedIn(rows, cutoff, month)
  }

  ghost predicate NonNegativeCash(rows: seq<PaymentRow>) {
    forall i :: 0 <= i < |rows| ==> rows[i].unattributed >= 0
  }

  // ---------------------------------------------------------------- what the pools hold, key by key

  /** Money after the cutoff, in a month. */
  predicate Later(day: Date, cutoff: Date, month: Date) {
    Before(cutoff, day) && day.year == month.year && day.month == month.month && month.day == 1
  }

  function PaidOnCode(cutoff: Date, month: Date, code: int): PaymentRow -> int {
    (row: PaymentRow) =>
      if Later(row.business, cutoff, month) && code in row.byCostCode then row.byCostCode[code] else 0
  }

  function SpentOnPhase(cutoff: Date, month: Date, kind: DevelopmentKind, phase: Option<int>): DevelopmentRow -> int {
    (row: DevelopmentRow) =>
      if Later(row.date, cutoff, month) && row.kind == kind && row.phase == phase then row.amount else 0
  }

  function MovedAs(cutoff: Date, month: Date, kind: FinancingKind, direction: Direction): FinancingRow -> int {
    (row: FinancingRow) =>
      if Later(row.date, cutoff, month) && row.kind == kind && row.direction == direction then row.amount else 0
  }

  function PaidOnNoCode(cutoff: Date, month: Date): PaymentRow -> int {
    (row: PaymentRow) => if Later(row.business, cutoff, month) then row.unattributed else 0
  }

  /** Each pool holds the cash of its own month and grain alone, and there is one only where some was posted. */
  ghost predicate HoldTheirCash(m: Pools, s: Sources, cutoff: Date) {
    && (forall month: Date, code :: Canonical(month) ==>
          Get(m, Key(month, CostCodeGrain(Some(code)))) == Sum(s.payments, PaidOnCode(cutoff, month, code)))
    && (forall month: Date, kind, phase :: Canonical(month) ==>
          Get(m, Key(month, DevelopmentGrain(Development(kind), phase)))
          == Sum(s.development, SpentOnPhase(cutoff, month, kind, phase)))
    && (forall month: Date, kind, direction :: Canonical(month) ==>
          Get(m, Key(month, FinancingGrain(Financing(kind), direction)))
          == Sum(s.financing, MovedAs(cutoff, month, kind, direction)))
  }

  ghost predicate HoldTheRest(u: map<Date, int>, s: Sources, cutoff: Date) {
    forall month: Date :: Canonical(month) ==> PoolOf(u, month) == Sum(s.payments, PaidOnNoCode(cutoff, month))
  }

  lemma CodesHold(m: Pools, s: Sources, cutoff: Date, month: Date, code: int)
    requires IsMatched(m, s, cutoff) && Canonical(month)
    ensures Get(m, Key(month, CostCodeGrain(Some(code)))) == Sum(s.payments, PaidOnCode(cutoff, month, code))
  {
    hide Sum, Before, IsLeap, DaysIn, PaymentKeys, DevelopmentKeys, FinancingKeys;
    var key := Key(month, CostCodeGrain(Some(code)));
    SumCongruent(s.payments, CostAfter(cutoff, key), PaidOnCode(cutoff, month, code));
    SumZero(s.development, PostedAfter(cutoff, DevelopmentDate, DevelopmentKey, DevelopmentAmount, key));
    SumZero(s.financing, PostedAfter(cutoff, FinancingDate, FinancingKey, FinancingAmount, key));
  }

  lemma PhasesHold(m: Pools, s: Sources, cutoff: Date, month: Date, kind: DevelopmentKind, phase: Option<int>)
    requires IsMatched(m, s, cutoff) && Canonical(month)
    ensures Get(m, Key(month, DevelopmentGrain(Development(kind), phase)))
            == Sum(s.development, SpentOnPhase(cutoff, month, kind, phase))
  {
    hide Sum, Before, IsLeap, DaysIn, PaymentKeys, DevelopmentKeys, FinancingKeys;
    var key := Key(month, DevelopmentGrain(Development(kind), phase));
    SumZero(s.payments, CostAfter(cutoff, key));
    SumCongruent(s.development, PostedAfter(cutoff, DevelopmentDate, DevelopmentKey, DevelopmentAmount, key),
                 SpentOnPhase(cutoff, month, kind, phase));
    SumZero(s.financing, PostedAfter(cutoff, FinancingDate, FinancingKey, FinancingAmount, key));
  }

  lemma FinancingHolds(m: Pools, s: Sources, cutoff: Date, month: Date, kind: FinancingKind, direction: Direction)
    requires IsMatched(m, s, cutoff) && Canonical(month)
    ensures Get(m, Key(month, FinancingGrain(Financing(kind), direction)))
            == Sum(s.financing, MovedAs(cutoff, month, kind, direction))
  {
    hide Sum, Before, IsLeap, DaysIn, PaymentKeys, DevelopmentKeys, FinancingKeys;
    var key := Key(month, FinancingGrain(Financing(kind), direction));
    SumZero(s.payments, CostAfter(cutoff, key));
    SumZero(s.development, PostedAfter(cutoff, DevelopmentDate, DevelopmentKey, DevelopmentAmount, key));
    SumCongruent(s.financing, PostedAfter(cutoff, FinancingDate, FinancingKey, FinancingAmount, key),
                 MovedAs(cutoff, month, kind, direction));
  }

  /** What either read returns, written out. */
  lemma PoolsHoldTheirCash(m: Pools, u: map<Date, int>, s: Sources, cutoff: Date)
    requires IsMatched(m, s, cutoff) && IsUnattributed(u, s.payments, cutoff)
    ensures HoldTheirCash(m, s, cutoff) && HoldTheRest(u, s, cutoff)
  {
    hide IsMatched, Sum, Before, IsLeap, DaysIn, PaidOnCode, SpentOnPhase, MovedAs;
    forall month: Date, code | Canonical(month)
      ensures Get(m, Key(month, CostCodeGrain(Some(code)))) == Sum(s.payments, PaidOnCode(cutoff, month, code))
    {
      CodesHold(m, s, cutoff, month, code);
    }
    forall month: Date, kind, phase | Canonical(month)
      ensures Get(m, Key(month, DevelopmentGrain(Development(kind), phase)))
              == Sum(s.development, SpentOnPhase(cutoff, month, kind, phase))
    {
      PhasesHold(m, s, cutoff, month, kind, phase);
    }
    forall month: Date, kind, direction | Canonical(month)
      ensures Get(m, Key(month, FinancingGrain(Financing(kind), direction)))
              == Sum(s.financing, MovedAs(cutoff, month, kind, direction))
    {
      FinancingHolds(m, s, cutoff, month, kind, direction);
    }
    forall month: Date | Canonical(month)
      ensures PoolOf(u, month) == Sum(s.payments, PaidOnNoCode(cutoff, month))
    {
      SumCongruent(s.payments, UnattributedAfter(cutoff, month), PaidOnNoCode(cutoff, month));
    }
  }

  // ---------------------------------------------------------------- the two reads

  /** The owner's read: a month has an unattributed pool only if something is in it. */
  method PostCutoffActuals(s: Sources, cutoff: Date) returns (matched: Pools, unattributed: map<Date, int>)
    requires NonNegativeCash(s.payments)
    ensures IsMatched(matched, s, cutoff) && IsUnattributed(unattributed, s.payments, cutoff)
    ensures HoldTheirCash(matched, s, cutoff) && HoldTheRest(unattributed, s, cutoff)
    ensures forall month :: month in unattributed ==> unattributed[month] > 0
  {
    hide Adds, IsUnattributed, Before, IsLeap, DaysIn, CostKeys, PaymentKeys, CostsOf, IsMatched, Sum, HoldTheirCash,
         HoldTheRest;
    matched, unattributed := map[], map[];
    var rows := s.payments;
    NoPaymentsYet(cutoff);
    for i := 0 to |rows|
      invariant Adds(matched, map[], PaymentKeys(rows[..i], cutoff), CostsOf(rows[..i], cutoff))
      invariant IsUnattributed(unattributed, rows[..i], cutoff)
      invariant forall month :: month in unattributed ==> unattributed[month] > 0
    {
      assert rows[..i + 1][..i] == rows[..i];
      ghost var soFar, pooled := matched, unattributed;
      if !Before(cutoff, rows[i].business) {
        EarlyPayment(soFar, pooled, rows, cutoff, i);
        continue;
      }
      var month := MonthOf(rows[i].business);
      matched := PostCosts(matched, rows[i]);
      PaymentPosted(soFar, matched, rows, cutoff, i);
      PaymentPooled(pooled, rows, cutoff, i);
      if rows[i].unattributed > 0 {
        unattributed := unattributed[month := PoolOf(unattributed, month) + rows[i].unattributed];
      }
    }
    assert rows[..|rows|] == rows;
    ghost var costs := matched;
    matched := PostEach(matched, s.development, cutoff, DevelopmentDate, DevelopmentKey, DevelopmentAmount);
    ghost var spent := matched;
    matched := PostEach(matched, s.financing, cutoff, FinancingDate, FinancingKey, FinancingAmount);
    AllPosted(costs, spent, matched, s, cutoff);
    PoolsHoldTheirCash(matched, unattributed, s, cutoff);
  }

  lemma PaymentsGrow(rows: seq<PaymentRow>, cutoff: Date, i: nat)
    requires i < |rows|
    ensures PaymentKeys(rows[..i + 1], cutoff)
            == PaymentKeys(rows[..i], cutoff) + if Before(cutoff, rows[i].business) then CostKeys(rows[i]) else {}
    ensures forall key: Key ::
              CostsOf(rows[..i + 1], cutoff)(key) == CostsOf(rows[..i], cutoff)(key) + CostAfter(cutoff, key)(rows[i])
    ensures forall month: Date ::
              UnattributedIn(rows[..i + 1], cutoff, month)
                  == UnattributedIn(rows[..i], cutoff, month) + UnattributedAfter(cutoff, month)(rows[i])
  {
    hide Before, IsLeap, DaysIn, CostKeys, CostAt, Sum;
    assert rows[..i + 1] == rows[..i] + [rows[i]];
    forall key: Key
      ensures CostsOf(rows[..i + 1], cutoff)(key) == CostsOf(rows[..i], cutoff)(key) + CostAfter(cutoff, key)(rows[i])
    {
      SumSnoc(rows[..i], rows[i], CostAfter(cutoff, key));
    }
    forall month: Date
      ensures UnattributedIn(rows[..i + 1], cutoff, month)
              == UnattributedIn(rows[..i], cutoff, month) + UnattributedAfter(cutoff, month)(rows[i])
    {
      SumSnoc(rows[..i], rows[i], UnattributedAfter(cutoff, month));
    }
  }

  lemma NoPaymentsYet(cutoff: Date)
    ensures forall rows: seq<PaymentRow> ::
              Adds(map[], map[], PaymentKeys(rows[..0], cutoff), CostsOf(rows[..0], cutoff))
    ensures forall rows: seq<PaymentRow> :: IsUnattributed(map[], rows[..0], cutoff)
  {
  }

  lemma EarlyPayment(m: Pools, u: map<Date, int>, rows: seq<PaymentRow>, cutoff: Date, i: nat)
    requires i < |rows| && !Before(cutoff, rows[i].business)
    requires Adds(m, map[], PaymentKeys(rows[..i], cutoff), CostsOf(rows[..i], cutoff))
    requires IsUnattributed(u, rows[..i], cutoff)
    ensures Adds(m, map[], PaymentKeys(rows[..i + 1], cutoff), CostsOf(rows[..i + 1], cutoff))
    ensures IsUnattributed(u, rows[..i + 1], cutoff)
  {
    hide Adds, PaymentKeys, CostsOf, UnattributedIn, IsLeap, DaysIn, Before;
    PaymentsGrow(rows, cutoff, i);
    AddsTheSame(m, map[], PaymentKeys(rows[..i], cutoff), CostsOf(rows[..i], cutoff), CostsOf(rows[..i + 1], cutoff));
  }

  lemma PaymentPosted(before: Pools, m: Pools, rows: seq<PaymentRow>, cutoff: Date, i: nat)
    requires i < |rows| && Before(cutoff, rows[i].business)
    requires Adds(before, map[], PaymentKeys(rows[..i], cutoff), CostsOf(rows[..i], cutoff))
    requires Adds(m, before, CostKeys(rows[i]), CostDone(rows[i], {}))
    ensures Adds(m, map[], PaymentKeys(rows[..i + 1], cutoff), CostsOf(rows[..i + 1], cutoff))
  {
    hide Adds, PaymentKeys, CostsOf, CostKeys, CostAt, IsLeap, DaysIn, Before;
    PaymentsGrow(rows, cutoff, i);
    AddsAgain(m, before, map[], PaymentKeys(rows[..i], cutoff), CostsOf(rows[..i], cutoff),
              CostKeys(rows[i]), CostDone(rows[i], {}), CostsOf(rows[..i + 1], cutoff));
  }

  /** Adding a payment's unattributed cash to its month's pool, or leaving out an amount of nothing. */
  lemma PaymentPooled(u: map<Date, int>, rows: seq<PaymentRow>, cutoff: Date, i: nat)
    requires i < |rows| && Before(cutoff, rows[i].business) && IsUnattributed(u, rows[..i], cutoff)
    ensures var month := MonthOf(rows[i].business);
            IsUnattributed(u[month := PoolOf(u, month) + rows[i].unattributed], rows[..i + 1], cutoff)
    ensures rows[i].unattributed == 0 ==> IsUnattributed(u, rows[..i + 1], cutoff)
  {
    hide UnattributedIn, IsLeap, DaysIn, Before;
    PaymentsGrow(rows, cutoff, i);
    var month := MonthOf(rows[i].business);
    var after := u[month := PoolOf(u, month) + rows[i].unattributed];
    forall m: Date ensures PoolOf(after, m) == UnattributedIn(rows[..i + 1], cutoff, m) {
      assert PoolOf(after, m) == PoolOf(u, m) + UnattributedAfter(cutoff, m)(rows[i]);
    }
  }

  lemma AllPosted(costs: Pools, spent: Pools, matched: Pools, s: Sources, cutoff: Date)
    requires Adds(costs, map[], PaymentKeys(s.payments, cutoff), CostsOf(s.payments, cutoff))
    requires Adds(spent, costs, DevelopmentKeys(s, cutoff), DevelopmentOf(s, cutoff))
    requires Adds(matched, spent, FinancingKeys(s, cutoff), FinancingOf(s, cutoff))
    ensures IsMatched(matched, s, cutoff)
  {
    hide PaymentKeys, DevelopmentKeys, FinancingKeys, CostsOf, DevelopmentOf, FinancingOf;
  }

  /** The batch's read: every month with a payment gets a pool, empty or not. */
  method BatchActuals(s: Sources, cutoff: Date) returns (matched: Pools, unattributed: map<Date, int>)
    requires NonNegativeCash(s.payments)
    ensures IsMatched(matched, s, cutoff) && IsUnattributed(unattributed, s.payments, cutoff)
    ensures HoldTheirCash(matched, s, cutoff) && HoldTheRest(unattributed, s, cutoff)
    ensures forall month :: month in unattributed <==>
              exists i :: 0 <= i < |s.payments| && Before(cutoff, s.payments[i].business)
                  && MonthOf(s.payments[i].business) == month
    ensures forall month :: month in unattributed ==> unattributed[month] >= 0
  {
    hide Adds, IsUnattributed, Before, IsLeap, DaysIn, CostKeys, PaymentKeys, CostsOf, IsMatched, Sum, HoldTheirCash,
         HoldTheRest;
    matched, unattributed := map[], map[];
    var rows := s.payments;
    NoPaymentsYet(cutoff);
    for i := 0 to |rows|
      invariant Adds(matched, map[], PaymentKeys(rows[..i], cutoff), CostsOf(rows[..i], cutoff))
      invariant IsUnattributed(unattributed, rows[..i], cutoff)
      invariant forall month :: month in unattributed <==>
                  exists k :: 0 <= k < i && Before(cutoff, rows[k].business) && MonthOf(rows[k].business) == month
      invariant forall month :: month in unattributed ==> unattributed[month] >= 0
    {
      assert rows[..i + 1][..i] == rows[..i];
      ghost var soFar, pooled := matched, unattributed;
      if !Before(cutoff, rows[i].business) {
        EarlyPayment(soFar, pooled, rows, cutoff, i);
      } else {
        var month := MonthOf(rows[i].business);
        matched := PostCosts(matched, rows[i]);
        PaymentPosted(soFar, matched, rows, cutoff, i);
        PaymentPooled(pooled, rows, cutoff, i);
        unattributed := unattributed[month := PoolOf(unattributed, month) + rows[i].unattributed];
      }
    }
    assert rows[..|rows|] == rows;
    ghost var costs := matched;
    matched := PostEach(matched, s.development, cutoff, DevelopmentDate, DevelopmentKey, DevelopmentAmount);
    ghost var spent := matched;
    matched := PostEach(matched, s.financing, cutoff, FinancingDate, FinancingKey, FinancingAmount);
    AllPosted(costs, spent, matched, s, cutoff);
    PoolsHoldTheirCash(matched, unattributed, s, cutoff);
  }

  /** Whatever each read found in its pools, every line is left with the same. */
  lemma BatchAnswersAsTheOwner(
    s: Sources, cutoff: Date, lines: seq<Line>, keys: seq<Key>,
    matched: Pools, u: map<Date, int>, own: map<int, int>, batchMatched: Pools, v: map<Date, int>, batch: map<int, int>,
        line: Line)
    requires DistinctLines(lines) && NonNegativeLines(lines)
    requires IsMatched(matched, s, cutoff) && IsUnattributed(u, s.payments, cutoff)
    requires IsMatched(batchMatched, s, cutoff) && IsUnattributed(v, s.payments, cutoff)
    requires IsSpread(own, AfterMatching(lines, keys, matched), lines, u)
    requires IsSpread(batch, AfterMatching(lines, keys, batchMatched), lines, v)
    requires line in lines
    ensures line.id in own && line.id in batch && own[line.id] == batch[line.id]
  {
    hide IsMatched, IsSpread, IsUnattributed, AfterTurns, NonNegativeLines;
    MatchedIsUnique(matched, batchMatched, s, cutoff);
    assert forall month :: PoolOf(u, month) == PoolOf(v, month) by {
      PoolsAgree(u, v, s.payments, cutoff);
    }
    MatchedLineIsWithin(lines, keys, matched, line);
    SpreadKeepsKeys(own, AfterMatching(lines, keys, matched), lines, u);
    SpreadKeepsKeys(batch, AfterMatching(lines, keys, matched), lines, v);
    OneAnswer(own, batch, AfterMatching(lines, keys, matched), lines, u, v, line);
  }

  lemma PoolsAgree(u: map<Date, int>, v: map<Date, int>, rows: seq<PaymentRow>, cutoff: Date)
    requires IsUnattributed(u, rows, cutoff) && IsUnattributed(v, rows, cutoff)
    ensures forall month :: PoolOf(u, month) == PoolOf(v, month)
  {
  }

  lemma SpreadKeepsKeys(after: map<int, int>, before: map<int, int>, lines: seq<Line>, u: map<Date, int>)
    requires IsSpread(after, before, lines, u)
    ensures after.Keys == before.Keys
  {
  }

  // ---------------------------------------------------------------- the worst month

  datatype Closing = Closing(month: Date, unrestricted: int)

  datatype Peak = Peak(minimum: int, deficit: int, month: Option<Date>)

  ghost predicate Chronological(months: seq<Closing>) {
    forall i, j :: 0 <= i < j < |months| ==> Before(months[i].month, months[j].month)
  }

  /** The first of the lowest closings. */
  ghost predicate IsFirstLowest(months: seq<Closing>, i: int) {
    && 0 <= i < |months|
    && (forall j :: 0 <= j < |months| ==> months[i].unrestricted <= months[j].unrestricted)
    && (forall j :: 0 <= j < i ==> months[i].unrestricted < months[j].unrestricted)
  }

  /** The first lowest closing, what it is short, and its month if it is short. */
  ghost predicate IsPeak(p: Peak, months: seq<Closing>) {
    if months == [] then p == Peak(0, 0, None)
    else
      exists i: int ::
        && IsFirstLowest(months, i) && p.minimum == months[i].unrestricted
        && p.deficit == Bridge.FundingGap(p.minimum)
        && p.month == if p.deficit > 0 then Some(months[i].month) else None
  }

  method PeakDeficit(months: seq<Closing>) returns (p: Peak)
    ensures IsPeak(p, months)
  {
    if months == [] {
      return Peak(0, 0, None);
    }
    var worst := months[0];
    ghost var at := 0;
    for k := 1 to |months|
      invariant at < k && months[at] == worst
      invariant forall j :: 0 <= j < k ==> worst.unrestricted <= months[j].unrestricted
      invariant forall j :: 0 <= j < at ==> worst.unrestricted < months[j].unrestricted
    {
      if months[k].unrestricted < worst.unrestricted {
        worst := months[k];
        at := k;
      }
    }
    var gap := Bridge.FundingGap(worst.unrestricted);
    assert IsFirstLowest(months, at);
    p := Peak(worst.unrestricted, gap, if gap > 0 then Some(worst.month) else None);
  }

  datatype Availability = Available | Partial | Unavailable

  datatype HorizonPosition = HorizonPosition(
    lowest: Option<int>, lowMonth: Option<Date>, firstDeficit: Option<Date>, peak: Option<int>,
        availability: Availability)

  function InHorizon(asOf: Date, end: Date): Closing -> bool {
    (c: Closing) => UpTo(MonthOf(asOf), c.month) && UpTo(c.month, MonthOf(end))
  }

  /** Lower first, and earlier first among equals. */
  predicate Worse(a: Closing, b: Closing) {
    a.unrestricted < b.unrestricted || (a.unrestricted == b.unrestricted && Before(a.month, b.month))
  }

  function Worst(months: seq<Closing>): (c: Closing)
    requires months != []
    ensures c in months && forall i :: 0 <= i < |months| ==> !Worse(months[i], c)
  {
    if |months| == 1 then months[0]
    else
      var n := |months| - 1;
      var before := Worst(months[..n]);
      assert forall i :: 0 <= i < n ==> months[i] == months[..n][i];
      if Worse(months[n], before) then months[n] else before
  }

  function FirstNegative(months: seq<Closing>): (r: Option<Date>)
    ensures r.None? <==> forall i :: 0 <= i < |months| ==> months[i].unrestricted >= 0
    ensures r.Some? ==> exists i :: 0 <= i < |months| && months[i].month == r.value && months[i].unrestricted < 0
                                    && forall j :: 0 <= j < i ==> months[j].unrestricted >= 0
  {
    if months == [] then None
    else
      var n := |months| - 1;
      var before := FirstNegative(months[..n]);
      assert forall i :: 0 <= i < n ==> months[i] == months[..n][i];
      if before.Some? then before
      else if months[n].unrestricted < 0 then
        assert months[n].unrestricted < 0 && forall j :: 0 <= j < n ==> months[..n][j].unrestricted >= 0;
        Some(months[n].month)
      else None
  }

  /** A month of the horizon: the one of the cutoff, the one of the end, or between. */
  predicate Inside(month: Date, asOf: Date, end: Date) {
    !Before(month, Ymd(asOf.year, asOf.month, 1)) && !Before(Ymd(end.year, end.month, 1), month)
  }

  /** Inside, and before every other month inside that closes as low. */
  ghost predicate IsLowestInside(c: Closing, projected: seq<Closing>, asOf: Date, end: Date) {
    && c in projected && Inside(c.month, asOf, end)
    && forall d :: d in projected && Inside(d.month, asOf, end) ==>
         c.unrestricted < d.unrestricted || (c.unrestricted == d.unrestricted && UpTo(c.month, d.month))
  }

  /** The lowest month inside, the earliest of the lowest, and what it is short. */
  ghost predicate LowestInside(h: HorizonPosition, projected: seq<Closing>, asOf: Date, end: Date) {
    exists c :: IsLowestInside(c, projected, asOf, end) && h.lowest == Some(c.unrestricted)
                && h.lowMonth == Some(c.month) && h.peak == Some(if c.unrestricted < 0 then -c.unrestricted else 0)
  }

  /** The first month inside that is short of anything, or none if none is. */
  ghost predicate FirstShortInside(first: Option<Date>, projected: seq<Closing>, asOf: Date, end: Date) {
    match first
    case None => forall d :: d in projected && Inside(d.month, asOf, end) ==> d.unrestricted >= 0
    case Some(month) =>
      exists c :: c in projected && Inside(c.month, asOf, end) && c.month == month && c.unrestricted < 0
                  && forall d :: d in projected && Inside(d.month, asOf, end) && d.unrestricted < 0 ==>
                       UpTo(c.month, d.month)
  }

  ghost predicate ReadsThe(h: HorizonPosition, projected: seq<Closing>, asOf: Date, end: Date) {
    LowestInside(h, projected, asOf, end) && FirstShortInside(h.firstDeficit, projected, asOf, end)
  }

  lemma InsideIsInHorizon(c: Closing, asOf: Date, end: Date)
    ensures Inside(c.month, asOf, end) <==> InHorizon(asOf, end)(c)
  {
    hide IsLeap, DaysIn;
  }

  lemma FirstLowestIsLow(months: seq<Closing>, i: nat)
    requires Chronological(months) && IsFirstLowest(months, i)
    ensures months[i] in months
    ensures forall d :: d in months ==>
              || months[i].unrestricted < d.unrestricted
              || (months[i].unrestricted == d.unrestricted && UpTo(months[i].month, d.month))
  {
    hide IsLeap, DaysIn;
    forall d | d in months
      ensures || months[i].unrestricted < d.unrestricted
              || (months[i].unrestricted == d.unrestricted && UpTo(months[i].month, d.month))
    {
      var j :| 0 <= j < |months| && months[j] == d;
      assert i < j ==> Before(months[i].month, months[j].month);
    }
  }

  lemma FirstShortIsFirst(months: seq<Closing>)
    requires Chronological(months) && FirstNegative(months).Some?
    ensures exists c :: c in months && c.month == FirstNegative(months).value && c.unrestricted < 0
                        && forall d :: d in months && d.unrestricted < 0 ==> UpTo(c.month, d.month)
  {
    hide FirstNegative, IsLeap, DaysIn;
    var k :| 0 <= k < |months| && months[k].month == FirstNegative(months).value && months[k].unrestricted < 0
             && forall j :: 0 <= j < k ==> months[j].unrestricted >= 0;
    forall d | d in months && d.unrestricted < 0 ensures UpTo(months[k].month, d.month) {
      var j :| 0 <= j < |months| && months[j] == d;
      assert k < j ==> Before(months[k].month, months[j].month);
    }
    assert months[k] in months;
  }

  lemma NoneShort(months: seq<Closing>)
    requires FirstNegative(months).None?
    ensures forall d :: d in months ==> d.unrestricted >= 0
  {
    hide FirstNegative, IsLeap, DaysIn;
  }

  lemma MonthsInside(projected: seq<Closing>, asOf: Date, end: Date)
    ensures forall c :: c in Filter(projected, InHorizon(asOf, end)) <==> c in projected && Inside(c.month, asOf, end)
  {
    hide InHorizon, Inside, IsLeap, DaysIn;
    forall c: Closing
      ensures c in Filter(projected, InHorizon(asOf, end)) <==> c in projected && Inside(c.month, asOf, end)
    {
      InsideIsInHorizon(c, asOf, end);
    }
  }

  lemma LowIsRead(h: HorizonPosition, months: seq<Closing>) returns (i: nat)
    requires ReadsLow(h, months)
    ensures i < |months| && IsFirstLowest(months, i)
    ensures var c := months[i];
            && h.lowest == Some(c.unrestricted) && h.lowMonth == Some(c.month)
            && h.peak == Some(if c.unrestricted < 0 then -c.unrestricted else 0)
  {
    hide FirstNegative, IsLeap, DaysIn;
    i :| IsFirstLowest(months, i) && h.lowest == Some(months[i].unrestricted)
         && h.lowMonth == Some(months[i].month) && h.peak == Some(Bridge.FundingGap(months[i].unrestricted));
  }

  lemma FirstLowestIsInside(months: seq<Closing>, i: nat, projected: seq<Closing>, asOf: Date, end: Date)
    requires i < |months| && Chronological(months) && IsFirstLowest(months, i)
    requires forall c :: c in months <==> c in projected && Inside(c.month, asOf, end)
    ensures IsLowestInside(months[i], projected, asOf, end)
  {
    hide Inside, IsLeap, DaysIn, Chronological, IsFirstLowest, UpTo;
    FirstLowestIsLow(months, i);
  }

  lemma TheLowestIsInside(h: HorizonPosition, projected: seq<Closing>, asOf: Date, end: Date)
    requires Chronological(projected) && ReadsLow(h, Filter(projected, InHorizon(asOf, end)))
    ensures LowestInside(h, projected, asOf, end)
  {
    hide FirstNegative, InHorizon, Inside, IsLeap, DaysIn, Chronological, Filter, ReadsLow, IsFirstLowest,
         IsLowestInside;
    var months := Filter(projected, InHorizon(asOf, end));
    FilterKeepsOrder(projected, InHorizon(asOf, end));
    MonthsInside(projected, asOf, end);
    var i := LowIsRead(h, months);
    FirstLowestIsInside(months, i, projected, asOf, end);
  }

  lemma TheFirstShortIsInside(projected: seq<Closing>, asOf: Date, end: Date)
    requires Chronological(projected)
    ensures FirstShortInside(FirstNegative(Filter(projected, InHorizon(asOf, end))), projected, asOf, end)
  {
    hide FirstNegative, InHorizon, Inside, IsLeap, DaysIn, Chronological, UpTo, Filter;
    var months := Filter(projected, InHorizon(asOf, end));
    FilterKeepsOrder(projected, InHorizon(asOf, end));
    MonthsInside(projected, asOf, end);
    if FirstNegative(months).Some? { FirstShortIsFirst(months); } else { NoneShort(months); }
  }

  lemma TheLowIsOfTheHorizon(h: HorizonPosition, projected: seq<Closing>, asOf: Date, end: Date)
    requires Chronological(projected) && ReadsLow(h, Filter(projected, InHorizon(asOf, end)))
    ensures ReadsThe(h, projected, asOf, end)
  {
    hide FirstNegative, InHorizon, IsLeap, DaysIn, Chronological, LowestInside, FirstShortInside, Filter;
    TheLowestIsInside(h, projected, asOf, end);
    TheFirstShortIsInside(projected, asOf, end);
  }

  /** The horizon's own scan: its low month, first month short, and the peak the calculator states. */
  method ReadHorizon(projected: seq<Closing>, refused: bool, forecastEnd: Date, asOf: Date, end: Date)
    returns (h: HorizonPosition)
    requires Chronological(projected)
    ensures h.availability == Unavailable <==> refused || forall c :: c in projected ==> !Inside(c.month, asOf, end)
    ensures h.availability == Unavailable ==> h == HorizonPosition(None, None, None, None, Unavailable)
    ensures h.availability != Unavailable ==>
              && (h.availability == Partial <==> Before(forecastEnd, Ymd(end.year, end.month, 1)))
              && ReadsLow(h, Filter(projected, InHorizon(asOf, end)))
              && ReadsThe(h, projected, asOf, end)
  {
    hide IsPeak, ReadsLow, ReadsThe, Inside, InHorizon, Chronological, IsLeap, DaysIn;
    if refused {
      return HorizonPosition(None, None, None, None, Unavailable);
    }
    var months := Filter(projected, InHorizon(asOf, end));
    forall c: Closing ensures Inside(c.month, asOf, end) <==> InHorizon(asOf, end)(c) {
      InsideIsInHorizon(c, asOf, end);
    }
    if months == [] {
      return HorizonPosition(None, None, None, None, Unavailable);
    }
    assert months[0] in projected && InHorizon(asOf, end)(months[0]);
    FilterKeepsOrder(projected, InHorizon(asOf, end));
    var low := Worst(months);
    var peak := PeakDeficit(months);
    h := HorizonPosition(Some(low.unrestricted), Some(low.month), FirstNegative(months), Some(peak.deficit),
                         if Before(forecastEnd, MonthOf(end)) then Partial else Available);
    TheLowIsRead(h, months, peak);
    TheLowIsOfTheHorizon(h, projected, asOf, end);
  }

  /** Low point and peak are those of the first lowest month, and there is a peak exactly when some month is short. */
  ghost predicate ReadsLow(h: HorizonPosition, months: seq<Closing>) {
    && (exists i: int ::
          && IsFirstLowest(months, i) && h.lowest == Some(months[i].unrestricted) && h.lowMonth == Some(months[i].month)
          && h.peak == Some(Bridge.FundingGap(months[i].unrestricted)))
    && h.firstDeficit == FirstNegative(months)
    && (h.peak.Some? && h.peak.value > 0 <==> h.firstDeficit.Some?)
  }

  lemma TheLowIsRead(h: HorizonPosition, months: seq<Closing>, peak: Peak)
    requires months != [] && Chronological(months) && IsPeak(peak, months)
    requires h.lowest == Some(Worst(months).unrestricted) && h.lowMonth == Some(Worst(months).month)
    requires h.peak == Some(peak.deficit) && h.firstDeficit == FirstNegative(months)
    ensures ReadsLow(h, months)
  {
    hide IsLeap, DaysIn;
    var i: int :| IsFirstLowest(months, i) && peak.minimum == months[i].unrestricted
                  && peak.deficit == Bridge.FundingGap(peak.minimum)
                  && peak.month == if peak.deficit > 0 then Some(months[i].month) else None;
    assert IsFirstLowest(months, i) && h.lowest == Some(months[i].unrestricted) && h.lowMonth == Some(months[i].month)
           && h.peak == Some(Bridge.FundingGap(months[i].unrestricted));
  }

  lemma {:induction false} FilterKeepsOrder(months: seq<Closing>, p: Closing -> bool)
    requires Chronological(months)
    ensures Chronological(Filter(months, p))
  {
    if months != [] {
      var n := |months| - 1;
      FilterKeepsOrder(months[..n], p);
      var kept := Filter(months[..n], p);
      forall i | 0 <= i < |kept| ensures Before(kept[i].month, months[n].month) {
        assert kept[i] in months[..n];
        var j :| 0 <= j < n && months[..n][j] == kept[i];
        assert months[j] == kept[i];
      }
    }
  }

  /** The batch's low month and peak are the owner's minimum, deficit and deficit month. */
  lemma HorizonAgreesWithPeak(months: seq<Closing>, p: Peak, h: HorizonPosition)
    requires months != [] && IsPeak(p, months) && ReadsLow(h, months)
    ensures h.lowest == Some(p.minimum) && h.peak == Some(p.deficit)
    ensures p.deficit > 0 ==> h.lowMonth == p.month
    ensures p.month.Some? <==> h.firstDeficit.Some?
  {
    hide FirstNegative, IsLeap, DaysIn;
    var i: int :| IsFirstLowest(months, i) && p.minimum == months[i].unrestricted
                  && p.deficit == Bridge.FundingGap(p.minimum)
                  && p.month == if p.deficit > 0 then Some(months[i].month) else None;
    var j: int :| IsFirstLowest(months, j) && h.lowest == Some(months[j].unrestricted)
        && h.lowMonth == Some(months[j].month)
                  && h.peak == Some(Bridge.FundingGap(months[j].unrestricted));
    assert i == j;
  }
}
