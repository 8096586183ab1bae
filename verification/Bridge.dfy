/** The monthly cash bridge and the cash actually in hand. */
module Bridge {
  import opened Calendar
  import opened Standing
  import opened Sums
  import opened CashModel

  const Amount: SourceRow -> int := (row: SourceRow) => row.amount

  // ---------------------------------------------------------------- the columns of a month

  datatype Column =
    | CustomerActual | CustomerForecast | FinancingInActual | FinancingInForecast
    | Refunds | ConstructionActual | ConstructionForecast | DevelopmentActual | DevelopmentForecast
    | FinancingOutActual | FinancingOutForecast

  /** Which rows a column adds up. */
  predicate Belongs(column: Column, row: SourceRow) {
    match column
    case CustomerActual => row.source == ReceiptSource && row.basis == Actual
    case CustomerForecast =>
      row.basis == Forecast
      && (row.source == ScheduleSource || (row.source == ForecastLineSource && row.category == CustomerCollection))
    case FinancingInActual => row.source == FinancingMovementSource && row.basis == Actual && row.direction == Inflow
    case FinancingInForecast => ForecastLineOf(row, Inflow) && row.category.Financing?
    case Refunds => row.source == RefundSource && row.basis == Actual
    case ConstructionActual => row.source == ConstructionPaymentSource && row.basis == Actual
    case ConstructionForecast => ForecastLineOf(row, Outflow) && row.category == Construction
    case DevelopmentActual => row.source == DevelopmentMovementSource && row.basis == Actual
    case DevelopmentForecast => ForecastLineOf(row, Outflow) && row.category.Development?
    case FinancingOutActual => row.source == FinancingMovementSource && row.basis == Actual && row.direction == Outflow
    case FinancingOutForecast => ForecastLineOf(row, Outflow) && row.category.Financing?
  }

  predicate ForecastLineOf(row: SourceRow, direction: Direction) {
    row.source == ForecastLineSource && row.basis == Forecast && row.direction == direction
  }

  predicate IsInflow(column: Column) {
    column.CustomerActual? || column.CustomerForecast? || column.FinancingInActual? || column.FinancingInForecast?
  }

  function In(column: Column): SourceRow -> bool {
    row => Belongs(column, row)
  }

  function ColumnTotal(rows: seq<SourceRow>, column: Column): int {
    Sum(Filter(rows, In(column)), Amount)
  }

  function TotalInflows(rows: seq<SourceRow>): int {
    ColumnTotal(rows, CustomerActual) + ColumnTotal(rows, CustomerForecast)
    + ColumnTotal(rows, FinancingInActual) + ColumnTotal(rows, FinancingInForecast)
  }

  function TotalOutflows(rows: seq<SourceRow>): int {
    ColumnTotal(rows, Refunds) + ColumnTotal(rows, ConstructionActual) + ColumnTotal(rows, ConstructionForecast)
    + ColumnTotal(rows, DevelopmentActual) + ColumnTotal(rows, DevelopmentForecast)
    + ColumnTotal(rows, FinancingOutActual) + ColumnTotal(rows, FinancingOutForecast)
  }

  /** No row is added up twice. */
  lemma ColumnsAreDisjoint(a: Column, b: Column, row: SourceRow)
    requires Belongs(a, row) && Belongs(b, row)
    ensures a == b
  {
  }

  function ColumnOf(row: SourceRow): Column {
    match row.source
    case ReceiptSource => CustomerActual
    case RefundSource => Refunds
    case ConstructionPaymentSource => ConstructionActual
    case DevelopmentMovementSource => DevelopmentActual
    case FinancingMovementSource => if row.direction == Inflow then FinancingInActual else FinancingOutActual
    case ForecastLineSource =>
      (match row.category
       case Construction => ConstructionForecast
       case Development(_) => DevelopmentForecast
       case Financing(_) => if row.direction == Inflow then FinancingInForecast else FinancingOutForecast
       case _ => CustomerForecast)
    case _ => CustomerForecast
  }

  /** No cash row is left out, and each is added on the side its cash moved. */
  lemma EveryCashRowHasAColumn(row: SourceRow)
    requires WellFormed(row) && row.basis != Scheduled
    ensures (exists column :: Belongs(column, row)) <==> row.source != RestrictionSource && row.source != ReleaseSource
    ensures forall column :: Belongs(column, row) ==> (IsInflow(column) <==> row.direction == Inflow)
  {
    if row.source != RestrictionSource && row.source != ReleaseSource {
      assert Belongs(ColumnOf(row), row);
    }
  }

  function Part(column: Column): SourceRow -> int {
    Where(In(column), Amount)
  }

  lemma PartsMakeTheCashEffect(row: SourceRow)
    requires WellFormed(row) && row.basis != Scheduled
    ensures Part(CustomerActual)(row) + Part(CustomerForecast)(row) + Part(FinancingInActual)(row)
            + Part(FinancingInForecast)(row)
            - (Part(Refunds)(row) + Part(ConstructionActual)(row) + Part(ConstructionForecast)(row)
               + Part(DevelopmentActual)(row) + Part(DevelopmentForecast)(row)
               + Part(FinancingOutActual)(row) + Part(FinancingOutForecast)(row))
            == CashEffect(row)
  {
  }

  /** A month's inflows less its outflows are its rows' signed cash: every row once, on its own side. */
  lemma {:induction false} ColumnsPartition(rows: seq<SourceRow>)
    requires forall row :: row in rows ==> WellFormed(row) && row.basis != Scheduled
    ensures TotalInflows(rows) - TotalOutflows(rows) == Sum(rows, CashEffect)
  {
    if rows != [] {
      var n := |rows| - 1;
      assert rows[n] in rows;
      forall row | row in rows[..n] ensures WellFormed(row) && row.basis != Scheduled { assert row in rows; }
      ColumnsPartition(rows[..n]);
      PartsMakeTheCashEffect(rows[n]);
      ColumnGrows(rows, CustomerActual); ColumnGrows(rows, CustomerForecast);
      ColumnGrows(rows, FinancingInActual); ColumnGrows(rows, FinancingInForecast);
      ColumnGrows(rows, Refunds); ColumnGrows(rows, ConstructionActual); ColumnGrows(rows, ConstructionForecast);
      ColumnGrows(rows, DevelopmentActual); ColumnGrows(rows, DevelopmentForecast);
      ColumnGrows(rows, FinancingOutActual); ColumnGrows(rows, FinancingOutForecast);
    }
  }

  lemma ColumnGrows(rows: seq<SourceRow>, column: Column)
    requires rows != []
    ensures ColumnTotal(rows, column) == ColumnTotal(rows[..|rows| - 1], column) + Part(column)(rows[|rows| - 1])
  {
    SumFiltered(rows, In(column), Amount);
    SumFiltered(rows[..|rows| - 1], In(column), Amount);
  }

  // ---------------------------------------------------------------- one month

  datatype PeriodState = Closed | Current | Future

  function StateOf(month: Date, asOf: Date): PeriodState {
    if Before(month, MonthOf(asOf)) then Closed
    else if month == MonthOf(asOf) then Current else Future
  }

  datatype MonthlyPosition = MonthlyPosition(
    period: Date, state: PeriodState,
    openingTotal: int, customerScheduledDue: int, customerActual: int, customerForecast: int,
    financingInActual: int, financingInForecast: int, developmentActual: int, developmentForecast: int,
    constructionActual: int, constructionForecast: int, refunds: int,
    financingOutActual: int, financingOutForecast: int,
    totalInflows: int, totalOutflows: int, net: int, closingTotal: int,
    openingRestricted: int, newlyRestricted: int, released: int, closingRestricted: int,
    openingUnrestricted: int, usableInflows: int, unrestrictedOutflows: int, closingUnrestricted: int,
    fundingGap: int)

  function FundingGap(closingUnrestricted: int): int {
    if closingUnrestricted < 0 then -closingUnrestricted else 0
  }

  const IsScheduledInstalment: SourceRow -> bool := (row: SourceRow) =>
      row.source == ScheduleSource && row.basis == Scheduled
  const IsRestriction: SourceRow -> bool := (row: SourceRow) => row.source == RestrictionSource
  const IsRelease: SourceRow -> bool := (row: SourceRow) => row.source == ReleaseSource

  function Counted(asOf: Date): SourceRow -> bool {
    row => CountsAsCash(row, asOf)
  }

  /** One month of the bridge from the rows of that month and what it opens with. */
  function PositionOf(month: Date, allRows: seq<SourceRow>, asOf: Date, openingTotal: int,
          openingRestricted: int): MonthlyPosition {
    var rows := Filter(allRows, Counted(asOf));
    var inflows, outflows := TotalInflows(rows), TotalOutflows(rows);
    var restricted, released := Sum(Filter(rows, IsRestriction), Amount), Sum(Filter(rows, IsRelease), Amount);
    var closingTotal, closingRestricted :=
        openingTotal + (inflows - outflows), openingRestricted + restricted - released;
    MonthlyPosition(
      month, StateOf(month, asOf), openingTotal,
      Sum(Filter(allRows, IsScheduledInstalment), Amount),
      ColumnTotal(rows, CustomerActual), ColumnTotal(rows, CustomerForecast),
      ColumnTotal(rows, FinancingInActual), ColumnTotal(rows, FinancingInForecast),
      ColumnTotal(rows, DevelopmentActual), ColumnTotal(rows, DevelopmentForecast),
      ColumnTotal(rows, ConstructionActual), ColumnTotal(rows, ConstructionForecast),
      ColumnTotal(rows, Refunds),
      ColumnTotal(rows, FinancingOutActual), ColumnTotal(rows, FinancingOutForecast),
      inflows, outflows, inflows - outflows, closingTotal,
      openingRestricted, restricted, released, closingRestricted,
      openingTotal - openingRestricted, inflows - restricted + released, outflows, closingTotal - closingRestricted,
      FundingGap(closingTotal - closingRestricted))
  }

  // ---------------------------------------------------------------- balances in closed form

  function OfMonth(month: Date): SourceRow -> bool {
    (row: SourceRow) => row.period == month
  }

  function RowsOf(rows: seq<SourceRow>, month: Date): seq<SourceRow> {
    Filter(rows, OfMonth(month))
  }

  /** What a row does to a balance, if it is cash of a month from `from` up to, but not in, `month`. */
  function BeforeMonth(effect: SourceRow -> int, from: Date, month: Date, asOf: Date): SourceRow -> int {
    (row: SourceRow) =>
        if CountsAsCash(row, asOf) && UpTo(from, row.period) && Before(row.period, month) then effect(row) else 0
  }

  /** The same, the month itself included. */
  function ThroughMonth(effect: SourceRow -> int, from: Date, month: Date, asOf: Date): SourceRow -> int {
    (row: SourceRow) =>
        if CountsAsCash(row, asOf) && UpTo(from, row.period) && UpTo(row.period, month) then effect(row) else 0
  }

  function DuringMonth(effect: SourceRow -> int, month: Date, asOf: Date): SourceRow -> int {
    Where(OfMonth(month), Where(Counted(asOf), effect))
  }

  /** A month's own cash is what carries a balance from its opening to its closing. */
  lemma MonthCarries(rows: seq<SourceRow>, effect: SourceRow -> int, from: Date, month: Date, asOf: Date)
    requires UpTo(from, month)
    ensures Sum(rows, ThroughMonth(effect, from, month, asOf))
            == Sum(rows, BeforeMonth(effect, from, month, asOf))
                + Sum(Filter(RowsOf(rows, month), Counted(asOf)), effect)
  {
    forall row | row in rows
      ensures ThroughMonth(effect, from, month, asOf)(row)
              == BeforeMonth(effect, from, month, asOf)(row) + DuringMonth(effect, month, asOf)(row)
    {
      if row.period.Key() == month.Key() { KeyDetermines(row.period, month); }
    }
    SumPlus(rows, BeforeMonth(effect, from, month, asOf), DuringMonth(effect, month, asOf),
            ThroughMonth(effect, from, month, asOf));
    SumFiltered(RowsOf(rows, month), Counted(asOf), effect);
    SumFiltered(rows, OfMonth(month), Where(Counted(asOf), effect));
  }

  /** Up to but not in the next month is up to and in this one, for rows that fall in canonical months. */
  lemma NextMonthOpensAtTheClose(rows: seq<SourceRow>, effect: SourceRow -> int, from: Date, month: Date, asOf: Date)
    requires Canonical(month) && forall row :: row in rows ==> Canonical(row.period)
    ensures Sum(rows, BeforeMonth(effect, from, NextMonth(month), asOf))
            == Sum(rows, ThroughMonth(effect, from, month, asOf))
  {
    hide Before, UpTo, NextMonth, Sum;
    forall row | row in rows
      ensures BeforeMonth(effect, from, NextMonth(month), asOf)(row) == ThroughMonth(effect, from, month, asOf)(row)
    {
      NextMonthIsNext(row.period, month);
    }
    SumCongruent(rows, BeforeMonth(effect, from, NextMonth(month), asOf), ThroughMonth(effect, from, month, asOf));
  }

  lemma NothingBeforeTheStart(rows: seq<SourceRow>, effect: SourceRow -> int, from: Date, asOf: Date)
    ensures Sum(rows, BeforeMonth(effect, from, from, asOf)) == 0
  {
    SumZero(rows, BeforeMonth(effect, from, from, asOf));
  }

  /** What a month of a bridge from `start` opens with, in closed form. */
  function OpensWith(rows: seq<SourceRow>, version: Option<Version>, asOf: Date, start: Date, month: Date): (int, int) {
    (OpeningTotal(version) + Sum(rows, BeforeMonth(CashEffect, start, month, asOf)),
     OpeningRestricted(version) + Sum(rows, BeforeMonth(HeldEffect, start, month, asOf)))
  }

  /** The position of a month with both its openings in closed form. */
  function PositionAt(rows: seq<SourceRow>, version: Option<Version>, asOf: Date, start: Date,
          month: Date): (p: MonthlyPosition)
    ensures (p.openingTotal, p.openingRestricted) == OpensWith(rows, version, asOf, start, month)
  {
    var opening := OpensWith(rows, version, asOf, start, month);
    PositionOf(month, RowsOf(rows, month), asOf, opening.0, opening.1)
  }

  lemma HeldIsRestrictedLessReleased(rows: seq<SourceRow>)
    ensures Sum(Filter(rows, IsRestriction), Amount) - Sum(Filter(rows, IsRelease), Amount) == Sum(rows, HeldEffect)
  {
    SumFiltered(rows, IsRestriction, Amount);
    SumFiltered(rows, IsRelease, Amount);
    SumPlus(rows, HeldEffect, Where(IsRelease, Amount), Where(IsRestriction, Amount));
  }

  /**
   * The bridge telescopes: a month closes on the opening balance and every row of cash from the
   * start up to it, each counted once; the restricted and the spendable part likewise.
   */
  lemma BridgeTelescopes(rows: seq<SourceRow>, version: Option<Version>, asOf: Date, start: Date, month: Date)
    requires AllWellFormed(rows) && UpTo(start, month)
    ensures var p := PositionAt(rows, version, asOf, start, month);
            && p.closingTotal == OpeningTotal(version) + Sum(rows, ThroughMonth(CashEffect, start, month, asOf))
            && p.closingRestricted
                  == OpeningRestricted(version) + Sum(rows, ThroughMonth(HeldEffect, start, month, asOf))
            && p.closingUnrestricted == OpeningTotal(version) - OpeningRestricted(version)
                                        + Sum(rows, ThroughMonth(UsableEffect, start, month, asOf))
            && p.fundingGap == FundingGap(p.closingUnrestricted)
  {
    var mine := Filter(RowsOf(rows, month), Counted(asOf));
    ColumnsPartition(mine);
    HeldIsRestrictedLessReleased(mine);
    MonthCarries(rows, CashEffect, start, month, asOf);
    MonthCarries(rows, HeldEffect, start, month, asOf);
    SumPlus(rows, ThroughMonth(UsableEffect, start, month, asOf), ThroughMonth(HeldEffect, start, month, asOf),
            ThroughMonth(CashEffect, start, month, asOf));
  }

  /** Both balances carry over: the next month's openings are this month's closings. */
  lemma MonthOpensWhereTheLastClosed(rows: seq<SourceRow>, version: Option<Version>, asOf: Date, start: Date,
          month: Date)
    requires AllWellFormed(rows) && Canonical(month) && UpTo(start, month)
    ensures var p := PositionAt(rows, version, asOf, start, month);
            OpensWith(rows, version, asOf, start, NextMonth(month)) == (p.closingTotal, p.closingRestricted)
  {
    hide Sum, Filter, PositionOf, NextMonth, UpTo, Before, IsLeap;
    BridgeTelescopes(rows, version, asOf, start, month);
    NextMonthOpensAtTheClose(rows, CashEffect, start, month, asOf);
    NextMonthOpensAtTheClose(rows, HeldEffect, start, month, asOf);
  }

  // ---------------------------------------------------------------- the procedure

  datatype BridgeResult =
    | Positions(positions: seq<MonthlyPosition>)
    | BeforeTheAnchor
    | HorizonReversed
    | NegativeEscrow(month: Date)

  function EarliestPeriod(rows: seq<SourceRow>, default: Date): (d: Date)
    ensures rows == [] ==> d == default
    ensures rows != [] ==> exists i :: 0 <= i < |rows| && rows[i].period == d
    ensures forall i :: 0 <= i < |rows| ==> UpTo(d, rows[i].period)
  {
    if |rows| == 0 then default
    else if |rows| == 1 then rows[0].period
    else
      var d := EarliestPeriod(rows[..|rows| - 1], default);
      var last := rows[|rows| - 1].period;
      assert forall i :: 0 <= i < |rows| - 1 ==> rows[..|rows| - 1][i] == rows[i];
      if Before(last, d) then last else d
  }

  function LatestPeriod(rows: seq<SourceRow>, default: Date): (d: Date)
    ensures rows == [] ==> d == default
    ensures rows != [] ==> exists i :: 0 <= i < |rows| && rows[i].period == d
    ensures forall i :: 0 <= i < |rows| ==> UpTo(rows[i].period, d)
  {
    if |rows| == 0 then default
    else if |rows| == 1 then rows[0].period
    else
      var d := LatestPeriod(rows[..|rows| - 1], default);
      var last := rows[|rows| - 1].period;
      assert forall i :: 0 <= i < |rows| - 1 ==> rows[..|rows| - 1][i] == rows[i];
      if Before(d, last) then last else d
  }

  function StartMonth(rows: seq<SourceRow>, version: Option<Version>, asOf: Date, asked: Option<Date>): Date {
    if asked.Some? then MonthOf(asked.value)
    else if version.Some? then version.value.startMonth
    else EarliestPeriod(rows, MonthOf(asOf))
  }

  function EndMonth(rows: seq<SourceRow>, version: Option<Version>, asOf: Date, start: Date,
          asked: Option<Date>): Date {
    if asked.Some? then MonthOf(asked.value)
    else
      var end := if version.Some? then version.value.endMonth else MonthOf(asOf);
      Latest(Latest(end, LatestPeriod(rows, end)), start)
  }

  /** Whether a series asked for would begin before its opening balance is stated. */
  predicate BeginsBeforeAnchor(version: Option<Version>, asked: Option<Date>) {
    asked.Some? && version.Some? && Before(MonthOf(asked.value), version.value.startMonth)
  }

  ghost predicate CanonicalBounds(version: Option<Version>) {
    version.Some? ==> Canonical(version.value.startMonth) && Canonical(version.value.endMonth)
  }

  /** The rows of each month, grouped in one pass. */
  method GroupByMonth(rows: seq<SourceRow>) returns (byMonth: map<Date, seq<SourceRow>>)
    ensures forall month :: (if month in byMonth then byMonth[month] else []) == RowsOf(rows, month)
  {
    byMonth := map[];
    for i := 0 to |rows|
      invariant forall month :: (if month in byMonth then byMonth[month] else []) == RowsOf(rows[..i], month)
    {
      var month := rows[i].period;
      var sofar := if month in byMonth then byMonth[month] else [];
      byMonth := byMonth[month := sofar + [rows[i]]];
      assert rows[..i + 1][..i] == rows[..i];
    }
    assert rows[..|rows|] == rows;
  }

  /** Dropping the rows before the start changes no month from the start on. */
  lemma {:induction false} RowsFromTheStart(rows: seq<SourceRow>, start: Date, month: Date)
    requires UpTo(start, month)
    ensures RowsOf(Filter(rows, From(start)), month) == RowsOf(rows, month)
  {
    if rows != [] {
      RowsFromTheStart(rows[..|rows| - 1], start, month);
      if From(start)(rows[|rows| - 1]) {
        var kept := Filter(rows[..|rows| - 1], From(start));
        assert (kept + [rows[|rows| - 1]])[..|kept|] == kept;
      }
    }
  }

  function From(start: Date): SourceRow -> bool {
    (row: SourceRow) => UpTo(start, row.period)
  }

  /** Positions of the first months, each as in closed form and none with a negative escrow. */
  ghost predicate PositionsSoFar(positions: seq<MonthlyPosition>, months: seq<Date>, rows: seq<SourceRow>,
          version: Option<Version>, asOf: Date, start: Date) {
    && |positions| <= |months|
    && forall k :: 0 <= k < |positions| ==>
         positions[k] == PositionAt(rows, version, asOf, start, months[k]) && positions[k].closingRestricted >= 0
  }

  /** The first of the months to close with negative escrow. */
  ghost predicate FirstOverdrawn(month: Date, months: seq<Date>, rows: seq<SourceRow>, version: Option<Version>,
          asOf: Date, start: Date) {
    exists k :: 0 <= k < |months| && months[k] == month
      && PositionAt(rows, version, asOf, start, months[k]).closingRestricted < 0
      && forall j :: 0 <= j < k ==> PositionAt(rows, version, asOf, start, months[j]).closingRestricted >= 0
  }

  lemma OverdrawnNext(positions: seq<MonthlyPosition>, months: seq<Date>, rows: seq<SourceRow>,
          version: Option<Version>, asOf: Date, start: Date)
    requires PositionsSoFar(positions, months, rows, version, asOf, start) && |positions| < |months|
    requires PositionAt(rows, version, asOf, start, months[|positions|]).closingRestricted < 0
    ensures FirstOverdrawn(months[|positions|], months, rows, version, asOf, start)
  {
    hide PositionAt, IsLeap, DaysIn;
  }

  lemma OpensAtTheStart(rows: seq<SourceRow>, version: Option<Version>, asOf: Date, start: Date, months: seq<Date>)
    ensures (OpeningTotal(version), OpeningRestricted(version)) == OpensWith(rows, version, asOf, start, start)
    ensures PositionsSoFar([], months, rows, version, asOf, start)
  {
    NothingBeforeTheStart(rows, CashEffect, start, asOf);
    NothingBeforeTheStart(rows, HeldEffect, start, asOf);
  }

  lemma OpenedRight(rows: seq<SourceRow>, version: Option<Version>, asOf: Date, start: Date, month: Date, total: int,
          restricted: int)
    requires (total, restricted) == OpensWith(rows, version, asOf, start, month)
    ensures PositionOf(month, RowsOf(rows, month), asOf, total, restricted)
            == PositionAt(rows, version, asOf, start, month)
  {
  }

  lemma OneMorePosition(positions: seq<MonthlyPosition>, position: MonthlyPosition, months: seq<Date>,
          rows: seq<SourceRow>, version: Option<Version>, asOf: Date, start: Date)
    requires PositionsSoFar(positions, months, rows, version, asOf, start) && |positions| < |months|
    requires position == PositionAt(rows, version, asOf, start, months[|positions|]) && position.closingRestricted >= 0
    ensures PositionsSoFar(positions + [position], months, rows, version, asOf, start)
  {
    hide PositionAt, IsLeap;
  }

  /** The month-by-month loop, carrying both balances, refusing to report a negative escrow. */
  method WalkMonths(rows: seq<SourceRow>, byMonth: map<Date, seq<SourceRow>>, version: Option<Version>, asOf: Date,
          start: Date, months: seq<Date>)
    returns (r: BridgeResult)
    requires AllWellFormed(rows) && months != [] && months[0] == start
    requires forall k :: 0 <= k < |months| ==>
               && Canonical(months[k]) && UpTo(start, months[k])
               && (if months[k] in byMonth then byMonth[months[k]] else []) == RowsOf(rows, months[k])
    requires forall k :: 0 <= k < |months| - 1 ==> months[k + 1] == NextMonth(months[k])
    ensures r.Positions? || r.NegativeEscrow?
    ensures r.NegativeEscrow? ==> FirstOverdrawn(r.month, months, rows, version, asOf, start)
    ensures r.Positions? ==>
              |r.positions| == |months| && PositionsSoFar(r.positions, months, rows, version, asOf, start)
  {
    hide OpeningTotal, OpeningRestricted, Sum, Filter, AllWellFormed, PositionAt, PositionOf, PositionsSoFar,
         FirstOverdrawn, OpensWith, RowsOf, IsLeap;
    var openingTotal, openingRestricted := OpeningTotal(version), OpeningRestricted(version);
    var positions: seq<MonthlyPosition> := [];
    OpensAtTheStart(rows, version, asOf, start, months);
    for i := 0 to |months|
      invariant |positions| == i && PositionsSoFar(positions, months, rows, version, asOf, start)
      invariant i < |months| ==> (openingTotal, openingRestricted) == OpensWith(rows, version, asOf, start, months[i])
    {
      var month := months[i];
      var mine := if month in byMonth then byMonth[month] else [];
      var position := PositionOf(month, mine, asOf, openingTotal, openingRestricted);
      OpenedRight(rows, version, asOf, start, month, openingTotal, openingRestricted);
      if position.closingRestricted < 0 {
        OverdrawnNext(positions, months, rows, version, asOf, start);
        return NegativeEscrow(month);
      }
      OneMorePosition(positions, position, months, rows, version, asOf, start);
      positions := positions + [position];
      openingTotal, openingRestricted := position.closingTotal, position.closingRestricted;
      MonthOpensWhereTheLastClosed(rows, version, asOf, start, month);
    }
    r := Positions(positions);
  }

  lemma HorizonMonths(rows: seq<SourceRow>, start: Date, end: Date)
    requires Canonical(start) && Canonical(end) && UpTo(start, end)
    ensures var months := Months(start, end);
            && months != [] && months[0] == start
            && (forall k :: 0 <= k < |months| ==>
                  && Canonical(months[k]) && UpTo(start, months[k])
                  && RowsOf(Filter(rows, From(start)), months[k]) == RowsOf(rows, months[k]))
            && (forall k :: 0 <= k < |months| - 1 ==> months[k + 1] == NextMonth(months[k]))
  {
    var months := Months(start, end);
    MonthsHaveNoGaps(start, end);
    forall k | 0 <= k < |months|
      ensures Canonical(months[k]) && UpTo(start, months[k])
      ensures RowsOf(Filter(rows, From(start)), months[k]) == RowsOf(rows, months[k])
    {
      MonthAt(start, end, k);
      RowsFromTheStart(rows, start, months[k]);
    }
  }

  lemma StartAndEndAreCanonical(rows: seq<SourceRow>, version: Option<Version>, asOf: Date, askedStart: Option<Date>,
          askedEnd: Option<Date>)
    requires AllWellFormed(rows) && CanonicalBounds(version)
    ensures var start := StartMonth(rows, version, asOf, askedStart);
            Canonical(start) && Canonical(EndMonth(rows, version, asOf, start, askedEnd))
  {
  }

  method PositionsFromRows(rows: seq<SourceRow>, version: Option<Version>, asOf: Date, askedStart: Option<Date>,
          askedEnd: Option<Date>)
    returns (r: BridgeResult)
    requires AllWellFormed(rows) && CanonicalBounds(version)
    ensures r.BeforeTheAnchor? <==> BeginsBeforeAnchor(version, askedStart)
    ensures var start := StartMonth(rows, version, asOf, askedStart);
            var end := EndMonth(rows, version, asOf, start, askedEnd);
            !r.BeforeTheAnchor? ==>
              && (r.HorizonReversed? <==> Before(end, start))
              && (r.NegativeEscrow? ==> FirstOverdrawn(r.month, Months(start, end), rows, version, asOf, start))
              && (r.Positions? ==>
                    |r.positions| == |Months(start, end)|
                        && PositionsSoFar(r.positions, Months(start, end), rows, version, asOf, start))
  {
    if BeginsBeforeAnchor(version, askedStart) {
      return BeforeTheAnchor;
    }
    hide PositionsSoFar, FirstOverdrawn, PositionAt, StartMonth, EndMonth, Months, AllWellFormed, RowsOf, Filter;
    var start := StartMonth(rows, version, asOf, askedStart);
    var end := EndMonth(rows, version, asOf, start, askedEnd);
    StartAndEndAreCanonical(rows, version, asOf, askedStart, askedEnd);
    var byMonth := GroupByMonth(Filter(rows, From(start)));
    var horizon := MonthsBetween(start, end);
    if horizon.EndsBeforeItStarts? {
      return HorizonReversed;
    }
    assert MonthOf(start) == start && MonthOf(end) == end;
    HorizonMonths(rows, start, end);
    r := WalkMonths(rows, byMonth, version, asOf, start, horizon.months);
  }

  /** The reconciliation's checks of the bridge, month by month and from one month to the next. */
  predicate BridgeReconciles(positions: seq<MonthlyPosition>) {
    && (forall k :: 0 <= k < |positions| ==>
          && positions[k].closingTotal
                == positions[k].openingTotal + positions[k].totalInflows - positions[k].totalOutflows
          && positions[k].closingUnrestricted == positions[k].closingTotal - positions[k].closingRestricted)
    && (forall k :: 1 <= k < |positions| ==> positions[k].openingTotal == positions[k - 1].closingTotal)
  }

  /** Whatever the rows, a bridge that is reported passes its own reconciliation. */
  lemma ReportedBridgeReconciles(positions: seq<MonthlyPosition>, rows: seq<SourceRow>, version: Option<Version>,
          asOf: Date, start: Date, end: Date)
    requires AllWellFormed(rows) && Canonical(start) && Canonical(end) && UpTo(start, end)
    requires PositionsSoFar(positions, Months(start, end), rows, version, asOf, start)
    ensures BridgeReconciles(positions)
  {
    hide IsLeap, DaysIn, Sum, Filter, AllWellFormed, Months, NextMonth, UpTo;
    HorizonMonths(rows, start, end);
    var months := Months(start, end);
    forall k | 1 <= k < |positions| ensures positions[k].openingTotal == positions[k - 1].closingTotal {
      assert months[k - 1 + 1] == NextMonth(months[k - 1]);
      MonthOpensWhereTheLastClosed(rows, version, asOf, start, months[k - 1]);
    }
  }

  // ---------------------------------------------------------------- cash in hand

  datatype CashInHand = CashInHand(total: int, restricted: int, unrestricted: int) | EscrowOverdrawn

  /** Whether a row had happened by the cutoff and is not already inside the opening balance. */
  function HappenedBy(anchor: Option<Date>, asOf: Date): SourceRow -> bool {
    (row: SourceRow) =>
        row.basis == Actual && CountsAsCash(row, asOf) && AtOrAfter(row.period, anchor) && UpTo(row.business, asOf)
  }

  const IsCashIn: SourceRow -> bool := (row: SourceRow) =>
    row.direction == Inflow && row.source != RestrictionSource && row.source != ReleaseSource
  const IsCashOut: SourceRow -> bool := (row: SourceRow) =>
    row.direction == Outflow && row.source != RestrictionSource && row.source != ReleaseSource

  function ActualCashPosition(rows: seq<SourceRow>, version: Option<Version>, asOf: Date): CashInHand {
    var moved := Filter(rows, HappenedBy(OpeningAnchor(version), asOf));
    var total := OpeningTotal(version) + (Sum(Filter(moved, IsCashIn), Amount) - Sum(Filter(moved, IsCashOut), Amount));
    var restricted :=
        OpeningRestricted(version) + Sum(Filter(moved, IsRestriction), Amount) - Sum(Filter(moved, IsRelease), Amount);
    if restricted < 0 then EscrowOverdrawn else CashInHand(total, restricted, total - restricted)
  }

  function Happened(effect: SourceRow -> int, anchor: Option<Date>, asOf: Date): SourceRow -> int {
    Where(HappenedBy(anchor, asOf), effect)
  }

  /** Cash in hand is the opening balance and the signed cash that has happened, split by escrow. */
  lemma CashInHandIsWhatHappened(rows: seq<SourceRow>, version: Option<Version>, asOf: Date)
    ensures var p, anchor := ActualCashPosition(rows, version, asOf), OpeningAnchor(version);
            var restricted := OpeningRestricted(version) + Sum(rows, Happened(HeldEffect, anchor, asOf));
            && (p.EscrowOverdrawn? <==> restricted < 0)
            && (p.CashInHand? ==>
                  && p.total == OpeningTotal(version) + Sum(rows, Happened(CashEffect, anchor, asOf))
                  && p.restricted == restricted
                  && p.unrestricted == OpeningTotal(version) - OpeningRestricted(version)
                                       + Sum(rows, Happened(UsableEffect, anchor, asOf)))
  {
    var anchor := OpeningAnchor(version);
    var test := HappenedBy(anchor, asOf);
    var moved := Filter(rows, test);
    SumFiltered(moved, IsCashIn, Amount);
    SumFiltered(moved, IsCashOut, Amount);
    SumPlus(moved, CashEffect, Where(IsCashOut, Amount), Where(IsCashIn, Amount));
    HeldIsRestrictedLessReleased(moved);
    SumFiltered(rows, test, CashEffect);
    SumFiltered(rows, test, HeldEffect);
    SumPlus(rows, Happened(UsableEffect, anchor, asOf), Happened(HeldEffect, anchor, asOf),
            Happened(CashEffect, anchor, asOf));
  }
}
