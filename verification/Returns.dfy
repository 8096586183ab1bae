/** The project's discounted value and the investor's series, both on the bridge's own basis. */
module Returns {
  import opened Calendar
  import opened Standing
  import opened Sums
  import opened CashModel
  import opened Discounting
  import Bridge
  import F = MonthFigures

  // ---------------------------------------------------------------- discounting to the cent

  /** Half-up to the cent, away from zero on a tie. */
  function ToCents(x: real): (cents: int)
    ensures -0.5 <= cents as real - x <= 0.5
    ensures cents as real - x == 0.5 ==> x > 0.0
    ensures cents as real - x == -0.5 ==> x < 0.0
  {
    if x >= 0.0 then (x + 0.5).Floor else -((-x + 0.5).Floor)
  }

  lemma WholeCentsStay(cents: int)
    ensures ToCents(cents as real) == cents
  {
    if cents >= 0 { HalfMoreFloors(cents); } else { HalfMoreFloors(-cents); }
  }

  lemma HalfMoreFloors(cents: nat)
    ensures (cents as real + 0.5).Floor == cents
  {
  }

  /** Each period's flow discounted and rounded to the cent, then added up. */
  function Discounted(flows: seq<int>, u: real): (cents: int)
    requires u > 0.0
  {
    if flows == [] then 0
    else
      var n := |flows| - 1;
      Discounted(flows[..n], u) + ToCents((flows[n] as real) / Factor(u, n))
  }

  /** Rounding period by period strays by at most half a cent for each period after the first. */
  lemma {:induction false} RoundingStraysByHalfACentAPeriod(flows: seq<int>, u: real)
    requires flows != [] && u > 0.0
    ensures -0.5 * (|flows| - 1) as real <= Discounted(flows, u) as real - PresentValue(flows, u)
            <= 0.5 * (|flows| - 1) as real
  {
    var n := |flows| - 1;
    if n == 0 {
      assert flows[..0] == [];
      FirstIsUndiscounted(flows[0], u);
      WholeCentsStay(flows[0]);
    } else {
      RoundingStraysByHalfACentAPeriod(flows[..n], u);
    }
  }

  /** Each period is rounded by itself: a flow added at the end adds its own discounted cents. */
  lemma EachPeriodRoundsAlone(flows: seq<int>, last: int, u: real)
    requires u > 0.0
    ensures Discounted(flows + [last], u) == Discounted(flows, u) + ToCents(last as real / Factor(u, |flows|))
  {
    assert (flows + [last])[..|flows|] == flows;
  }

  /** At no discount the value is the total, to the cent. */
  lemma {:induction false} NoDiscountIsTheTotal(flows: seq<int>)
    ensures Discounted(flows, 1.0) == Sum(flows, Itself)
  {
    if flows != [] {
      NoDiscountIsTheTotal(flows[..|flows| - 1]);
      FactorOfOne(|flows| - 1);
      WholeCentsStay(flows[|flows| - 1]);
    }
  }

  lemma {:induction false} FactorOfOne(n: nat)
    ensures Factor(1.0, n) == 1.0
  {
    if n > 0 { FactorOfOne(n - 1); }
  }

  /** A rate of minus one hundred percent or less has no factor, and so no value. */
  method NetPresentValue(flows: seq<int>, rate: real) returns (npv: Option<int>)
    ensures npv.None? <==> rate <= -1.0
    ensures npv.Some? ==> npv.value == Discounted(flows, 1.0 + rate)
    ensures npv.Some? && flows != [] ==>
              -0.5 * (|flows| - 1) as real <= npv.value as real - PresentValue(flows, 1.0 + rate)
                  <= 0.5 * (|flows| - 1) as real
  {
    if rate <= -1.0 {
      return None;
    }
    if flows != [] { RoundingStraysByHalfACentAPeriod(flows, 1.0 + rate); }
    npv := Some(Discounted(flows, 1.0 + rate));
  }

  // ---------------------------------------------------------------- the investor's series

  predicate IsEquity(row: SourceRow) {
    || (row.category == Financing(EquityContribution) && row.direction == Inflow)
    || (row.category == Financing(EquityDistribution) && row.direction == Outflow)
  }

  /** The equity the bridge reports: cash by its own rule, in its own months. */
  function EquityIn(months: seq<Date>, asOf: Date): SourceRow -> bool {
    (row: SourceRow) => row.period in months && CountsAsCash(row, asOf) && IsEquity(row)
  }

  function EquityRows(months: seq<Date>, rows: seq<SourceRow>, asOf: Date): seq<SourceRow> {
    Filter(rows, EquityIn(months, asOf))
  }

  /** The investor's sign: contributions negative, distributions positive. */
  const InvestorFlow: SourceRow -> int := (row: SourceRow) =>
    if row.category == Financing(EquityContribution) then -row.amount else row.amount

  const PeriodOf: SourceRow -> Date := (row: SourceRow) => row.period

  /** Equity of a month that is cash at the cutoff: it has moved, or is planned for a month not over by then. */
  predicate EquityMoves(row: SourceRow, kind: FinancingKind, direction: Direction, month: Date, asOf: Date) {
    && row.period == month && row.category == Financing(kind) && row.direction == direction
    && (row.source == FinancingMovementSource || F.Planned(row, month, asOf))
  }

  function PaidIn(month: Date, asOf: Date): SourceRow -> int {
    (row: SourceRow) => if EquityMoves(row, EquityContribution, Inflow, month, asOf) then row.amount else 0
  }

  function PaidOut(month: Date, asOf: Date): SourceRow -> int {
    (row: SourceRow) => if EquityMoves(row, EquityDistribution, Outflow, month, asOf) then row.amount else 0
  }

  lemma EquityRowIsPaid(row: SourceRow, months: seq<Date>, month: Date, asOf: Date)
    requires WellFormed(row) && month in months
    ensures PaidIn(month, asOf)(row) + Where(EquityIn(months, asOf), At(PeriodOf, month, InvestorFlow))(row)
            == PaidOut(month, asOf)(row)
  {
    hide IsLeap, DaysIn;
  }

  /** A month of the series is what was paid out to the investors less what they paid in. */
  lemma SeriesIsPaidOutLessPaidIn(months: seq<Date>, rows: seq<SourceRow>, asOf: Date, i: nat)
    requires AllWellFormed(rows) && i < |months|
    ensures Buckets(EquityRows(months, rows, asOf), PeriodOf, InvestorFlow)(months[i])
            == Sum(rows, PaidOut(months[i], asOf)) - Sum(rows, PaidIn(months[i], asOf))
  {
    hide IsLeap, DaysIn, Sum, Filter, PaidIn, PaidOut, EquityIn, WellFormed;
    var mine := At(PeriodOf, months[i], InvestorFlow);
    SumFiltered(rows, EquityIn(months, asOf), mine);
    forall row | row in rows
      ensures PaidIn(months[i], asOf)(row) + Where(EquityIn(months, asOf), mine)(row) == PaidOut(months[i], asOf)(row)
    {
      var k :| 0 <= k < |rows| && rows[k] == row;
      EquityRowIsPaid(row, months, months[i], asOf);
    }
    SumPlus(rows, PaidIn(months[i], asOf), Where(EquityIn(months, asOf), mine), PaidOut(months[i], asOf));
  }

  method EquityFlowsFor(months: seq<Date>, rows: seq<SourceRow>, asOf: Date) returns (flows: seq<int>)
    ensures |flows| == |months|
    ensures forall i :: 0 <= i < |months| ==>
              flows[i] == Buckets(EquityRows(months, rows, asOf), PeriodOf, InvestorFlow)(months[i])
    ensures AllWellFormed(rows) ==> forall i :: 0 <= i < |months| ==>
              flows[i] == Sum(rows, PaidOut(months[i], asOf)) - Sum(rows, PaidIn(months[i], asOf))
  {
    hide Tallied, Sum, IsLeap, DaysIn, PaidIn, PaidOut, AllWellFormed;
    var equity := EquityRows(months, rows, asOf);
    var byMonth: map<Date, int> := map[];
    NothingYet(equity);
    for i := 0 to |equity|
      invariant Tallied(byMonth, equity[..i])
    {
      var row := equity[i];
      OneRowMore(byMonth, equity, i);
      var signed := if row.category == Financing(EquityContribution) then -row.amount else row.amount;
      byMonth := byMonth[row.period := GetOr(byMonth, row.period) + signed];
    }
    assert equity[..|equity|] == equity;
    TalliedAt(byMonth, equity);
    flows := [];
    for i := 0 to |months|
      invariant |flows| == i
      invariant forall k :: 0 <= k < i ==> flows[k] == Buckets(equity, PeriodOf, InvestorFlow)(months[k])
    {
      flows := flows + [GetOr(byMonth, months[i])];
    }
    if AllWellFormed(rows) {
      forall i | 0 <= i < |months|
        ensures flows[i] == Sum(rows, PaidOut(months[i], asOf)) - Sum(rows, PaidIn(months[i], asOf))
      {
        SeriesIsPaidOutLessPaidIn(months, rows, asOf, i);
      }
    }
  }

  function GetOr(m: map<Date, int>, month: Date): int { if month in m then m[month] else 0 }

  ghost predicate Tallied(byMonth: map<Date, int>, equity: seq<SourceRow>) {
    forall month: Date :: GetOr(byMonth, month) == Buckets(equity, PeriodOf, InvestorFlow)(month)
  }

  lemma TalliedAt(byMonth: map<Date, int>, equity: seq<SourceRow>)
    requires Tallied(byMonth, equity)
    ensures forall month: Date :: GetOr(byMonth, month) == Buckets(equity, PeriodOf, InvestorFlow)(month)
  {
  }

  lemma NothingYet(equity: seq<SourceRow>)
    ensures Tallied(map[], equity[..0])
  {
    hide IsLeap, DaysIn;
  }

  lemma OneRowMore(byMonth: map<Date, int>, equity: seq<SourceRow>, i: nat)
    requires i < |equity| && Tallied(byMonth, equity[..i])
    ensures var row := equity[i];
            Tallied(byMonth[row.period := GetOr(byMonth, row.period) + InvestorFlow(row)], equity[..i + 1])
  {
    hide IsLeap, DaysIn, Sum;
    var row := equity[i];
    assert equity[..i + 1] == equity[..i] + [row];
    var after := byMonth[row.period := GetOr(byMonth, row.period) + InvestorFlow(row)];
    forall month: Date ensures GetOr(after, month) == Buckets(equity[..i + 1], PeriodOf, InvestorFlow)(month) {
      SumSnoc(equity[..i], row, At(PeriodOf, month, InvestorFlow));
      assert GetOr(byMonth, month) == Buckets(equity[..i], PeriodOf, InvestorFlow)(month);
      assert At(PeriodOf, month, InvestorFlow)(row) == if row.period == month then InvestorFlow(row) else 0;
    }
  }

  function EquityCash(month: Date, asOf: Date): SourceRow -> int {
    (row: SourceRow) => if row.period == month && CountsAsCash(row, asOf) && IsEquity(row) then CashEffect(row) else 0
  }

  /**
   * Each month of the series is the month's equity cash with its sign turned, each row counted as
   * the bridge counts it.
   */
  lemma SeriesIsTheBridgesEquity(months: seq<Date>, rows: seq<SourceRow>, asOf: Date, i: nat)
    requires AllWellFormed(rows) && i < |months|
    ensures Buckets(EquityRows(months, rows, asOf), PeriodOf, InvestorFlow)(months[i])
            == -Sum(rows, EquityCash(months[i], asOf))
  {
    hide IsLeap, DaysIn, Sum, Filter;
    var mine := At(PeriodOf, months[i], InvestorFlow);
    SumFiltered(rows, EquityIn(months, asOf), mine);
    forall row | row in rows
      ensures Where(EquityIn(months, asOf), mine)(row) + EquityCash(months[i], asOf)(row) == Nothing(row)
    {
      var k :| 0 <= k < |rows| && rows[k] == row;
    }
    SumPlus(rows, Where(EquityIn(months, asOf), mine), EquityCash(months[i], asOf), Nothing);
    SumZero(rows, Nothing);
  }

  const Nothing: SourceRow -> int := (row: SourceRow) => 0

  const Contributed: SourceRow -> int := (row: SourceRow) =>
      if row.category == Financing(EquityContribution) then row.amount else 0
  const Distributed: SourceRow -> int := (row: SourceRow) =>
      if row.category == Financing(EquityDistribution) then row.amount else 0

  /** Over the whole horizon the series adds up to what was distributed less what was contributed. */
  lemma SeriesTotalsTheEquityNet(months: seq<Date>, rows: seq<SourceRow>, asOf: Date)
    requires Distinct(months)
    ensures var equity := EquityRows(months, rows, asOf);
            Sum(months, Buckets(equity, PeriodOf, InvestorFlow)) == Sum(equity, Distributed) - Sum(equity, Contributed)
  {
    hide IsLeap, DaysIn, Sum;
    var equity := EquityRows(months, rows, asOf);
    BucketsPartition(equity, months, PeriodOf, InvestorFlow);
    forall row | row in equity ensures Distributed(row) == InvestorFlow(row) + Contributed(row) {}
    SumPlus(equity, InvestorFlow, Contributed, Distributed);
  }

  // ---------------------------------------------------------------- the project's series

  /** A month's operating and development cash: everything in the bridge that is not financing. */
  function ProjectFlow(p: Bridge.MonthlyPosition): int {
    p.customerActual + p.customerForecast - p.refunds - p.developmentActual - p.developmentForecast
    - p.constructionActual - p.constructionForecast
  }

  function NetFinancing(p: Bridge.MonthlyPosition): int {
    p.financingInActual + p.financingInForecast - p.financingOutActual - p.financingOutForecast
  }

  function Project(positions: seq<Bridge.MonthlyPosition>): int {
    if positions == [] then 0 else Project(positions[..|positions| - 1]) + ProjectFlow(positions[|positions| - 1])
  }

  function Financed(positions: seq<Bridge.MonthlyPosition>): int {
    if positions == [] then 0 else Financed(positions[..|positions| - 1]) + NetFinancing(positions[|positions| - 1])
  }

  /** What a row earns the project in a month: buyers' cash in, refunds and both kinds of cost out, financing never. */
  function Earned(month: Date, asOf: Date): SourceRow -> int {
    (row: SourceRow) =>
      if row.period != month || row.category.Financing? then 0
      else
        match row.source
        case ReceiptSource => row.amount
        case RefundSource => -row.amount
        case ConstructionPaymentSource => -row.amount
        case DevelopmentMovementSource => -row.amount
        case ScheduleSource => if row.basis == Forecast && Before(asOf, row.business) then row.amount else 0
        case ForecastLineSource =>
          if Before(month, MonthOf(asOf)) then 0
          else if row.category == CustomerCollection then row.amount else -row.amount
        case _ => 0
  }

  /** What financing brings in a month, net of what it takes. */
  function Raised(month: Date, asOf: Date): SourceRow -> int {
    (row: SourceRow) =>
      if row.period == month && row.category.Financing?
         && (row.source == FinancingMovementSource || F.Planned(row, month, asOf))
      then (if row.direction == Inflow then row.amount else -row.amount)
      else 0
  }

  lemma RowIsEarned(row: SourceRow, month: Date, asOf: Date)
    requires WellFormed(row)
    ensures Earned(month, asOf)(row)
            == F.Happening(ReceiptSource, month)(row) + F.CustomersExpected(month, asOf)(row)
               - F.Happening(RefundSource, month)(row)
               - F.Happening(DevelopmentMovementSource, month)(row) - F.DevelopmentPlanned(month, asOf)(row)
               - F.Happening(ConstructionPaymentSource, month)(row) - F.ConstructionPlanned(month, asOf)(row)
    ensures Raised(month, asOf)(row)
            == F.FinancingMoved(Inflow, month)(row) + F.FinancingPlanned(Inflow, month, asOf)(row)
               - F.FinancingMoved(Outflow, month)(row) - F.FinancingPlanned(Outflow, month, asOf)(row)
  {
    hide IsLeap, DaysIn;
  }

  lemma {:induction false} EarnedAddsUp(rows: seq<SourceRow>, month: Date, asOf: Date)
    requires AllWellFormed(rows)
    ensures Sum(rows, Earned(month, asOf))
            == Sum(rows, F.Happening(ReceiptSource, month)) + Sum(rows, F.CustomersExpected(month, asOf))
               - Sum(rows, F.Happening(RefundSource, month))
               - Sum(rows, F.Happening(DevelopmentMovementSource, month))
               - Sum(rows, F.DevelopmentPlanned(month, asOf))
               - Sum(rows, F.Happening(ConstructionPaymentSource, month))
               - Sum(rows, F.ConstructionPlanned(month, asOf))
    ensures Sum(rows, Raised(month, asOf))
            == Sum(rows, F.FinancingMoved(Inflow, month)) + Sum(rows, F.FinancingPlanned(Inflow, month, asOf))
               - Sum(rows, F.FinancingMoved(Outflow, month)) - Sum(rows, F.FinancingPlanned(Outflow, month, asOf))
  {
    hide IsLeap, DaysIn, Earned, Raised, WellFormed, F.Happening, F.CustomersExpected, F.DevelopmentPlanned,
         F.ConstructionPlanned, F.FinancingMoved, F.FinancingPlanned;
    if rows != [] {
      EarnedAddsUp(rows[..|rows| - 1], month, asOf);
      RowIsEarned(rows[|rows| - 1], month, asOf);
    }
  }

  /** A month's project flow is what its rows earn, and its net financing what they raise. */
  lemma FlowsAreTheirRows(rows: seq<SourceRow>, version: Option<Version>, asOf: Date, start: Date, month: Date)
    requires AllWellFormed(rows)
    ensures var p := Bridge.PositionAt(rows, version, asOf, start, month);
            && ProjectFlow(p) == Sum(rows, Earned(month, asOf))
            && NetFinancing(p) == Sum(rows, Raised(month, asOf))
  {
    hide IsLeap, DaysIn, Sum, Earned, Raised, AllWellFormed, Bridge.PositionAt;
    F.PositionIsItsRows(rows, version, asOf, start, month);
    EarnedAddsUp(rows, month, asOf);
  }

  /** What the project earned and how it was financed are, between them, all the cash the bridge moved. */
  lemma {:induction false} ProjectAndFinancingAreAllTheCash(rows: seq<SourceRow>, version: Option<Version>, asOf: Date,
          start: Date, positions: seq<Bridge.MonthlyPosition>)
    requires AllWellFormed(rows) && positions != []
    requires forall k :: 0 <= k < |positions| ==>
               && Canonical(positions[k].period) && UpTo(start, positions[k].period)
               && positions[k] == Bridge.PositionAt(rows, version, asOf, start, positions[k].period)
    requires forall k :: 0 <= k < |positions| - 1 ==> positions[k + 1].period == NextMonth(positions[k].period)
    ensures Project(positions) + Financed(positions)
            == positions[|positions| - 1].closingTotal - positions[0].openingTotal
  {
    hide IsLeap, DaysIn, AllWellFormed, NextMonth, Bridge.PositionAt, UpTo;
    var n := |positions| - 1;
    MonthIsProjectAndFinancing(rows, version, asOf, start, positions[n].period);
    assert positions[..n + 1] == positions;
    if n > 0 {
      var earlier := positions[..n];
      assert earlier[0] == positions[0] && earlier[n - 1] == positions[n - 1];
      forall k | 0 <= k < |earlier| - 1 ensures earlier[k + 1].period == NextMonth(earlier[k].period) {
        assert positions[k + 1].period == NextMonth(positions[k].period);
      }
      ProjectAndFinancingAreAllTheCash(rows, version, asOf, start, earlier);
      assert positions[n - 1 + 1].period == NextMonth(positions[n - 1].period);
      Bridge.MonthOpensWhereTheLastClosed(rows, version, asOf, start, positions[n - 1].period);
    } else {
      assert positions[..0] == [];
    }
  }

  lemma MonthIsProjectAndFinancing(rows: seq<SourceRow>, version: Option<Version>, asOf: Date, start: Date, month: Date)
    ensures var p := Bridge.PositionAt(rows, version, asOf, start, month);
            ProjectFlow(p) + NetFinancing(p) == p.closingTotal - p.openingTotal
  {
    hide Sum, Filter, IsLeap, DaysIn;
  }
}
