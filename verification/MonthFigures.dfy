/** Every figure of a month of the bridge, as the rows that make it up. */
module MonthFigures {
  import opened Calendar
  import opened Standing
  import opened Sums
  import opened CashModel
  import opened Bridge

  /** Rows of one source in a month, all of which have happened. */
  function Happening(source: SourceType, month: Date): SourceRow -> int {
    (row: SourceRow) => if row.source == source && row.period == month then row.amount else 0
  }

  function FinancingMoved(direction: Direction, month: Date): SourceRow -> int {
    (row: SourceRow) =>
      if row.source == FinancingMovementSource && row.direction == direction && row.period == month
      then row.amount else 0
  }

  /** Lines of the forecast for a month not over by the cutoff. */
  predicate Planned(row: SourceRow, month: Date, asOf: Date) {
    row.source == ForecastLineSource && row.period == month && !Before(month, MonthOf(asOf))
  }

  function ConstructionPlanned(month: Date, asOf: Date): SourceRow -> int {
    (row: SourceRow) => if Planned(row, month, asOf) && row.category == Construction then row.amount else 0
  }

  function DevelopmentPlanned(month: Date, asOf: Date): SourceRow -> int {
    (row: SourceRow) => if Planned(row, month, asOf) && row.category.Development? then row.amount else 0
  }

  function FinancingPlanned(direction: Direction, month: Date, asOf: Date): SourceRow -> int {
    (row: SourceRow) =>
      if Planned(row, month, asOf) && row.category.Financing? && row.direction == direction then row.amount else 0
  }

  /** Instalments still to come, and sales of stock not yet sold. */
  function CustomersExpected(month: Date, asOf: Date): SourceRow -> int {
    (row: SourceRow) =>
      if Planned(row, month, asOf) && row.category == CustomerCollection then row.amount
      else if row.source == ScheduleSource && row.basis == Forecast && row.period == month && Before(asOf, row.business)
      then row.amount else 0
  }

  /** The contract's own instalments, met or not. */
  function CustomersDue(month: Date): SourceRow -> int {
    (row: SourceRow) =>
      if row.source == ScheduleSource && row.basis == Scheduled && row.period == month then row.amount else 0
  }

  /** A position of the bridge, figure by figure. */
  ghost predicate Reports(p: MonthlyPosition, rows: seq<SourceRow>, asOf: Date, month: Date) {
    && p.period == month
    && (p.state == Closed <==> Before(month, MonthOf(asOf)))
    && (p.state == Current <==> month == MonthOf(asOf))
    && p.customerScheduledDue == Sum(rows, CustomersDue(month))
    && p.customerActual == Sum(rows, Happening(ReceiptSource, month))
    && p.customerForecast == Sum(rows, CustomersExpected(month, asOf))
    && p.financingInActual == Sum(rows, FinancingMoved(Inflow, month))
    && p.financingInForecast == Sum(rows, FinancingPlanned(Inflow, month, asOf))
    && p.developmentActual == Sum(rows, Happening(DevelopmentMovementSource, month))
    && p.developmentForecast == Sum(rows, DevelopmentPlanned(month, asOf))
    && p.constructionActual == Sum(rows, Happening(ConstructionPaymentSource, month))
    && p.constructionForecast == Sum(rows, ConstructionPlanned(month, asOf))
    && p.refunds == Sum(rows, Happening(RefundSource, month))
    && p.financingOutActual == Sum(rows, FinancingMoved(Outflow, month))
    && p.financingOutForecast == Sum(rows, FinancingPlanned(Outflow, month, asOf))
    && p.newlyRestricted == Sum(rows, Happening(RestrictionSource, month))
    && p.released == Sum(rows, Happening(ReleaseSource, month))
    && Adds(p)
  }

  /** The totals of a position, and its three balances. */
  predicate Adds(p: MonthlyPosition) {
    && p.totalInflows == p.customerActual + p.customerForecast + p.financingInActual + p.financingInForecast
    && p.totalOutflows == p.refunds + p.constructionActual + p.constructionForecast + p.developmentActual
                          + p.developmentForecast + p.financingOutActual + p.financingOutForecast
    && p.net == p.totalInflows - p.totalOutflows
    && p.closingTotal == p.openingTotal + p.net
    && p.closingRestricted == p.openingRestricted + p.newlyRestricted - p.released
    && p.openingUnrestricted == p.openingTotal - p.openingRestricted
    && p.usableInflows == p.totalInflows - p.newlyRestricted + p.released
    && p.unrestrictedOutflows == p.totalOutflows
    && p.closingUnrestricted == p.openingUnrestricted + p.usableInflows - p.unrestrictedOutflows
    && p.fundingGap == if p.closingUnrestricted < 0 then -p.closingUnrestricted else 0
  }

  function Within(month: Date, asOf: Date, column: Column): SourceRow -> int {
    Where(OfMonth(month), Where(Counted(asOf), Where(In(column), Amount)))
  }

  lemma ColumnOverAllRows(rows: seq<SourceRow>, month: Date, asOf: Date, column: Column, figure: SourceRow -> int)
    requires forall row :: row in rows ==> figure(row) == Within(month, asOf, column)(row)
    ensures ColumnTotal(Filter(RowsOf(rows, month), Counted(asOf)), column) == Sum(rows, figure)
  {
    hide Sum, Filter, Within, Belongs, CountsAsCash;
    SumFiltered(Filter(RowsOf(rows, month), Counted(asOf)), In(column), Amount);
    SumFiltered(RowsOf(rows, month), Counted(asOf), Where(In(column), Amount));
    SumFiltered(rows, OfMonth(month), Where(Counted(asOf), Where(In(column), Amount)));
    WithinIsNested(month, asOf, column);
    SumCongruent(rows, figure, Within(month, asOf, column));
  }

  lemma WithinIsNested(month: Date, asOf: Date, column: Column)
    ensures Within(month, asOf, column) == Where(OfMonth(month), Where(Counted(asOf), Where(In(column), Amount)))
  {
  }

  lemma TestOverAllRows(rows: seq<SourceRow>, month: Date, asOf: Date, test: SourceRow -> bool,
          figure: SourceRow -> int)
    requires forall row :: row in rows ==>
               figure(row) == Where(OfMonth(month), Where(Counted(asOf), Where(test, Amount)))(row)
    ensures Sum(Filter(Filter(RowsOf(rows, month), Counted(asOf)), test), Amount) == Sum(rows, figure)
  {
    hide Sum, Filter, CountsAsCash;
    SumFiltered(Filter(RowsOf(rows, month), Counted(asOf)), test, Amount);
    SumFiltered(RowsOf(rows, month), Counted(asOf), Where(test, Amount));
    SumFiltered(rows, OfMonth(month), Where(Counted(asOf), Where(test, Amount)));
    SumCongruent(rows, figure, Where(OfMonth(month), Where(Counted(asOf), Where(test, Amount))));
  }

  lemma ActualColumns(row: SourceRow, month: Date, asOf: Date)
    requires WellFormed(row)
    ensures Happening(ReceiptSource, month)(row) == Within(month, asOf, CustomerActual)(row)
    ensures Happening(DevelopmentMovementSource, month)(row) == Within(month, asOf, DevelopmentActual)(row)
    ensures Happening(ConstructionPaymentSource, month)(row) == Within(month, asOf, ConstructionActual)(row)
    ensures Happening(RefundSource, month)(row) == Within(month, asOf, Refunds)(row)
    ensures FinancingMoved(Inflow, month)(row) == Within(month, asOf, FinancingInActual)(row)
    ensures FinancingMoved(Outflow, month)(row) == Within(month, asOf, FinancingOutActual)(row)
    ensures Happening(RestrictionSource, month)(row)
            == Where(OfMonth(month), Where(Counted(asOf), Where(IsRestriction, Amount)))(row)
    ensures Happening(ReleaseSource, month)(row)
            == Where(OfMonth(month), Where(Counted(asOf), Where(IsRelease, Amount)))(row)
  {
    hide IsLeap, DaysIn;
  }

  lemma ForecastColumns(row: SourceRow, month: Date, asOf: Date)
    requires WellFormed(row)
    ensures CustomersExpected(month, asOf)(row) == Within(month, asOf, CustomerForecast)(row)
    ensures DevelopmentPlanned(month, asOf)(row) == Within(month, asOf, DevelopmentForecast)(row)
    ensures ConstructionPlanned(month, asOf)(row) == Within(month, asOf, ConstructionForecast)(row)
    ensures FinancingPlanned(Inflow, month, asOf)(row) == Within(month, asOf, FinancingInForecast)(row)
    ensures FinancingPlanned(Outflow, month, asOf)(row) == Within(month, asOf, FinancingOutForecast)(row)
  {
    hide IsLeap, DaysIn;
  }

  /** Each position, of whatever month, is its rows, figure by figure. */
  lemma PositionIsItsRows(rows: seq<SourceRow>, version: Option<Version>, asOf: Date, start: Date, month: Date)
    requires AllWellFormed(rows)
    ensures Reports(PositionAt(rows, version, asOf, start, month), rows, asOf, month)
  {
    hide Sum, ColumnTotal, Filter, Within, WellFormed, IsLeap, DaysIn, Happening, FinancingMoved, FinancingPlanned,
         CustomersExpected, DevelopmentPlanned, ConstructionPlanned, CustomersDue, OpensWith;
    forall row | row in rows ensures WellFormed(row) {
      var i :| 0 <= i < |rows| && rows[i] == row;
    }
    ActualsAreRows(rows, month, asOf);
    PlansAreRows(rows, month, asOf);
    DueAreRows(rows, month);
  }

  lemma ActualsAreRows(rows: seq<SourceRow>, month: Date, asOf: Date)
    requires forall row :: row in rows ==> WellFormed(row)
    ensures var mine := Filter(RowsOf(rows, month), Counted(asOf));
            && ColumnTotal(mine, CustomerActual) == Sum(rows, Happening(ReceiptSource, month))
            && ColumnTotal(mine, DevelopmentActual) == Sum(rows, Happening(DevelopmentMovementSource, month))
            && ColumnTotal(mine, ConstructionActual) == Sum(rows, Happening(ConstructionPaymentSource, month))
            && ColumnTotal(mine, Refunds) == Sum(rows, Happening(RefundSource, month))
            && ColumnTotal(mine, FinancingInActual) == Sum(rows, FinancingMoved(Inflow, month))
            && ColumnTotal(mine, FinancingOutActual) == Sum(rows, FinancingMoved(Outflow, month))
            && Sum(Filter(mine, IsRestriction), Amount) == Sum(rows, Happening(RestrictionSource, month))
            && Sum(Filter(mine, IsRelease), Amount) == Sum(rows, Happening(ReleaseSource, month))
  {
    hide Sum, ColumnTotal, Filter, Within, WellFormed, Where, Happening, FinancingMoved, RowsOf;
    forall row | row in rows
      ensures Happening(ReceiptSource, month)(row) == Within(month, asOf, CustomerActual)(row)
      ensures Happening(DevelopmentMovementSource, month)(row) == Within(month, asOf, DevelopmentActual)(row)
      ensures Happening(ConstructionPaymentSource, month)(row) == Within(month, asOf, ConstructionActual)(row)
      ensures Happening(RefundSource, month)(row) == Within(month, asOf, Refunds)(row)
      ensures FinancingMoved(Inflow, month)(row) == Within(month, asOf, FinancingInActual)(row)
      ensures FinancingMoved(Outflow, month)(row) == Within(month, asOf, FinancingOutActual)(row)
      ensures Happening(RestrictionSource, month)(row)
              == Where(OfMonth(month), Where(Counted(asOf), Where(IsRestriction, Amount)))(row)
      ensures Happening(ReleaseSource, month)(row)
              == Where(OfMonth(month), Where(Counted(asOf), Where(IsRelease, Amount)))(row)
    {
      ActualColumns(row, month, asOf);
    }
    ColumnOverAllRows(rows, month, asOf, CustomerActual, Happening(ReceiptSource, month));
    ColumnOverAllRows(rows, month, asOf, DevelopmentActual, Happening(DevelopmentMovementSource, month));
    ColumnOverAllRows(rows, month, asOf, ConstructionActual, Happening(ConstructionPaymentSource, month));
    ColumnOverAllRows(rows, month, asOf, Refunds, Happening(RefundSource, month));
    ColumnOverAllRows(rows, month, asOf, FinancingInActual, FinancingMoved(Inflow, month));
    ColumnOverAllRows(rows, month, asOf, FinancingOutActual, FinancingMoved(Outflow, month));
    TestOverAllRows(rows, month, asOf, IsRestriction, Happening(RestrictionSource, month));
    TestOverAllRows(rows, month, asOf, IsRelease, Happening(ReleaseSource, month));
  }

  lemma PlansAreRows(rows: seq<SourceRow>, month: Date, asOf: Date)
    requires forall row :: row in rows ==> WellFormed(row)
    ensures var mine := Filter(RowsOf(rows, month), Counted(asOf));
            && ColumnTotal(mine, CustomerForecast) == Sum(rows, CustomersExpected(month, asOf))
            && ColumnTotal(mine, DevelopmentForecast) == Sum(rows, DevelopmentPlanned(month, asOf))
            && ColumnTotal(mine, ConstructionForecast) == Sum(rows, ConstructionPlanned(month, asOf))
            && ColumnTotal(mine, FinancingInForecast) == Sum(rows, FinancingPlanned(Inflow, month, asOf))
            && ColumnTotal(mine, FinancingOutForecast) == Sum(rows, FinancingPlanned(Outflow, month, asOf))
  {
    hide Sum, ColumnTotal, Filter, Within, WellFormed, CustomersExpected, DevelopmentPlanned, ConstructionPlanned,
         FinancingPlanned, RowsOf;
    forall row | row in rows
      ensures CustomersExpected(month, asOf)(row) == Within(month, asOf, CustomerForecast)(row)
      ensures DevelopmentPlanned(month, asOf)(row) == Within(month, asOf, DevelopmentForecast)(row)
      ensures ConstructionPlanned(month, asOf)(row) == Within(month, asOf, ConstructionForecast)(row)
      ensures FinancingPlanned(Inflow, month, asOf)(row) == Within(month, asOf, FinancingInForecast)(row)
      ensures FinancingPlanned(Outflow, month, asOf)(row) == Within(month, asOf, FinancingOutForecast)(row)
    {
      ForecastColumns(row, month, asOf);
    }
    ColumnOverAllRows(rows, month, asOf, CustomerForecast, CustomersExpected(month, asOf));
    ColumnOverAllRows(rows, month, asOf, DevelopmentForecast, DevelopmentPlanned(month, asOf));
    ColumnOverAllRows(rows, month, asOf, ConstructionForecast, ConstructionPlanned(month, asOf));
    ColumnOverAllRows(rows, month, asOf, FinancingInForecast, FinancingPlanned(Inflow, month, asOf));
    ColumnOverAllRows(rows, month, asOf, FinancingOutForecast, FinancingPlanned(Outflow, month, asOf));
  }

  lemma DueAreRows(rows: seq<SourceRow>, month: Date)
    ensures Sum(Filter(RowsOf(rows, month), IsScheduledInstalment), Amount) == Sum(rows, CustomersDue(month))
  {
    hide Sum, Filter, IsLeap, DaysIn;
    SumFiltered(RowsOf(rows, month), IsScheduledInstalment, Amount);
    SumFiltered(rows, OfMonth(month), Where(IsScheduledInstalment, Amount));
    SumCongruent(rows, CustomersDue(month), Where(OfMonth(month), Where(IsScheduledInstalment, Amount)));
  }

  /**
   * What is returned of a bridge: a position for each month, each figure its own rows, and balances
   * that carry over.
   */
  lemma ReturnedPositionsAreTheirRows(positions: seq<MonthlyPosition>, rows: seq<SourceRow>, version: Option<Version>,
          asOf: Date, start: Date, end: Date)
    requires AllWellFormed(rows) && Canonical(start) && Canonical(end) && UpTo(start, end)
    requires |positions| == |Months(start, end)|
    requires PositionsSoFar(positions, Months(start, end), rows, version, asOf, start)
    ensures forall k :: 0 <= k < |positions| ==>
              Reports(positions[k], rows, asOf, Months(start, end)[k]) && positions[k].closingRestricted >= 0
    ensures var unrestricted := if version.Some? then version.value.openingUnrestricted else 0;
            var restricted := if version.Some? then version.value.openingRestricted else 0;
            && positions[0].openingTotal == unrestricted + restricted && positions[0].openingRestricted == restricted
    ensures forall k :: 1 <= k < |positions| ==>
              && positions[k].openingTotal == positions[k - 1].closingTotal
              && positions[k].openingRestricted == positions[k - 1].closingRestricted
  {
    hide Sum, Reports, PositionAt, AllWellFormed, Months, NextMonth, UpTo, IsLeap, DaysIn;
    HorizonMonths(rows, start, end);
    var months := Months(start, end);
    OpensAtTheStart(rows, version, asOf, start, months);
    forall k | 0 <= k < |positions| ensures Reports(positions[k], rows, asOf, months[k]) {
      PositionIsItsRows(rows, version, asOf, start, months[k]);
    }
    forall k | 1 <= k < |positions|
      ensures positions[k].openingTotal == positions[k - 1].closingTotal
      ensures positions[k].openingRestricted == positions[k - 1].closingRestricted
    {
      assert months[k - 1 + 1] == NextMonth(months[k - 1]);
      MonthOpensWhereTheLastClosed(rows, version, asOf, start, months[k - 1]);
    }
  }

  // ---------------------------------------------------------------- the horizon

  /** The first month: as asked, or the anchor's, or the earliest of the rows. */
  lemma TheBridgeStarts(rows: seq<SourceRow>, version: Option<Version>, asOf: Date, asked: Option<Date>)
    ensures var start := StartMonth(rows, version, asOf, asked);
            && (asked.Some? ==> start == Ymd(asked.value.year, asked.value.month, 1))
            && (asked.None? && version.Some? ==> start == version.value.startMonth)
            && (asked.None? && version.None? && rows == [] ==> start == Ymd(asOf.year, asOf.month, 1))
            && (asked.None? && version.None? && rows != [] ==>
                  && (forall i :: 0 <= i < |rows| ==> UpTo(start, rows[i].period))
                  && (exists i :: 0 <= i < |rows| && rows[i].period == start))
    ensures BeginsBeforeAnchor(version, asked)
            <==> asked.Some? && version.Some?
                 && Before(Ymd(asked.value.year, asked.value.month, 1), version.value.startMonth)
  {
    hide IsLeap, DaysIn;
  }

  /** The last: as asked, or the latest of the forecast's end, or the cutoff's month, the rows and the start. */
  lemma TheBridgeEnds(rows: seq<SourceRow>, version: Option<Version>, asOf: Date, start: Date, asked: Option<Date>)
    ensures var end := EndMonth(rows, version, asOf, start, asked);
            var last := if version.Some? then version.value.endMonth else Ymd(asOf.year, asOf.month, 1);
            && (asked.Some? ==> end == Ymd(asked.value.year, asked.value.month, 1))
            && (asked.None? ==>
                  && UpTo(start, end) && UpTo(last, end)
                  && (forall i :: 0 <= i < |rows| ==> UpTo(rows[i].period, end))
                  && (end == start || end == last || exists i :: 0 <= i < |rows| && rows[i].period == end))
  {
    hide IsLeap, DaysIn;
  }
}
