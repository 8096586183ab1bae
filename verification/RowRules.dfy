/** Which day and which month each row of cash moves, written out in dates. */
module RowRules {
  import opened Calendar
  import opened Standing
  import opened Sums
  import opened CashModel
  import opened Bridge
  import opened FundingWindows

  /** What a row adds to spendable cash: its amount in or out, less what it ties up, plus what it frees. */
  function Spendable(row: SourceRow): int {
    match row.source
    case RestrictionSource => -row.amount
    case ReleaseSource => row.amount
    case _ => if row.direction == Inflow then row.amount else -row.amount
  }

  /** What a row adds to cash in the bank. */
  function Banked(row: SourceRow): int {
    match row.source
    case RestrictionSource => 0
    case ReleaseSource => 0
    case _ => if row.direction == Inflow then row.amount else -row.amount
  }

  // ---------------------------------------------------------------- the day view

  /**
   * By the end of a day after the cutoff: what had a date between the two, and each open month's
   * plan begun by then.
   */
  predicate LandsBy(row: SourceRow, asOf: Date, day: Date) {
    && Before(asOf, day)
    && match row.basis
       case Scheduled => false
       case Actual => Before(asOf, row.business) && UpTo(row.business, day)
       case Forecast =>
         if row.source == ForecastLineSource
         then UpTo(MonthOf(asOf), row.period) && UpTo(row.period, day)
         else Before(asOf, row.business) && UpTo(row.business, day)
  }

  function LandedBy(asOf: Date, day: Date): SourceRow -> int {
    (row: SourceRow) => if LandsBy(row, asOf, day) then Spendable(row) else 0
  }

  lemma RowLands(row: SourceRow, asOf: Date, day: Date)
    requires WellFormed(row)
    ensures FlowInside(UsableEffect, asOf, day)(row) == LandedBy(asOf, day)(row)
  {
    hide IsLeap, DaysIn;
    NextDayIsNext(asOf, day);
    NextDayIsNext(asOf, asOf);
  }

  /** The day view is the opening and every row that has landed. */
  lemma DayEndIsWhatHasLanded(rows: seq<SourceRow>, opening: int, asOf: Date, day: Date)
    requires AllWellFormed(rows)
    ensures DayEnd(rows, opening, asOf, day) == opening + Sum(rows, LandedBy(asOf, day))
  {
    hide Sum, FlowInside, LandedBy, WellFormed, IsLeap, DaysIn;
    forall row | row in rows ensures FlowInside(UsableEffect, asOf, day)(row) == LandedBy(asOf, day)(row) {
      var i :| 0 <= i < |rows| && rows[i] == row;
      RowLands(row, asOf, day);
    }
    SumCongruent(rows, FlowInside(UsableEffect, asOf, day), LandedBy(asOf, day));
  }

  // ---------------------------------------------------------------- the month view

  /** Everything that has a date of its own in the past, or is dated in the future, or plans a month not yet over. */
  predicate CountsInItsMonth(row: SourceRow, asOf: Date) {
    match row.basis
    case Scheduled => false
    case Actual => true
    case Forecast =>
      if row.source == ForecastLineSource then UpTo(MonthOf(asOf), row.period) else Before(asOf, row.business)
  }

  function ClosedInto(effect: SourceRow -> int, start: Date, month: Date, asOf: Date): SourceRow -> int {
    (row: SourceRow) =>
      if CountsInItsMonth(row, asOf) && UpTo(start, row.period) && UpTo(row.period, month) then effect(row) else 0
  }

  const SpendableOf: SourceRow -> int := (row: SourceRow) => Spendable(row)
  const BankedOf: SourceRow -> int := (row: SourceRow) => Banked(row)

  /** A month's closings are the opening and every row that counts in a month of the bridge up to it. */
  lemma MonthClosesOnItsRows(rows: seq<SourceRow>, version: Option<Version>, asOf: Date, start: Date, month: Date)
    requires AllWellFormed(rows) && UpTo(start, month)
    ensures var p := PositionAt(rows, version, asOf, start, month);
            var restricted := if version.Some? then version.value.openingRestricted else 0;
            var unrestricted := if version.Some? then version.value.openingUnrestricted else 0;
            && p.closingTotal == restricted + unrestricted + Sum(rows, ClosedInto(BankedOf, start, month, asOf))
            && p.closingUnrestricted == unrestricted + Sum(rows, ClosedInto(SpendableOf, start, month, asOf))
            && p.closingRestricted == p.closingTotal - p.closingUnrestricted
  {
    hide Sum, PositionAt, IsLeap, DaysIn;
    BridgeTelescopes(rows, version, asOf, start, month);
    SumPlus(rows, ThroughMonth(UsableEffect, start, month, asOf), ThroughMonth(HeldEffect, start, month, asOf),
            ThroughMonth(CashEffect, start, month, asOf));
    forall row | row in rows
      ensures ThroughMonth(CashEffect, start, month, asOf)(row) == ClosedInto(BankedOf, start, month, asOf)(row)
      ensures ThroughMonth(UsableEffect, start, month, asOf)(row) == ClosedInto(SpendableOf, start, month, asOf)(row)
    {
      var i :| 0 <= i < |rows| && rows[i] == row;
    }
    SumCongruent(rows, ThroughMonth(CashEffect, start, month, asOf), ClosedInto(BankedOf, start, month, asOf));
    SumCongruent(rows, ThroughMonth(UsableEffect, start, month, asOf), ClosedInto(SpendableOf, start, month, asOf));
  }

  // ---------------------------------------------------------------- one row more

  /** What one more row adds to the end of a day, and to the close of a month of a bridge. */
  lemma OneRowMore(rows: seq<SourceRow>, row: SourceRow, opening: int, version: Option<Version>, asOf: Date, day: Date,
          start: Date, month: Date)
    requires AllWellFormed(rows) && WellFormed(row) && UpTo(start, month)
    ensures DayEnd(rows + [row], opening, asOf, day) - DayEnd(rows, opening, asOf, day)
            == if LandsBy(row, asOf, day) then Spendable(row) else 0
    ensures PositionAt(rows + [row], version, asOf, start, month).closingUnrestricted
            - PositionAt(rows, version, asOf, start, month).closingUnrestricted
            == if CountsInItsMonth(row, asOf) && UpTo(start, row.period) && UpTo(row.period, month)
               then Spendable(row) else 0
  {
    hide Sum, PositionAt, DayEnd, WellFormed, IsLeap, DaysIn;
    var more := rows + [row];
    assert AllWellFormed(more);
    DayEndIsWhatHasLanded(rows, opening, asOf, day);
    DayEndIsWhatHasLanded(more, opening, asOf, day);
    SumSnoc(rows, row, LandedBy(asOf, day));
    MonthClosesOnItsRows(rows, version, asOf, start, month);
    MonthClosesOnItsRows(more, version, asOf, start, month);
    SumSnoc(rows, row, ClosedInto(SpendableOf, start, month, asOf));
  }

  /**
   * An instalment still to come, on a day after the cutoff, is in its month's close and in the end
   * of its own day and not of the day before; on or before the cutoff it is in neither, ever.
   */
  lemma AnInstalmentMovesItsOwnDay(rows: seq<SourceRow>, id: int, due: Date, amount: nat, opening: int,
          version: Option<Version>, asOf: Date, day: Date, start: Date, month: Date)
    requires AllWellFormed(rows) && UpTo(start, month)
    ensures var row :=
              SourceRow(ScheduleSource, id, MonthOf(due), due, amount, Inflow, CustomerCollection, Forecast, false);
            && DayEnd(rows + [row], opening, asOf, day)
               == DayEnd(rows, opening, asOf, day) + (if Before(asOf, due) && UpTo(due, day) then amount else 0)
            && PositionAt(rows + [row], version, asOf, start, month).closingUnrestricted
               == PositionAt(rows, version, asOf, start, month).closingUnrestricted
                  + if Before(asOf, due) && UpTo(start, MonthOf(due)) && UpTo(MonthOf(due), month) then amount else 0
  {
    hide PositionAt, DayEnd, AllWellFormed, IsLeap, DaysIn;
    var row := SourceRow(ScheduleSource, id, MonthOf(due), due, amount, Inflow, CustomerCollection, Forecast, false);
    OneRowMore(rows, row, opening, version, asOf, day, start, month);
  }

  /**
   * Building planned for a month not before the cutoff's is in its close, and in the day view from
   * the later of its first day and the day after the cutoff; planned for a month that is over, never.
   */
  lemma APlanMovesFromItsFirstOpenDay(rows: seq<SourceRow>, id: int, plan: Date, amount: nat, opening: int,
          version: Option<Version>, asOf: Date, day: Date, start: Date, month: Date)
    requires AllWellFormed(rows) && Canonical(plan) && UpTo(start, month)
    ensures var row := SourceRow(ForecastLineSource, id, plan, plan, amount, Outflow, Construction, Forecast, true);
            var open := !Before(plan, MonthOf(asOf));
            var firstDay := if UpTo(plan, asOf) then NextDay(asOf) else plan;
            && DayEnd(rows + [row], opening, asOf, day)
               == DayEnd(rows, opening, asOf, day) - (if open && UpTo(firstDay, day) then amount else 0)
            && PositionAt(rows + [row], version, asOf, start, month).closingUnrestricted
               == PositionAt(rows, version, asOf, start, month).closingUnrestricted
                  - if open && UpTo(start, plan) && UpTo(plan, month) then amount else 0
  {
    hide PositionAt, DayEnd, AllWellFormed, IsLeap, DaysIn;
    var row := SourceRow(ForecastLineSource, id, plan, plan, amount, Outflow, Construction, Forecast, true);
    OneRowMore(rows, row, opening, version, asOf, day, start, month);
    NextDayIsNext(asOf, day);
    NextDayIsNext(asOf, plan);
  }

  // ---------------------------------------------------------------- cash in hand and the figures of a window

  /** Actual cash of the anchor month or later, dated by the cutoff. */
  predicate InHandBy(row: SourceRow, version: Option<Version>, asOf: Date) {
    row.basis == Actual && UpTo(row.business, asOf) && (version.Some? ==> UpTo(version.value.startMonth, row.period))
  }

  function BankedBy(version: Option<Version>, asOf: Date): SourceRow -> int {
    (row: SourceRow) => if InHandBy(row, version, asOf) then Banked(row) else 0
  }

  function SpendableBy(version: Option<Version>, asOf: Date): SourceRow -> int {
    (row: SourceRow) => if InHandBy(row, version, asOf) then Spendable(row) else 0
  }

  /** Cash in hand, in the bank and to spend, is the opening and the actual rows of its months up to the cutoff. */
  lemma InHandIsItsRows(rows: seq<SourceRow>, version: Option<Version>, asOf: Date)
    requires ActualCashPosition(rows, version, asOf).CashInHand?
    ensures var p := ActualCashPosition(rows, version, asOf);
            var restricted := if version.Some? then version.value.openingRestricted else 0;
            var unrestricted := if version.Some? then version.value.openingUnrestricted else 0;
            && p.total == restricted + unrestricted + Sum(rows, BankedBy(version, asOf))
            && p.unrestricted == unrestricted + Sum(rows, SpendableBy(version, asOf))
            && p.restricted == p.total - p.unrestricted
  {
    hide Sum, ActualCashPosition, IsLeap, DaysIn;
    var anchor := OpeningAnchor(version);
    CashInHandIsWhatHappened(rows, version, asOf);
    SumPlus(rows, Happened(UsableEffect, anchor, asOf), Happened(HeldEffect, anchor, asOf),
            Happened(CashEffect, anchor, asOf));
    SumCongruent(rows, Happened(CashEffect, anchor, asOf), BankedBy(version, asOf));
    SumCongruent(rows, Happened(UsableEffect, anchor, asOf), SpendableBy(version, asOf));
  }

  function PaidBy(asOf: Date, day: Date): SourceRow -> int {
    (row: SourceRow) =>
      if LandsBy(row, asOf, day) && row.direction == Outflow && row.source != ReleaseSource then row.amount else 0
  }

  function UsableBy(asOf: Date, day: Date): SourceRow -> int {
    (row: SourceRow) =>
      if !LandsBy(row, asOf, day) then 0
      else if row.source == RestrictionSource then -row.amount
      else if row.source == ReleaseSource then row.amount
      else if row.direction == Inflow then row.amount else 0
  }

  /** A window's figures are the rows that land in it; its worst day is the worst of them all. */
  lemma WindowIsItsRows(w: FundingWindow, rows: seq<SourceRow>, opening: int, asOf: Date, days: nat)
    requires AllWellFormed(rows) && Describes(w, rows, opening, asOf, days)
    ensures w.days == days && w.fromDate == asOf && w.toDate == AddDays(asOf, days) && w.opening == opening
    ensures w.outflows == Sum(rows, PaidBy(asOf, w.toDate))
    ensures w.usableInflows == Sum(rows, UsableBy(asOf, w.toDate))
    ensures w.netMovement == w.usableInflows - w.outflows
    ensures w.closing == opening + Sum(rows, LandedBy(asOf, w.toDate))
    ensures w.minimum <= opening
            && forall day: Date :: Before(asOf, day) && UpTo(day, w.toDate) ==>
                 w.minimum <= opening + Sum(rows, LandedBy(asOf, day))
    ensures w.minimum == opening
            || exists day: Date :: Before(asOf, day) && UpTo(day, w.toDate)
                 && w.minimum == opening + Sum(rows, LandedBy(asOf, day))
    ensures w.requirement == if w.minimum < 0 then -w.minimum else 0
  {
    hide Sum, IsLeap, DaysIn, DayEnd, LandedBy, AddDays;
    var end := w.toDate;
    FiguresAreRows(rows, asOf, end);
    forall day: Date ensures DayEnd(rows, opening, asOf, day) == opening + Sum(rows, LandedBy(asOf, day)) {
      DayEndIsWhatHasLanded(rows, opening, asOf, day);
    }
  }

  lemma FiguresAreRows(rows: seq<SourceRow>, asOf: Date, end: Date)
    requires AllWellFormed(rows)
    ensures Sum(rows, FlowInside(CashOutEffect, asOf, end)) == Sum(rows, PaidBy(asOf, end))
    ensures Sum(rows, FlowInside(CashInEffect, asOf, end)) - Sum(rows, FlowInside(HeldEffect, asOf, end))
            == Sum(rows, UsableBy(asOf, end))
  {
    hide Sum, WellFormed, FlowInside, PaidBy, UsableBy, IsLeap, DaysIn;
    forall row | row in rows
      ensures FlowInside(CashOutEffect, asOf, end)(row) == PaidBy(asOf, end)(row)
      ensures FlowInside(CashInEffect, asOf, end)(row)
              == UsableBy(asOf, end)(row) + FlowInside(HeldEffect, asOf, end)(row)
    {
      var i :| 0 <= i < |rows| && rows[i] == row;
      RowFigures(row, asOf, end);
    }
    SumCongruent(rows, FlowInside(CashOutEffect, asOf, end), PaidBy(asOf, end));
    SumPlus(rows, UsableBy(asOf, end), FlowInside(HeldEffect, asOf, end), FlowInside(CashInEffect, asOf, end));
  }

  lemma RowFigures(row: SourceRow, asOf: Date, end: Date)
    requires WellFormed(row)
    ensures FlowInside(CashOutEffect, asOf, end)(row) == PaidBy(asOf, end)(row)
    ensures FlowInside(CashInEffect, asOf, end)(row)
            == UsableBy(asOf, end)(row) + FlowInside(HeldEffect, asOf, end)(row)
  {
    hide IsLeap, DaysIn;
    NextDayIsNext(asOf, end);
    NextDayIsNext(asOf, asOf);
  }
}
