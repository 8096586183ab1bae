/** The month view, the day view and the cash in hand describe one project. */
module Agreement {
  import opened Calendar
  import opened Standing
  import opened Sums
  import opened CashModel
  import opened Bridge
  import opened FundingWindows

  /** A bridge that leaves out exactly what its opening balance already contains. */
  ghost predicate StartsAtTheAnchor(rows: seq<SourceRow>, version: Option<Version>, start: Date) {
    if version.Some? then start == version.value.startMonth
    else forall i :: 0 <= i < |rows| ==> UpTo(start, rows[i].period)
  }

  /** The default start of a bridge is such a start. */
  lemma DefaultStartIsTheAnchor(rows: seq<SourceRow>, version: Option<Version>, asOf: Date)
    ensures StartsAtTheAnchor(rows, version, StartMonth(rows, version, asOf, None))
  {
  }

  /** The cutoff does not fall before the month the opening balance is stated for. */
  predicate CutoffAfterAnchor(version: Option<Version>, asOf: Date) {
    AtOrAfter(MonthOf(asOf), OpeningAnchor(version))
  }

  /** Cash of the bridge's months up to `month` that is still ahead of the cutoff. */
  function StillAhead(effect: SourceRow -> int, version: Option<Version>, asOf: Date, month: Date): SourceRow -> int {
    (row: SourceRow) =>
      if CountsAsCash(row, asOf) && Before(asOf, WindowDate(row, asOf)) && UpTo(row.period, month)
         && AtOrAfter(row.period, OpeningAnchor(version))
      then effect(row) else 0
  }

  /** Cash ahead of the cutoff in months before the anchor, which the opening balance has in it already. */
  function AlreadyOpened(effect: SourceRow -> int, version: Option<Version>, asOf: Date,
          month: Date): SourceRow -> int {
    (row: SourceRow) =>
      if CountsAsCash(row, asOf) && Before(asOf, WindowDate(row, asOf)) && UpTo(row.period, month)
         && !AtOrAfter(row.period, OpeningAnchor(version))
      then effect(row) else 0
  }

  /** There is none of it where the cutoff is not before the anchor. */
  lemma NothingAlreadyOpened(rows: seq<SourceRow>, effect: SourceRow -> int, version: Option<Version>, asOf: Date,
          month: Date)
    requires AllWellFormed(rows) && CutoffAfterAnchor(version, asOf)
    ensures Sum(rows, AlreadyOpened(effect, version, asOf, month)) == 0
  {
    hide Sum, IsLeap, DaysIn;
    forall row | row in rows ensures AlreadyOpened(effect, version, asOf, month)(row) == 0 {
      var i :| 0 <= i < |rows| && rows[i] == row;
      MonthsOrderDates(asOf, row.business);
    }
    SumZero(rows, AlreadyOpened(effect, version, asOf, month));
  }

  /** A row of the bridge up to a month is cash in hand or still ahead, and is never both. */
  lemma RowIsInHandOrAhead(row: SourceRow, effect: SourceRow -> int, version: Option<Version>, asOf: Date, start: Date,
          month: Date)
    requires WellFormed(row) && UpTo(MonthOf(asOf), month)
    requires UpTo(start, row.period) <==> AtOrAfter(row.period, OpeningAnchor(version))
    ensures ThroughMonth(effect, start, month, asOf)(row)
            == Happened(effect, OpeningAnchor(version), asOf)(row) + StillAhead(effect, version, asOf, month)(row)
  {
    hide IsLeap, DaysIn;
    MonthsOrderDates(row.business, asOf);
    MonthsOrderDates(asOf, row.business);
    if CountsAsCash(row, asOf) { CashIsBehindOrAhead(row, asOf); }
  }

  /**
   * From the cutoff's own month on, a month closes on the cash in hand and exactly the rows of the
   * bridge's months up to it that are still ahead of the cutoff, wherever the cutoff falls.
   */
  lemma MonthClosesOnWhatIsInHandAndAhead(rows: seq<SourceRow>, version: Option<Version>, asOf: Date, start: Date,
          month: Date)
    requires AllWellFormed(rows) && StartsAtTheAnchor(rows, version, start)
    requires UpTo(start, month) && UpTo(MonthOf(asOf), month)
    requires ActualCashPosition(rows, version, asOf).CashInHand?
    ensures var p, inHand := PositionAt(rows, version, asOf, start, month), ActualCashPosition(rows, version, asOf);
            && p.closingTotal == inHand.total + Sum(rows, StillAhead(CashEffect, version, asOf, month))
            && p.closingRestricted == inHand.restricted + Sum(rows, StillAhead(HeldEffect, version, asOf, month))
            && p.closingUnrestricted == inHand.unrestricted + Sum(rows, StillAhead(UsableEffect, version, asOf, month))
  {
    hide Sum, PositionAt, ActualCashPosition;
    BridgeTelescopes(rows, version, asOf, start, month);
    CashInHandIsWhatHappened(rows, version, asOf);
    InHandAndAhead(rows, CashEffect, version, asOf, start, month);
    InHandAndAhead(rows, HeldEffect, version, asOf, start, month);
    InHandAndAhead(rows, UsableEffect, version, asOf, start, month);
  }

  lemma InHandAndAhead(rows: seq<SourceRow>, effect: SourceRow -> int, version: Option<Version>, asOf: Date,
          start: Date, month: Date)
    requires AllWellFormed(rows) && StartsAtTheAnchor(rows, version, start) && UpTo(MonthOf(asOf), month)
    ensures Sum(rows, ThroughMonth(effect, start, month, asOf))
            == Sum(rows, Happened(effect, OpeningAnchor(version), asOf))
               + Sum(rows, StillAhead(effect, version, asOf, month))
  {
    hide ThroughMonth, Happened, StillAhead, Sum, IsLeap, DaysIn, WellFormed;
    forall row | row in rows
      ensures ThroughMonth(effect, start, month, asOf)(row)
              == Happened(effect, OpeningAnchor(version), asOf)(row) + StillAhead(effect, version, asOf, month)(row)
    {
      var i :| 0 <= i < |rows| && rows[i] == row;
      RowIsInHandOrAhead(row, effect, version, asOf, start, month);
    }
    SumPlus(rows, Happened(effect, OpeningAnchor(version), asOf), StillAhead(effect, version, asOf, month),
            ThroughMonth(effect, start, month, asOf));
  }

  /** Seen from before it, a month's last day takes in exactly the rows of months up to it. */
  lemma LastDayTakesInTheMonth(rows: seq<SourceRow>, version: Option<Version>, asOf: Date, month: Date)
    requires AllWellFormed(rows) && Canonical(month) && Before(asOf, LastDayOf(month))
    ensures Sum(rows, FlowInside(UsableEffect, asOf, LastDayOf(month)))
            == Sum(rows, StillAhead(UsableEffect, version, asOf, month))
               + Sum(rows, AlreadyOpened(UsableEffect, version, asOf, month))
  {
    hide Sum, IsLeap, DaysIn;
    forall row | row in rows
      ensures FlowInside(UsableEffect, asOf, LastDayOf(month))(row)
              == StillAhead(UsableEffect, version, asOf, month)(row)
                 + AlreadyOpened(UsableEffect, version, asOf, month)(row)
    {
      var i :| 0 <= i < |rows| && rows[i] == row;
      LastDayCloses(row.business, month);
      LastDayCloses(row.period, month);
      NextDayIsNext(asOf, LastDayOf(month));
    }
    SumPlus(rows, StillAhead(UsableEffect, version, asOf, month), AlreadyOpened(UsableEffect, version, asOf, month),
            FlowInside(UsableEffect, asOf, LastDayOf(month)));
  }

  /**
   * At the last day of any month strictly after the cutoff, projected spendable cash is the month's
   * closing unrestricted cash and whatever the day view counts that the opening already holds. The
   * two views agree, then, for every cutoff that is not before the anchor.
   */
  lemma DayAndMonthAgree(rows: seq<SourceRow>, version: Option<Version>, asOf: Date, start: Date, month: Date)
    requires AllWellFormed(rows) && StartsAtTheAnchor(rows, version, start)
    requires Canonical(month) && UpTo(start, month) && Before(asOf, LastDayOf(month))
    requires ActualCashPosition(rows, version, asOf).CashInHand?
    ensures var day := DayEnd(rows, ActualCashPosition(rows, version, asOf).unrestricted, asOf, LastDayOf(month));
            var closing := PositionAt(rows, version, asOf, start, month).closingUnrestricted;
            && day == closing + Sum(rows, AlreadyOpened(UsableEffect, version, asOf, month))
            && (CutoffAfterAnchor(version, asOf) ==> day == closing)
  {
    hide Sum, PositionAt, ActualCashPosition, CutoffAfterAnchor, IsLeap, DaysIn;
    LastDayCloses(asOf, month);
    MonthClosesOnWhatIsInHandAndAhead(rows, version, asOf, start, month);
    LastDayTakesInTheMonth(rows, version, asOf, month);
    if CutoffAfterAnchor(version, asOf) { NothingAlreadyOpened(rows, UsableEffect, version, asOf, month); }
  }

  /** A window that ends on such a day closes on that figure. */
  lemma WindowClosesOnTheMonth(w: FundingWindow, rows: seq<SourceRow>, version: Option<Version>, asOf: Date, days: nat,
          start: Date, month: Date)
    requires AllWellFormed(rows) && StartsAtTheAnchor(rows, version, start)
    requires Canonical(month) && UpTo(start, month) && days > 0 && AddDays(asOf, days) == LastDayOf(month)
    requires ActualCashPosition(rows, version, asOf).CashInHand?
    requires Describes(w, rows, ActualCashPosition(rows, version, asOf).unrestricted, asOf, days)
    ensures var closing := PositionAt(rows, version, asOf, start, month).closingUnrestricted;
            && w.closing == closing + Sum(rows, AlreadyOpened(UsableEffect, version, asOf, month))
            && (CutoffAfterAnchor(version, asOf) ==> w.closing == closing)
  {
    hide Sum, PositionAt, ActualCashPosition, CutoffAfterAnchor, IsLeap, DaysIn, IsMinimum, DayEnd;
    AddDaysAdvances(asOf, days);
    DayAndMonthAgree(rows, version, asOf, start, month);
  }

  /** What a window says must be raised covers the funding gap of every month end inside it. */
  lemma RequirementCoversMonthEnds(w: FundingWindow, rows: seq<SourceRow>, version: Option<Version>, asOf: Date,
          days: nat, start: Date, month: Date)
    requires AllWellFormed(rows) && StartsAtTheAnchor(rows, version, start)
    requires Canonical(month) && UpTo(start, month)
    requires Before(asOf, LastDayOf(month)) && UpTo(LastDayOf(month), AddDays(asOf, days))
    requires ActualCashPosition(rows, version, asOf).CashInHand?
    requires Describes(w, rows, ActualCashPosition(rows, version, asOf).unrestricted, asOf, days)
    ensures var p := PositionAt(rows, version, asOf, start, month);
            && w.requirement
               >= FundingGap(p.closingUnrestricted + Sum(rows, AlreadyOpened(UsableEffect, version, asOf, month)))
            && (CutoffAfterAnchor(version, asOf) ==> w.requirement >= p.fundingGap)
  {
    hide Sum, ActualCashPosition, PositionAt, CutoffAfterAnchor, IsLeap, DaysIn, DayEnd;
    var opening := ActualCashPosition(rows, version, asOf).unrestricted;
    DayAndMonthAgree(rows, version, asOf, start, month);
    BridgeTelescopes(rows, version, asOf, start, month);
    assert w.minimum <= DayEnd(rows, opening, asOf, LastDayOf(month));
  }

  /**
   * On the month's own last day the two views part: the bridge still expects what is forecast for
   * the month as a whole, and the day view has nowhere left in the month to place it.
   */
  lemma OnTheLastDayTheyDifferByTheMonthsForecast(rows: seq<SourceRow>, version: Option<Version>, asOf: Date,
          start: Date, month: Date)
    requires AllWellFormed(rows) && StartsAtTheAnchor(rows, version, start)
    requires Canonical(month) && UpTo(start, month) && asOf == LastDayOf(month)
    requires ActualCashPosition(rows, version, asOf).CashInHand?
    ensures PositionAt(rows, version, asOf, start, month).closingUnrestricted
            == ActualCashPosition(rows, version, asOf).unrestricted
               + Sum(rows, Where(ForecastForMonth(month), UsableEffect))
  {
    hide Sum, PositionAt, ActualCashPosition, IsLeap, DaysIn;
    LastDayCloses(asOf, month);
    MonthsOrderDates(month, asOf);
    MonthClosesOnWhatIsInHandAndAhead(rows, version, asOf, start, month);
    forall row | row in rows
      ensures StillAhead(UsableEffect, version, asOf, month)(row) == Where(ForecastForMonth(month), UsableEffect)(row)
    {
      var i :| 0 <= i < |rows| && rows[i] == row;
      LastDayCloses(row.business, month);
      NextDayIsNext(asOf, asOf);
      if row.period.Key() == month.Key() { KeyDetermines(row.period, month); }
    }
    SumCongruent(rows, StillAhead(UsableEffect, version, asOf, month), Where(ForecastForMonth(month), UsableEffect));
  }

  function ForecastForMonth(month: Date): SourceRow -> bool {
    (row: SourceRow) => row.monthGrain && row.period == month
  }

  /** Cash of the months a late start leaves out, though its opening balance is from before them. */
  function Skipped(effect: SourceRow -> int, version: Option<Version>, start: Date, asOf: Date): SourceRow -> int {
    (row: SourceRow) =>
      if CountsAsCash(row, asOf) && AtOrAfter(row.period, OpeningAnchor(version)) && Before(row.period, start)
      then effect(row) else 0
  }

  /**
   * A bridge asked to start after the anchor still opens with the anchor's balance, so at every
   * month it differs from the one that starts there by exactly the cash of the months between.
   */
  lemma LateStartLosesTheMonthsBetween(rows: seq<SourceRow>, version: Version, asOf: Date, start: Date, month: Date)
    requires AllWellFormed(rows) && UpTo(version.startMonth, start) && UpTo(start, month)
    ensures PositionAt(rows, Some(version), asOf, version.startMonth, month).closingTotal
            == PositionAt(rows, Some(version), asOf, start, month).closingTotal
                + Sum(rows, Skipped(CashEffect, Some(version), start, asOf))
    ensures PositionAt(rows, Some(version), asOf, version.startMonth, month).closingUnrestricted
            == PositionAt(rows, Some(version), asOf, start, month).closingUnrestricted
                + Sum(rows, Skipped(UsableEffect, Some(version), start, asOf))
  {
    hide Sum, PositionAt, IsLeap, DaysIn;
    BridgeTelescopes(rows, Some(version), asOf, version.startMonth, month);
    BridgeTelescopes(rows, Some(version), asOf, start, month);
    Between(rows, CashEffect, version, asOf, start, month);
    Between(rows, UsableEffect, version, asOf, start, month);
  }

  lemma Between(rows: seq<SourceRow>, effect: SourceRow -> int, version: Version, asOf: Date, start: Date, month: Date)
    requires UpTo(version.startMonth, start) && UpTo(start, month)
    ensures Sum(rows, ThroughMonth(effect, version.startMonth, month, asOf))
            == Sum(rows, ThroughMonth(effect, start, month, asOf))
                + Sum(rows, Skipped(effect, Some(version), start, asOf))
  {
    hide Sum, IsLeap, DaysIn, CountsAsCash;
    SumPlus(rows, ThroughMonth(effect, start, month, asOf), Skipped(effect, Some(version), start, asOf),
            ThroughMonth(effect, version.startMonth, month, asOf));
  }

  // ---------------------------------------------------------------- where the differences are not nothing

  const JANUARY: Date := Ymd(2024, 1, 1)

  function PlannedIn(month: Date): SourceRow {
    SourceRow(ForecastLineSource, 1, month, month, 100, Outflow, Construction, Forecast, true)
  }

  /** A hundred cents of building still planned for January, seen on its last day. */
  lemma TheLastDayCanDiffer()
    ensures AllWellFormed([PlannedIn(JANUARY)])
    ensures var rows, asOf := [PlannedIn(JANUARY)], LastDayOf(JANUARY);
            && ActualCashPosition(rows, None, asOf).CashInHand?
            && PositionAt(rows, None, asOf, JANUARY, JANUARY).closingUnrestricted
               == ActualCashPosition(rows, None, asOf).unrestricted - 100
  {
    hide PositionAt, ActualCashPosition, Sum, AllWellFormed, StartsAtTheAnchor, ForecastForMonth;
    var rows, asOf := [PlannedIn(JANUARY)], LastDayOf(JANUARY);
    PlannedIsWellFormed();
    InHandIsNothing(asOf);
    PlannedIsForecast();
    OnTheLastDayTheyDifferByTheMonthsForecast(rows, None, asOf, JANUARY, JANUARY);
  }

  lemma PlannedIsWellFormed()
    ensures AllWellFormed([PlannedIn(JANUARY)]) && StartsAtTheAnchor([PlannedIn(JANUARY)], None, JANUARY)
  {
  }

  lemma PlannedIsForecast()
    ensures Sum([PlannedIn(JANUARY)], Where(ForecastForMonth(JANUARY), UsableEffect)) == -100
  {
    hide Sum;
    OneRowTotal(PlannedIn(JANUARY), Where(ForecastForMonth(JANUARY), UsableEffect));
  }

  lemma OneRowTotal(row: SourceRow, f: SourceRow -> int)
    ensures Sum([row], f) == f(row)
  {
  }

  lemma InHandIsNothing(asOf: Date)
    ensures ActualCashPosition([PlannedIn(JANUARY)], None, asOf) == CashInHand(0, 0, 0)
  {
    hide IsLeap, DaysIn;
    var rows := [PlannedIn(JANUARY)];
    assert Filter(rows, HappenedBy(None, asOf)) == [];
  }

  function ReceivedOn(day: Date): SourceRow {
    SourceRow(ReceiptSource, 1, MonthOf(day), day, 100, Inflow, CustomerCollection, Actual, false)
  }

  /** A receipt of January, and a bridge anchored in January but started in February. */
  lemma ALateStartCanDiffer()
    ensures AllWellFormed([ReceivedOn(JANUARY)])
    ensures var rows, february := [ReceivedOn(JANUARY)], NextMonth(JANUARY);
            var version := Version(JANUARY, JANUARY, february, 0, 0);
            PositionAt(rows, Some(version), february, JANUARY, february).closingTotal
            == PositionAt(rows, Some(version), february, february, february).closingTotal + 100
  {
    hide PositionAt, Sum;
    var rows, february := [ReceivedOn(JANUARY)], NextMonth(JANUARY);
    var version := Version(JANUARY, JANUARY, february, 0, 0);
    LateStartLosesTheMonthsBetween(rows, version, february, february, february);
    OneRowTotal(ReceivedOn(JANUARY), Skipped(CashEffect, Some(version), february, february));
  }

  const TENTH: Date := Ymd(2024, 1, 10)
  const MARCH: Date := Ymd(2024, 3, 1)
  const FROM_MARCH: Version := Version(MARCH, MARCH, MARCH, 0, 0)

  function DueOn(day: Date): SourceRow {
    SourceRow(ScheduleSource, 1, MonthOf(day), day, 100, Inflow, CustomerCollection, Forecast, false)
  }

  /** An instalment due in February, reported on as at January, with a forecast in force that opens in March. */
  lemma AnEarlyCutoffCanDiffer()
    ensures AllWellFormed([DueOn(Ymd(2024, 2, 15))])
    ensures var rows := [DueOn(Ymd(2024, 2, 15))];
            && ActualCashPosition(rows, Some(FROM_MARCH), TENTH).CashInHand?
            && DayEnd(rows, ActualCashPosition(rows, Some(FROM_MARCH), TENTH).unrestricted, TENTH, LastDayOf(MARCH))
               == PositionAt(rows, Some(FROM_MARCH), TENTH, MARCH, MARCH).closingUnrestricted + 100
  {
    hide PositionAt, ActualCashPosition, Sum, AllWellFormed, DayEnd;
    DueIsWellFormed();
    DueIsNotInHand();
    DayAndMonthAgree([DueOn(Ymd(2024, 2, 15))], Some(FROM_MARCH), TENTH, MARCH, MARCH);
    OneRowTotal(DueOn(Ymd(2024, 2, 15)), AlreadyOpened(UsableEffect, Some(FROM_MARCH), TENTH, MARCH));
  }

  lemma DueIsWellFormed()
    ensures AllWellFormed([DueOn(Ymd(2024, 2, 15))])
  {
  }

  lemma DueIsNotInHand()
    ensures ActualCashPosition([DueOn(Ymd(2024, 2, 15))], Some(FROM_MARCH), TENTH) == CashInHand(0, 0, 0)
  {
    hide IsLeap, DaysIn;
    assert Filter([DueOn(Ymd(2024, 2, 15))], HappenedBy(Some(MARCH), TENTH)) == [];
  }
}
