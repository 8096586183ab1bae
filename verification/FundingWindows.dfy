/** The day view: a window of days walked in date order, and the cash it requires. */
module FundingWindows {
  import opened Calendar
  import opened Standing
  import opened Sums
  import opened Sorting
  import opened CashModel
  import opened Bridge

  datatype FundingWindow = FundingWindow(
    days: nat, fromDate: Date, toDate: Date,
    opening: int, usableInflows: int, outflows: int, netMovement: int,
    minimum: int, closing: int, requirement: int)

  // ---------------------------------------------------------------- the balance of a day

  /** Rows taken in by the end of a day: cash projected strictly after the cutoff, and by then. */
  function Inside(asOf: Date, day: Date): SourceRow -> bool {
    (row: SourceRow) =>
        CountsAsCash(row, asOf) && Before(asOf, WindowDate(row, asOf)) && UpTo(WindowDate(row, asOf), day)
  }

  function FlowInside(effect: SourceRow -> int, asOf: Date, day: Date): SourceRow -> int {
    Where(Inside(asOf, day), effect)
  }

  /** Spendable cash at the end of a day: what the window opens with and all that moves by then. */
  function DayEnd(rows: seq<SourceRow>, opening: int, asOf: Date, day: Date): int {
    opening + Sum(rows, FlowInside(UsableEffect, asOf, day))
  }

  /** The worst of the opening and every day end to the last, not only the days something moves. */
  ghost predicate IsMinimum(m: int, rows: seq<SourceRow>, opening: int, asOf: Date, end: Date) {
    && m <= opening
    && (forall day: Date :: Before(asOf, day) && UpTo(day, end) ==> m <= DayEnd(rows, opening, asOf, day))
    && (|| m == opening
        || exists day: Date :: Before(asOf, day) && UpTo(day, end) && m == DayEnd(rows, opening, asOf, day))
  }

  /** Raising x keeps the opening and every day end at or above zero. */
  ghost predicate KeepsSolvent(x: int, rows: seq<SourceRow>, opening: int, asOf: Date, end: Date) {
    x >= 0 && opening + x >= 0
    && forall day: Date :: Before(asOf, day) && UpTo(day, end) ==> DayEnd(rows, opening, asOf, day) + x >= 0
  }

  /** The requirement is the least that keeps the project solvent. */
  lemma RequirementIsLeast(m: int, rows: seq<SourceRow>, opening: int, asOf: Date, end: Date)
    requires IsMinimum(m, rows, opening, asOf, end)
    ensures KeepsSolvent(FundingGap(m), rows, opening, asOf, end)
    ensures forall x :: KeepsSolvent(x, rows, opening, asOf, end) ==> FundingGap(m) <= x
  {
    hide DayEnd, Before, UpTo;
    if m != opening {
      var day :| Before(asOf, day) && UpTo(day, end) && m == DayEnd(rows, opening, asOf, day);
    }
  }

  /** A longer window can only find a deeper trough. */
  lemma LongerWindowsNeedNoLess(m: int, m': int, rows: seq<SourceRow>, opening: int, asOf: Date, days: nat, days': nat)
    requires days <= days'
    requires IsMinimum(m, rows, opening, asOf, AddDays(asOf, days))
    requires IsMinimum(m', rows, opening, asOf, AddDays(asOf, days'))
    ensures m' <= m && FundingGap(m) <= FundingGap(m')
  {
    hide DayEnd, IsLeap, DaysIn;
    AddDaysMonotone(asOf, days, days');
  }

  lemma DayEndIgnoresRowOrder(rows: seq<SourceRow>, again: seq<SourceRow>, opening: int, asOf: Date, day: Date)
    requires multiset(rows) == multiset(again)
    ensures DayEnd(rows, opening, asOf, day) == DayEnd(again, opening, asOf, day)
  {
    SumPermuted(rows, again, FlowInside(UsableEffect, asOf, day));
  }

  // ---------------------------------------------------------------- columns of a window

  const CashInEffect: SourceRow -> int := (row: SourceRow) => if IsCashIn(row) then row.amount else 0
  const CashOutEffect: SourceRow -> int := (row: SourceRow) => if IsCashOut(row) then row.amount else 0

  /** What a window reports, each figure stated over the whole list of rows. */
  ghost predicate Describes(w: FundingWindow, rows: seq<SourceRow>, opening: int, asOf: Date, days: nat) {
    var end := AddDays(asOf, days);
    && w.days == days && w.fromDate == asOf && w.toDate == end && w.opening == opening
    && w.outflows == Sum(rows, FlowInside(CashOutEffect, asOf, end))
    && w.usableInflows == Sum(rows, FlowInside(CashInEffect, asOf, end)) - Sum(rows, FlowInside(HeldEffect, asOf, end))
    && w.netMovement == w.usableInflows - w.outflows
    && w.closing == DayEnd(rows, opening, asOf, end)
    && IsMinimum(w.minimum, rows, opening, asOf, end)
    && w.requirement == FundingGap(w.minimum)
  }

  /** A window closes on its opening plus its net movement. */
  lemma WindowBalances(w: FundingWindow, rows: seq<SourceRow>, opening: int, asOf: Date, days: nat)
    requires Describes(w, rows, opening, asOf, days)
    ensures w.closing == w.opening + w.netMovement
  {
    hide IsMinimum, AddDays;
    var end := AddDays(asOf, days);
    var kept := FlowInside(HeldEffect, asOf, end);
    var cash := FlowInside(CashEffect, asOf, end);
    SumPlus(rows, cash, FlowInside(CashOutEffect, asOf, end), FlowInside(CashInEffect, asOf, end));
    SumPlus(rows, FlowInside(UsableEffect, asOf, end), kept, cash);
  }

  /** The whole report is the same for every order the rows are listed in. */
  lemma RowOrderDoesNotMatter(w: FundingWindow, w': FundingWindow, rows: seq<SourceRow>, again: seq<SourceRow>,
          opening: int, asOf: Date, days: nat)
    requires multiset(rows) == multiset(again)
    requires Describes(w, rows, opening, asOf, days) && Describes(w', again, opening, asOf, days)
    ensures w == w'
  {
    var end := AddDays(asOf, days);
    SumPermuted(rows, again, FlowInside(CashOutEffect, asOf, end));
    SumPermuted(rows, again, FlowInside(CashInEffect, asOf, end));
    SumPermuted(rows, again, FlowInside(HeldEffect, asOf, end));
    DayEndIgnoresRowOrder(rows, again, opening, asOf, end);
    MinimumIgnoresRowOrder(w'.minimum, again, rows, opening, asOf, end);
  }

  lemma MinimumIgnoresRowOrder(m: int, rows: seq<SourceRow>, again: seq<SourceRow>, opening: int, asOf: Date, end: Date)
    requires multiset(rows) == multiset(again) && IsMinimum(m, rows, opening, asOf, end)
    ensures IsMinimum(m, again, opening, asOf, end)
  {
    hide DayEnd, Before, UpTo;
    forall day: Date ensures DayEnd(rows, opening, asOf, day) == DayEnd(again, opening, asOf, day) {
      DayEndIgnoresRowOrder(rows, again, opening, asOf, day);
    }
  }

  // ---------------------------------------------------------------- grouping by day

  ghost predicate InWindow(day: Date, asOf: Date, end: Date) {
    Before(asOf, day) && UpTo(day, end)
  }

  predicate OnDay(row: SourceRow, asOf: Date, end: Date, day: Date) {
    WindowDate(row, asOf) == day && Before(asOf, day) && UpTo(day, end)
  }

  function On(asOf: Date, end: Date, day: Date): SourceRow -> bool {
    (row: SourceRow) => OnDay(row, asOf, end, day)
  }

  function Get(byDay: map<Date, seq<SourceRow>>, day: Date): seq<SourceRow> {
    if day in byDay then byDay[day] else []
  }

  /** The window's rows grouped by day in one pass, with the days in order of first appearance. */
  method GroupByDay(live: seq<SourceRow>, asOf: Date, end: Date)
    returns (byDay: map<Date, seq<SourceRow>>, days: seq<Date>)
    ensures forall day :: Get(byDay, day) == Filter(live, On(asOf, end, day))
    ensures forall day :: day in byDay ==> byDay[day] != []
    ensures Distinct(days) && forall day :: day in days <==> day in byDay
  {
    hide IsLeap, DaysIn, WindowDate, Before, UpTo;
    byDay := map[];
    days := [];
    for i := 0 to |live|
      invariant forall day :: Get(byDay, day) == Filter(live[..i], On(asOf, end, day))
      invariant forall day :: day in byDay ==> byDay[day] != []
      invariant Distinct(days) && forall day :: day in days <==> day in byDay
    {
      assert live[..i + 1][..i] == live[..i];
      var day := WindowDate(live[i], asOf);
      if Before(asOf, day) && UpTo(day, end) {
        if day !in byDay {
          days := days + [day];
        }
        byDay := byDay[day := Get(byDay, day) + [live[i]]];
      }
    }
    assert live[..|live|] == live;
  }

  // ---------------------------------------------------------------- the walk

  const ByDate: (Date, Date) -> bool := (a: Date, b: Date) => UpTo(a, b)

  /** Days the walk has to visit: ascending, inside the window, and every day something moves on. */
  ghost predicate Visits(days: seq<Date>, rows: seq<SourceRow>, asOf: Date, end: Date) {
    && (forall i :: 0 <= i < |days| ==> InWindow(days[i], asOf, end))
    && (forall i, j :: 0 <= i < j < |days| ==> Before(days[i], days[j]))
    && (forall row :: row in rows && CountsAsCash(row, asOf) && InWindow(WindowDate(row, asOf), asOf, end) ==>
          WindowDate(row, asOf) in days)
  }

  /** What has moved when the walk is about to visit the i-th day. */
  function Moved(effect: SourceRow -> int, asOf: Date, end: Date, days: seq<Date>, i: nat): SourceRow -> int
    requires i <= |days|
  {
    (row: SourceRow) =>
      if Inside(asOf, end)(row) && (i < |days| ==> Before(WindowDate(row, asOf), days[i])) then effect(row) else 0
  }

  lemma NothingMovedYet(rows: seq<SourceRow>, effect: SourceRow -> int, asOf: Date, end: Date, days: seq<Date>)
    requires Visits(days, rows, asOf, end)
    ensures Sum(rows, Moved(effect, asOf, end, days, 0)) == 0
  {
    forall row | row in rows ensures Moved(effect, asOf, end, days, 0)(row) == 0 {
      if Inside(asOf, end)(row) {
        assert WindowDate(row, asOf) in days;
        var k :| 0 <= k < |days| && days[k] == WindowDate(row, asOf);
        assert k == 0 || Before(days[0], days[k]);
      }
    }
    SumZero(rows, Moved(effect, asOf, end, days, 0));
  }

  /** A visit adds exactly the rows of its day. */
  lemma VisitMoves(rows: seq<SourceRow>, effect: SourceRow -> int, asOf: Date, end: Date, days: seq<Date>, i: nat)
    requires Visits(days, rows, asOf, end) && i < |days|
    ensures Sum(rows, Moved(effect, asOf, end, days, i + 1))
            == Sum(rows, Moved(effect, asOf, end, days, i))
               + Sum(Filter(Filter(rows, Counted(asOf)), On(asOf, end, days[i])), effect)
  {
    hide Sum;
    var onDay := Where(Counted(asOf), Where(On(asOf, end, days[i]), effect));
    forall row | row in rows
      ensures Moved(effect, asOf, end, days, i + 1)(row) == Moved(effect, asOf, end, days, i)(row) + onDay(row)
    {
      MovedByOneVisit(row, effect, asOf, end, days, i, rows);
    }
    SumPlus(rows, Moved(effect, asOf, end, days, i), onDay, Moved(effect, asOf, end, days, i + 1));
    SumFiltered(Filter(rows, Counted(asOf)), On(asOf, end, days[i]), effect);
    SumFiltered(rows, Counted(asOf), Where(On(asOf, end, days[i]), effect));
  }

  lemma MovedByOneVisit(row: SourceRow, effect: SourceRow -> int, asOf: Date, end: Date, days: seq<Date>, i: nat,
          rows: seq<SourceRow>)
    requires Visits(days, rows, asOf, end) && i < |days| && row in rows
    ensures Moved(effect, asOf, end, days, i + 1)(row)
            == Moved(effect, asOf, end, days, i)(row) + Where(Counted(asOf), Where(On(asOf, end, days[i]), effect))(row)
  {
    hide IsLeap, DaysIn, WindowDate, CountsAsCash;
    var day := WindowDate(row, asOf);
    if Inside(asOf, end)(row) {
      var k :| 0 <= k < |days| && days[k] == day;
      if k < i { assert Before(days[k], days[i]); }
      if k > i { assert Before(days[i], days[k]); }
      if i + 1 < |days| {
        assert Before(days[i], days[i + 1]);
        if k > i + 1 { assert Before(days[i + 1], days[k]); }
      }
    }
  }

  /** Between two visits the day-end balance does not move. */
  lemma BalanceHolds(rows: seq<SourceRow>, opening: int, asOf: Date, end: Date, days: seq<Date>, i: nat, day: Date)
    requires Visits(days, rows, asOf, end) && i <= |days| && InWindow(day, asOf, end)
    requires i > 0 ==> UpTo(days[i - 1], day)
    requires i < |days| ==> Before(day, days[i])
    ensures DayEnd(rows, opening, asOf, day) == opening + Sum(rows, Moved(UsableEffect, asOf, end, days, i))
  {
    hide Sum;
    forall row | row in rows
      ensures FlowInside(UsableEffect, asOf, day)(row) == Moved(UsableEffect, asOf, end, days, i)(row)
    {
      HoldsForRow(row, asOf, end, days, i, day, rows);
    }
    SumCongruent(rows, FlowInside(UsableEffect, asOf, day), Moved(UsableEffect, asOf, end, days, i));
  }

  lemma HoldsForRow(row: SourceRow, asOf: Date, end: Date, days: seq<Date>, i: nat, day: Date, rows: seq<SourceRow>)
    requires Visits(days, rows, asOf, end) && i <= |days| && InWindow(day, asOf, end) && row in rows
    requires i > 0 ==> UpTo(days[i - 1], day)
    requires i < |days| ==> Before(day, days[i])
    ensures FlowInside(UsableEffect, asOf, day)(row) == Moved(UsableEffect, asOf, end, days, i)(row)
  {
    hide IsLeap, DaysIn, WindowDate, CountsAsCash;
    if Inside(asOf, end)(row) {
      var k :| 0 <= k < |days| && days[k] == WindowDate(row, asOf);
      if k < i {
        assert k == i - 1 || Before(days[k], days[i - 1]);
        assert i < |days| ==> Before(days[k], days[i]);
      } else {
        assert k == i || Before(days[i], days[k]);
      }
    }
  }

  const RestrictedEffect: SourceRow -> int := (row: SourceRow) => if IsRestriction(row) then row.amount else 0
  const ReleasedEffect: SourceRow -> int := (row: SourceRow) => if IsRelease(row) then row.amount else 0

  /** The running figures of a window. */
  datatype Running = Running(balance: int, inflows: int, outflows: int, restricted: int, released: int)

  /** One day's movements, applied together before the balance is read. */
  method ApplyDay(rows: seq<SourceRow>, before: Running) returns (after: Running)
    ensures after.balance == before.balance + Sum(rows, UsableEffect)
    ensures after.inflows == before.inflows + Sum(rows, CashInEffect)
    ensures after.outflows == before.outflows + Sum(rows, CashOutEffect)
    ensures after.restricted == before.restricted + Sum(rows, RestrictedEffect)
    ensures after.released == before.released + Sum(rows, ReleasedEffect)
  {
    after := before;
    for i := 0 to |rows|
      invariant after.balance == before.balance + Sum(rows[..i], UsableEffect)
      invariant after.inflows == before.inflows + Sum(rows[..i], CashInEffect)
      invariant after.outflows == before.outflows + Sum(rows[..i], CashOutEffect)
      invariant after.restricted == before.restricted + Sum(rows[..i], RestrictedEffect)
      invariant after.released == before.released + Sum(rows[..i], ReleasedEffect)
    {
      var row := rows[i];
      assert rows[..i + 1][..i] == rows[..i];
      if row.source == RestrictionSource {
        after := after.(restricted := after.restricted + row.amount, balance := after.balance - row.amount);
      } else if row.source == ReleaseSource {
        after := after.(released := after.released + row.amount, balance := after.balance + row.amount);
      } else if row.direction == Inflow {
        after := after.(inflows := after.inflows + row.amount, balance := after.balance + row.amount);
      } else {
        after := after.(outflows := after.outflows + row.amount, balance := after.balance - row.amount);
      }
    }
    assert rows[..|rows|] == rows;
  }

  /** The running figures when the walk is about to visit the i-th day. */
  ghost predicate RunsTo(r: Running, rows: seq<SourceRow>, opening: int, asOf: Date, end: Date, days: seq<Date>, i: nat)
    requires i <= |days|
  {
    && r.balance == opening + Sum(rows, Moved(UsableEffect, asOf, end, days, i))
    && r.inflows == Sum(rows, Moved(CashInEffect, asOf, end, days, i))
    && r.outflows == Sum(rows, Moved(CashOutEffect, asOf, end, days, i))
    && r.restricted == Sum(rows, Moved(RestrictedEffect, asOf, end, days, i))
    && r.released == Sum(rows, Moved(ReleasedEffect, asOf, end, days, i))
  }

  lemma RunsFromNothing(rows: seq<SourceRow>, opening: int, asOf: Date, end: Date, days: seq<Date>)
    requires Visits(days, rows, asOf, end)
    ensures RunsTo(Running(opening, 0, 0, 0, 0), rows, opening, asOf, end, days, 0)
  {
    hide Sum, Visits;
    NothingMovedYet(rows, UsableEffect, asOf, end, days);
    NothingMovedYet(rows, CashInEffect, asOf, end, days);
    NothingMovedYet(rows, CashOutEffect, asOf, end, days);
    NothingMovedYet(rows, RestrictedEffect, asOf, end, days);
    NothingMovedYet(rows, ReleasedEffect, asOf, end, days);
  }

  lemma RunsOneDay(r: Running, r': Running, rows: seq<SourceRow>, opening: int, asOf: Date, end: Date, days: seq<Date>,
          i: nat)
    requires Visits(days, rows, asOf, end) && i < |days| && RunsTo(r, rows, opening, asOf, end, days, i)
    requires var day := Filter(Filter(rows, Counted(asOf)), On(asOf, end, days[i]));
             && r'.balance == r.balance + Sum(day, UsableEffect)
             && r'.inflows == r.inflows + Sum(day, CashInEffect)
             && r'.outflows == r.outflows + Sum(day, CashOutEffect)
             && r'.restricted == r.restricted + Sum(day, RestrictedEffect)
             && r'.released == r.released + Sum(day, ReleasedEffect)
    ensures RunsTo(r', rows, opening, asOf, end, days, i + 1)
  {
    hide Sum, Filter, Visits;
    VisitMoves(rows, UsableEffect, asOf, end, days, i);
    VisitMoves(rows, CashInEffect, asOf, end, days, i);
    VisitMoves(rows, CashOutEffect, asOf, end, days, i);
    VisitMoves(rows, RestrictedEffect, asOf, end, days, i);
    VisitMoves(rows, ReleasedEffect, asOf, end, days, i);
  }

  lemma AllMoved(rows: seq<SourceRow>, effect: SourceRow -> int, asOf: Date, end: Date, days: seq<Date>)
    ensures Sum(rows, Moved(effect, asOf, end, days, |days|)) == Sum(rows, FlowInside(effect, asOf, end))
  {
    SumCongruent(rows, Moved(effect, asOf, end, days, |days|), FlowInside(effect, asOf, end));
  }

  /** The worst balance before the i-th day is visited. */
  ghost predicate WorstSoFar(m: int, rows: seq<SourceRow>, opening: int, asOf: Date, end: Date, days: seq<Date>, i: nat)
    requires i <= |days|
  {
    && m <= opening
    && (forall day: Date :: InWindow(day, asOf, end) && (i < |days| ==> Before(day, days[i])) ==>
          m <= DayEnd(rows, opening, asOf, day))
    && (m == opening || exists day: Date :: InWindow(day, asOf, end) && m == DayEnd(rows, opening, asOf, day))
  }

  lemma WorstAtFirst(rows: seq<SourceRow>, opening: int, asOf: Date, end: Date, days: seq<Date>)
    requires Visits(days, rows, asOf, end)
    ensures WorstSoFar(opening, rows, opening, asOf, end, days, 0)
  {
    hide Sum, DayEnd, IsLeap, DaysIn, Before;
    forall day: Date | InWindow(day, asOf, end) && (0 < |days| ==> Before(day, days[0]))
      ensures opening <= DayEnd(rows, opening, asOf, day)
    {
      BalanceHolds(rows, opening, asOf, end, days, 0, day);
      NothingMovedYet(rows, UsableEffect, asOf, end, days);
    }
  }

  lemma WorstAfterDay(m: int, rows: seq<SourceRow>, opening: int, asOf: Date, end: Date, days: seq<Date>, i: nat,
          balance: int)
    requires Visits(days, rows, asOf, end) && i < |days|
    requires WorstSoFar(m, rows, opening, asOf, end, days, i)
    requires balance == opening + Sum(rows, Moved(UsableEffect, asOf, end, days, i + 1))
    ensures WorstSoFar(if balance < m then balance else m, rows, opening, asOf, end, days, i + 1)
  {
    hide Sum, DayEnd, IsLeap, DaysIn, Moved, Inside;
    var m' := if balance < m then balance else m;
    assert i + 1 < |days| ==> Before(days[i], days[i + 1]);
    BalanceHolds(rows, opening, asOf, end, days, i + 1, days[i]);
    forall day: Date | InWindow(day, asOf, end) && (i + 1 < |days| ==> Before(day, days[i + 1]))
      ensures m' <= DayEnd(rows, opening, asOf, day)
    {
      if !Before(day, days[i]) {
        BalanceHolds(rows, opening, asOf, end, days, i + 1, day);
      }
    }
  }

  /** Sorted, the days of a grouping are what the walk has to visit. */
  lemma SortedDaysVisit(days: seq<Date>, byDay: map<Date, seq<SourceRow>>, rows: seq<SourceRow>, asOf: Date, end: Date)
    requires Distinct(days) && forall day :: day in days <==> day in byDay
    requires forall day :: Get(byDay, day) == Filter(Filter(rows, Counted(asOf)), On(asOf, end, day))
    requires forall day :: day in byDay ==> byDay[day] != []
    ensures Visits(SortBy(days, ByDate), rows, asOf, end)
    ensures forall day :: day in SortBy(days, ByDate) ==> day in byDay
  {
    hide WindowDate, CountsAsCash, IsLeap, DaysIn, SortBy, Before, UpTo;
    var sorted := SortBy(days, ByDate);
    SortedDaysAscend(days);
    forall day | day in byDay ensures InWindow(day, asOf, end) {
      DayOfGroup(rows, asOf, end, day);
    }
    forall row | row in rows && CountsAsCash(row, asOf) && InWindow(WindowDate(row, asOf), asOf, end)
      ensures WindowDate(row, asOf) in sorted
    {
      GroupOfRow(row, rows, asOf, end);
    }
  }

  lemma DayOfGroup(rows: seq<SourceRow>, asOf: Date, end: Date, day: Date)
    requires Filter(Filter(rows, Counted(asOf)), On(asOf, end, day)) != []
    ensures InWindow(day, asOf, end)
  {
    var group := Filter(Filter(rows, Counted(asOf)), On(asOf, end, day));
    assert group[0] in group;
  }

  lemma GroupOfRow(row: SourceRow, rows: seq<SourceRow>, asOf: Date, end: Date)
    requires row in rows && CountsAsCash(row, asOf) && InWindow(WindowDate(row, asOf), asOf, end)
    ensures Filter(Filter(rows, Counted(asOf)), On(asOf, end, WindowDate(row, asOf))) != []
  {
    assert row in Filter(Filter(rows, Counted(asOf)), On(asOf, end, WindowDate(row, asOf)));
  }

  lemma SortedDaysAscend(days: seq<Date>)
    requires Distinct(days)
    ensures var sorted := SortBy(days, ByDate);
            forall i, j :: 0 <= i < j < |sorted| ==> Before(sorted[i], sorted[j])
  {
    hide IsLeap, DaysIn;
    var sorted := SortBy(days, ByDate);
    assert TotalPreorder(ByDate);
    SortIsSorted(days, ByDate);
    PermutationKeepsDistinct(days, sorted);
    forall i, j | 0 <= i < j < |sorted| ensures Before(sorted[i], sorted[j]) {
      assert ByDate(sorted[i], sorted[j]);
      if sorted[i].Key() == sorted[j].Key() { KeyDetermines(sorted[i], sorted[j]); }
    }
  }

  /** One window, its rows applied a day at a time. */
  method OneWindow(live: seq<SourceRow>, ghost rows: seq<SourceRow>, opening: int, asOf: Date, days: nat)
    returns (w: FundingWindow)
    requires live == Filter(rows, Counted(asOf))
    ensures Describes(w, rows, opening, asOf, days)
  {
    hide Sum, Filter, WindowDate, CountsAsCash, IsLeap, DaysIn, Before, UpTo, DayEnd, Moved, Visits, WorstSoFar, SortBy,
         FlowInside, RunsTo;
    var end := AddDays(asOf, days);
    var byDay, found := GroupByDay(live, asOf, end);
    SortedDaysVisit(found, byDay, rows, asOf, end);
    var visit := SortBy(found, ByDate);
    var running := Running(opening, 0, 0, 0, 0);
    var minimum := opening;
    RunsFromNothing(rows, opening, asOf, end, visit);
    WorstAtFirst(rows, opening, asOf, end, visit);
    for i := 0 to |visit|
      invariant RunsTo(running, rows, opening, asOf, end, visit, i)
      invariant WorstSoFar(minimum, rows, opening, asOf, end, visit, i)
    {
      assert Get(byDay, visit[i]) == byDay[visit[i]];
      ghost var before := running;
      running := ApplyDay(byDay[visit[i]], running);
      RunsOneDay(before, running, rows, opening, asOf, end, visit, i);
      BalanceOf(running, rows, opening, asOf, end, visit, i + 1);
      WorstAfterDay(minimum, rows, opening, asOf, end, visit, i, running.balance);
      minimum := if running.balance < minimum then running.balance else minimum;
    }
    var usable := running.inflows - running.restricted + running.released;
    w := FundingWindow(days, asOf, end, opening, usable, running.outflows, usable - running.outflows,
                       minimum, running.balance, FundingGap(minimum));
    WalkDescribes(running, minimum, rows, opening, asOf, end, visit);
  }

  lemma BalanceOf(r: Running, rows: seq<SourceRow>, opening: int, asOf: Date, end: Date, days: seq<Date>, i: nat)
    requires i <= |days| && RunsTo(r, rows, opening, asOf, end, days, i)
    ensures r.balance == opening + Sum(rows, Moved(UsableEffect, asOf, end, days, i))
  {
  }

  lemma WalkDescribes(r: Running, m: int, rows: seq<SourceRow>, opening: int, asOf: Date, end: Date, days: seq<Date>)
    requires RunsTo(r, rows, opening, asOf, end, days, |days|)
    requires WorstSoFar(m, rows, opening, asOf, end, days, |days|)
    ensures r.balance == DayEnd(rows, opening, asOf, end)
    ensures r.outflows == Sum(rows, FlowInside(CashOutEffect, asOf, end))
    ensures r.inflows - r.restricted + r.released
            == Sum(rows, FlowInside(CashInEffect, asOf, end)) - Sum(rows, FlowInside(HeldEffect, asOf, end))
    ensures IsMinimum(m, rows, opening, asOf, end)
  {
    hide Sum, WindowDate, CountsAsCash, IsLeap, DaysIn;
    AllMoved(rows, UsableEffect, asOf, end, days);
    AllMoved(rows, CashInEffect, asOf, end, days);
    AllMoved(rows, CashOutEffect, asOf, end, days);
    AllMoved(rows, RestrictedEffect, asOf, end, days);
    AllMoved(rows, ReleasedEffect, asOf, end, days);
    SumPlus(rows, FlowInside(HeldEffect, asOf, end), FlowInside(ReleasedEffect, asOf, end),
            FlowInside(RestrictedEffect, asOf, end));
    forall day: Date | Before(asOf, day) && UpTo(day, end) ensures m <= DayEnd(rows, opening, asOf, day) {
      assert InWindow(day, asOf, end);
    }
  }

  datatype Windows = Windows(windows: seq<FundingWindow>) | EscrowOverdrawnNow

  /** Every window asked for, all opening with the spendable cash in hand. */
  method AllWindows(rows: seq<SourceRow>, version: Option<Version>, asOf: Date, asked: seq<nat>) returns (r: Windows)
    ensures r.EscrowOverdrawnNow? <==> ActualCashPosition(rows, version, asOf).EscrowOverdrawn?
    ensures r.Windows? ==>
              && |r.windows| == |asked|
              && forall k :: 0 <= k < |asked| ==>
                   Describes(r.windows[k], rows, ActualCashPosition(rows, version, asOf).unrestricted, asOf, asked[k])
  {
    hide Describes;
    var inHand := ActualCashPosition(rows, version, asOf);
    if inHand.EscrowOverdrawn? {
      return EscrowOverdrawnNow;
    }
    var live := Filter(rows, Counted(asOf));
    var windows: seq<FundingWindow> := [];
    for i := 0 to |asked|
      invariant |windows| == i
      invariant forall k :: 0 <= k < i ==> Describes(windows[k], rows, inHand.unrestricted, asOf, asked[k])
    {
      var w := OneWindow(live, rows, inHand.unrestricted, asOf, asked[i]);
      windows := windows + [w];
    }
    r := Windows(windows);
  }
}
