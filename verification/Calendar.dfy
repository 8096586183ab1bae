/** Dates, and the canonical first-of-month every period column holds. */
module Calendar {

  datatype YearMonthDay = Ymd(year: int, month: int, day: int) {
    /** Chronological order, as one number. */
    function Key(): int { MonthIndex() * 32 + day }

    function MonthIndex(): int { year * 12 + month - 1 }
  }

  predicate IsLeap(year: int) {
    year % 4 == 0 && (year % 100 != 0 || year % 400 == 0)
  }

  function DaysIn(year: int, month: int): (n: int)
    ensures 28 <= n <= 31
  {
    if month == 2 then (if IsLeap(year) then 29 else 28)
    else if month == 4 || month == 6 || month == 9 || month == 11 then 30 else 31
  }

  type Date = d: YearMonthDay | 1 <= d.month <= 12 && 1 <= d.day <= DaysIn(d.year, d.month)
    witness Ymd(1, 1, 1)

  predicate Before(a: Date, b: Date) { a.Key() < b.Key() }

  predicate UpTo(a: Date, b: Date) { a.Key() <= b.Key() }

  function Latest(a: Date, b: Date): Date { if a.Key() < b.Key() then b else a }

  function MonthOf(d: Date): Date { Ymd(d.year, d.month, 1) }

  predicate Canonical(d: Date) { d.day == 1 }

  function NextMonth(m: Date): Date {
    if m.month == 12 then Ymd(m.year + 1, 1, 1) else Ymd(m.year, m.month + 1, 1)
  }

  /** `day + timedelta(days=1)`. */
  function NextDay(d: Date): Date {
    if d.day < DaysIn(d.year, d.month) then Ymd(d.year, d.month, d.day + 1) else NextMonth(d)
  }

  function AddDays(d: Date, days: nat): Date {
    if days == 0 then d else NextDay(AddDays(d, days - 1))
  }

  function LastDayOf(m: Date): Date { Ymd(m.year, m.month, DaysIn(m.year, m.month)) }

  lemma KeyDetermines(a: Date, b: Date)
    requires a.Key() == b.Key()
    ensures a == b
  {
    hide IsLeap, DaysIn;
    SameParts(a.MonthIndex(), a.day, b.MonthIndex(), b.day);
    SameMonth(a, b);
  }

  lemma SameParts(i: int, d: int, j: int, e: int)
    requires 1 <= d <= 31 && 1 <= e <= 31 && i * 32 + d == j * 32 + e
    ensures i == j && d == e
  {
  }

  lemma KeysCompare(a: Date, b: Date)
    ensures a.Key() <= b.Key()
            <==> a.MonthIndex() < b.MonthIndex() || (a.MonthIndex() == b.MonthIndex() && a.day <= b.day)
  {
    hide IsLeap, DaysIn;
  }

  lemma SameMonth(a: Date, b: Date)
    requires a.MonthIndex() == b.MonthIndex()
    ensures a.year == b.year && a.month == b.month
  {
    hide IsLeap, DaysIn;
  }

  /** Months keep the order of their dates. */
  lemma MonthsOrderDates(a: Date, b: Date)
    ensures UpTo(a, b) ==> UpTo(MonthOf(a), MonthOf(b))
    ensures Canonical(b) ==> (UpTo(b, a) <==> UpTo(b, MonthOf(a)))
  {
    hide IsLeap, DaysIn;
    KeysCompare(a, b);
    KeysCompare(b, a);
    KeysCompare(b, MonthOf(a));
    KeysCompare(MonthOf(a), MonthOf(b));
  }

  /** A date is within a month's last day exactly when its month is no later. */
  lemma LastDayCloses(a: Date, b: Date)
    ensures UpTo(a, LastDayOf(b)) <==> UpTo(MonthOf(a), MonthOf(b))
  {
    hide IsLeap, DaysIn;
    KeysCompare(a, LastDayOf(b));
    KeysCompare(MonthOf(a), MonthOf(b));
    if a.MonthIndex() == b.MonthIndex() { SameMonth(a, b); }
  }

  /** No month lies between one and the next. */
  lemma NextMonthIsNext(a: Date, b: Date)
    requires Canonical(a) && Canonical(b)
    ensures Before(a, NextMonth(b)) <==> UpTo(a, b)
  {
    hide IsLeap, DaysIn;
    KeysCompare(a, b);
    KeysCompare(NextMonth(b), a);
  }

  /** Nothing lies between a day and the next. */
  lemma NextDayIsNext(a: Date, b: Date)
    ensures Before(a, b) <==> UpTo(NextDay(a), b)
    ensures Before(a, NextDay(a))
  {
    hide IsLeap, DaysIn;
  }

  lemma {:induction false} AddDaysAdvances(d: Date, days: nat)
    ensures UpTo(d, AddDays(d, days)) && (days > 0 ==> Before(d, AddDays(d, days)))
  {
    hide IsLeap, DaysIn;
    if days > 0 {
      AddDaysAdvances(d, days - 1);
      NextDayIsNext(AddDays(d, days - 1), AddDays(d, days));
    }
  }

  /** A longer window ends no earlier. */
  lemma {:induction false} AddDaysMonotone(d: Date, m: nat, n: nat)
    requires m <= n
    ensures UpTo(AddDays(d, m), AddDays(d, n))
  {
    hide IsLeap, DaysIn;
    if m < n {
      AddDaysMonotone(d, m, n - 1);
      NextDayIsNext(AddDays(d, n - 1), AddDays(d, n));
    }
  }

  // ---------------------------------------------------------------- runs of months

  /** Every month from the first to the last, inclusive and without gaps. */
  function Months(first: Date, last: Date): (r: seq<Date>)
    requires Canonical(first) && Canonical(last)
    decreases last.MonthIndex() - first.MonthIndex()
  {
    if Before(last, first) then [] else [first] + Months(NextMonth(first), last)
  }

  lemma {:induction false} MonthsHaveNoGaps(first: Date, last: Date)
    requires Canonical(first) && Canonical(last) && UpTo(first, last)
    ensures |Months(first, last)| == last.MonthIndex() - first.MonthIndex() + 1
    ensures Months(first, last)[0] == first && Months(first, last)[|Months(first, last)| - 1] == last
    ensures forall i :: 0 <= i < |Months(first, last)| ==> Canonical(Months(first, last)[i])
    ensures forall i :: 0 <= i < |Months(first, last)| - 1 ==>
              Months(first, last)[i + 1] == NextMonth(Months(first, last)[i])
    decreases last.MonthIndex() - first.MonthIndex()
  {
    hide IsLeap, DaysIn;
    if first.MonthIndex() < last.MonthIndex() {
      MonthsHaveNoGaps(NextMonth(first), last);
    } else {
      KeyDetermines(first, last);
      assert Months(NextMonth(first), last) == [];
    }
  }

  /** The i-th month of a run is i months after its first. */
  lemma {:induction false} MonthAt(first: Date, last: Date, i: nat)
    requires Canonical(first) && Canonical(last) && i < |Months(first, last)|
    ensures Months(first, last)[i].MonthIndex() == first.MonthIndex() + i && Canonical(Months(first, last)[i])
    decreases i
  {
    hide IsLeap, DaysIn;
    if i > 0 { MonthAt(NextMonth(first), last, i - 1); }
  }

  datatype Horizon = MonthRun(months: seq<Date>) | EndsBeforeItStarts

  /** The loop that builds a run of months, refusing a horizon that ends before it starts. */
  method MonthsBetween(start: Date, end: Date) returns (r: Horizon)
    ensures r.EndsBeforeItStarts? <==> Before(end, start)
    ensures r.MonthRun? ==> r.months == Months(MonthOf(start), MonthOf(end)) && r.months != []
  {
    if Before(end, start) {
      return EndsBeforeItStarts;
    }
    MonthsOrderDates(start, end);
    var months: seq<Date> := [];
    var current, last := MonthOf(start), MonthOf(end);
    while UpTo(current, last)
      invariant Canonical(current) && months + Months(current, last) == Months(MonthOf(start), last)
      invariant months == [] ==> UpTo(current, last)
      decreases last.MonthIndex() - current.MonthIndex()
    {
      assert months + ([current] + Months(NextMonth(current), last))
          == months + [current] + Months(NextMonth(current), last);
      months := months + [current];
      current := NextMonth(current);
    }
    r := MonthRun(months);
  }
}
