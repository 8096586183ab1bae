/** Unapplied receipts set against the earliest instalments of their sale. */
module UnappliedOffset {
  import opened Calendar
  import opened Amounts
  import opened Sums
  import opened Sorting

  datatype Instalment = Instalment(id: int, sale: int, chosen: Date, amount: int)

  function Get(m: map<int, int>, key: int): int { if key in m then m[key] else 0 }

  /** Earliest expected date first, the smaller of two due together first. */
  const EarliestFirst: (Instalment, Instalment) -> bool := (a: Instalment, b: Instalment) =>
    Before(a.chosen, b.chosen) || (a.chosen == b.chosen && a.amount <= b.amount)

  lemma EarliestFirstIsTotalPreorder()
    ensures TotalPreorder(EarliestFirst)
  {
    hide IsLeap, DaysIn;
    forall a: Instalment, b: Instalment ensures EarliestFirst(a, b) || EarliestFirst(b, a) {
      if a.chosen.Key() == b.chosen.Key() { KeyDetermines(a.chosen, b.chosen); }
    }
  }

  // ---------------------------------------------------------------- totals of a schedule

  function OfSale(sale: int): Instalment -> int {
    (row: Instalment) => if row.sale == sale then row.amount else 0
  }

  function OfSaleOn(sale: int, day: Date): Instalment -> int {
    (row: Instalment) => if row.sale == sale && row.chosen == day then row.amount else 0
  }

  function OfSaleBefore(sale: int, day: Date): Instalment -> int {
    (row: Instalment) => if row.sale == sale && Before(row.chosen, day) then row.amount else 0
  }

  // ---------------------------------------------------------------- the offset in closed form

  /** What is still expected of the k-th instalment in order. */
  function Expected(order: seq<Instalment>, k: nat, unapplied: map<int, int>): int
    requires k < |order|
  {
    var row := order[k];
    row.amount - Covered(Get(unapplied, row.sale), Sum(order[..k], OfSale(row.sale)), row.amount)
  }

  function InOrder(rows: seq<Instalment>): seq<Instalment> {
    SortBy(rows, EarliestFirst)
  }

  ghost predicate DistinctIds(rows: seq<Instalment>) {
    forall i, j :: 0 <= i < j < |rows| ==> rows[i].id != rows[j].id
  }

  ghost predicate NonNegative(rows: seq<Instalment>) {
    forall i :: 0 <= i < |rows| ==> rows[i].amount >= 0
  }

  /** The offset schedule: every instalment, at what is still expected of it. */
  ghost predicate IsOffset(adjusted: map<int, int>, rows: seq<Instalment>, unapplied: map<int, int>) {
    var order := InOrder(rows);
    forall k :: 0 <= k < |order| ==> order[k].id in adjusted && adjusted[order[k].id] == Expected(order, k, unapplied)
  }

  /** Cash left against each sale after the first instalments have been met. */
  ghost predicate CreditLeft(remaining: map<int, int>, unapplied: map<int, int>, met: seq<Instalment>) {
    forall sale :: Max0(Get(remaining, sale)) == Max0(Get(unapplied, sale) - Sum(met, OfSale(sale)))
  }

  method OffsetUnappliedCash(rows: seq<Instalment>, unapplied: map<int, int>) returns (adjusted: map<int, int>)
    requires DistinctIds(rows) && NonNegative(rows)
    ensures IsOffset(adjusted, rows, unapplied)
    ensures forall i :: 0 <= i < |rows| ==> rows[i].id in adjusted
  {
    hide EarliestFirst, SortBy, IsLeap, DaysIn, Sum;
    var order := InOrder(rows);
    OrderKeepsShape(rows);
    var remaining := unapplied;
    adjusted := map[];
    NothingMet(unapplied);
    for k := 0 to |order|
      invariant CreditLeft(remaining, unapplied, order[..k])
      invariant forall j :: 0 <= j < k ==>
                order[j].id in adjusted && adjusted[order[j].id] == Expected(order, j, unapplied)
    {
      var row := order[k];
      var credit := Get(remaining, row.sale);
      CreditAfter(remaining, unapplied, order, k);
      if credit <= 0 {
        adjusted := adjusted[row.id := row.amount];
      } else {
        var applied := Least(credit, row.amount);
        remaining := remaining[row.sale := credit - applied];
        adjusted := adjusted[row.id := row.amount - applied];
      }
    }
    forall i | 0 <= i < |rows| ensures rows[i].id in adjusted {
      assert rows[i] in order;
      var k :| 0 <= k < |order| && order[k] == rows[i];
    }
  }

  lemma NothingMet(unapplied: map<int, int>)
    ensures CreditLeft(unapplied, unapplied, [])
  {
  }

  lemma OrderKeepsShape(rows: seq<Instalment>)
    requires DistinctIds(rows) && NonNegative(rows)
    ensures DistinctIds(InOrder(rows)) && NonNegative(InOrder(rows))
    ensures multiset(InOrder(rows)) == multiset(rows)
  {
    var order := InOrder(rows);
    forall i | 0 <= i < |order| ensures order[i].amount >= 0 {
      assert order[i] in rows;
    }
    IdsStayDistinct(rows, order);
  }

  lemma IdsStayDistinct(s: seq<Instalment>, t: seq<Instalment>)
    requires DistinctIds(s) && multiset(s) == multiset(t)
    ensures DistinctIds(t)
  {
    PermutationKeepsDistinct(s, t);
    SameMultisetSameElements(t, s);
    forall i, j | 0 <= i < j < |t| ensures t[i].id != t[j].id {
      assert t[i] in s && t[j] in s && t[i] != t[j];
    }
  }

  /** What one instalment takes from its sale's credit. */
  lemma CreditAfter(remaining: map<int, int>, unapplied: map<int, int>, order: seq<Instalment>, k: nat)
    requires k < |order| && order[k].amount >= 0 && CreditLeft(remaining, unapplied, order[..k])
    ensures var row, credit := order[k], Get(remaining, order[k].sale);
            var applied := Least(credit, row.amount);
            && (credit <= 0 ==>
                  CreditLeft(remaining, unapplied, order[..k + 1]) && Expected(order, k, unapplied) == row.amount)
            && (credit > 0 ==>
                  && CreditLeft(remaining[row.sale := credit - applied], unapplied, order[..k + 1])
                  && Expected(order, k, unapplied) == row.amount - applied)
  {
    hide Sum;
    var row := order[k];
    assert order[..k + 1] == order[..k] + [row];
    forall sale
      ensures Sum(order[..k + 1], OfSale(sale))
              == Sum(order[..k], OfSale(sale)) + (if row.sale == sale then row.amount else 0)
    {
      SumSnoc(order[..k], row, OfSale(sale));
    }
  }

  // ---------------------------------------------------------------- what the offset does

  /** No instalment is offset below nothing or above itself. */
  lemma ExpectedIsWithin(order: seq<Instalment>, k: nat, unapplied: map<int, int>)
    requires NonNegative(order) && k < |order|
    ensures 0 <= Expected(order, k, unapplied) <= order[k].amount
  {
  }

  /** Total still expected of a sale. */
  function ExpectedOfSale(order: seq<Instalment>, unapplied: map<int, int>, sale: int): int {
    if order == [] then 0
    else
      var n := |order| - 1;
      ExpectedOfSale(order[..n], unapplied, sale) + (if order[n].sale == sale then Expected(order, n, unapplied) else 0)
  }

  function ExpectedOfSaleOn(order: seq<Instalment>, unapplied: map<int, int>, sale: int, day: Date): int {
    if order == [] then 0
    else
      var n := |order| - 1;
      ExpectedOfSaleOn(order[..n], unapplied, sale, day)
      + (if order[n].sale == sale && order[n].chosen == day then Expected(order, n, unapplied) else 0)
  }

  /** Cash arrives once: a sale's schedule falls by exactly its unapplied cash, as far as it goes. */
  lemma {:induction false} SaleFallsByItsCash(order: seq<Instalment>, unapplied: map<int, int>, sale: int)
    requires NonNegative(order)
    ensures var scheduled := Sum(order, OfSale(sale));
            && scheduled >= 0
            && ExpectedOfSale(order, unapplied, sale) == scheduled - Least(Max0(Get(unapplied, sale)), scheduled)
  {
    if order != [] {
      SaleFallsByItsCash(order[..|order| - 1], unapplied, sale);
    }
  }

  /** Credit covers an earliest-first prefix of a sale, and at most one instalment in part. */
  lemma CoverIsAPrefix(order: seq<Instalment>, unapplied: map<int, int>, i: nat, j: nat)
    requires NonNegative(order) && i < j < |order| && order[i].sale == order[j].sale
    requires Expected(order, j, unapplied) < order[j].amount
    ensures Expected(order, i, unapplied) == 0
  {
    var f := OfSale(order[i].sale);
    assert order[..j] == order[..i + 1] + order[i + 1..j] && order[..i + 1] == order[..i] + [order[i]];
    SumAppend(order[..i + 1], order[i + 1..j], f);
    SumSnoc(order[..i], order[i], f);
    SumNonNegative(order[i + 1..j], f);
  }

  /** With dates in order, what is expected of a sale on a day depends only on what falls due by then. */
  lemma {:induction false} DayFallsByWhatIsLeft(order: seq<Instalment>, unapplied: map<int, int>, sale: int, day: Date)
    requires NonNegative(order)
    requires forall i, j :: 0 <= i < j < |order| ==> UpTo(order[i].chosen, order[j].chosen)
    ensures var due, earlier := Sum(order, OfSaleOn(sale, day)), Sum(order, OfSaleBefore(sale, day));
            && due >= 0
            && ExpectedOfSaleOn(order, unapplied, sale, day) == due - Covered(Get(unapplied, sale), earlier, due)
  {
    hide IsLeap, DaysIn;
    if order != [] {
      var n := |order| - 1;
      DayFallsByWhatIsLeft(order[..n], unapplied, sale, day);
      if order[n].sale == sale && order[n].chosen == day {
        AllDueByNow(order[..n], sale, day);
      } else if !Before(day, order[n].chosen) {
        if order[n].chosen.Key() == day.Key() { KeyDetermines(order[n].chosen, day); }
        NothingDueYet(order[..n], sale, day, order[n]);
      }
    }
  }

  lemma AllDueByNow(order: seq<Instalment>, sale: int, day: Date)
    requires forall i :: 0 <= i < |order| ==> UpTo(order[i].chosen, day)
    ensures Sum(order, OfSale(sale)) == Sum(order, OfSaleOn(sale, day)) + Sum(order, OfSaleBefore(sale, day))
  {
    hide IsLeap, DaysIn;
    forall row | row in order ensures OfSale(sale)(row) == OfSaleOn(sale, day)(row) + OfSaleBefore(sale, day)(row) {
      if row.chosen.Key() == day.Key() { KeyDetermines(row.chosen, day); }
    }
    SumPlus(order, OfSaleOn(sale, day), OfSaleBefore(sale, day), OfSale(sale));
  }

  /** A day later than everything so far, save perhaps the same sale's own later rows, has nothing due. */
  lemma NothingDueYet(order: seq<Instalment>, sale: int, day: Date, last: Instalment)
    requires forall i :: 0 <= i < |order| ==> UpTo(order[i].chosen, last.chosen)
    requires UpTo(last.chosen, day) && (last.chosen == day ==> last.sale != sale)
    ensures last.chosen != day ==> Sum(order, OfSaleOn(sale, day)) == 0
  {
    hide IsLeap, DaysIn;
    if last.chosen != day {
      if last.chosen.Key() == day.Key() { KeyDetermines(last.chosen, day); }
      SumZero(order, OfSaleOn(sale, day));
    }
  }

  lemma OrderIsByDate(rows: seq<Instalment>)
    ensures var order := InOrder(rows); forall i, j :: 0 <= i < j < |order| ==> UpTo(order[i].chosen, order[j].chosen)
  {
    hide IsLeap, DaysIn;
    EarliestFirstIsTotalPreorder();
    SortIsSorted(rows, EarliestFirst);
    var order := InOrder(rows);
    forall i, j | 0 <= i < j < |order| ensures UpTo(order[i].chosen, order[j].chosen) {
      assert EarliestFirst(order[i], order[j]);
    }
  }

  lemma ExpectedIgnoresRowOrder(rows: seq<Instalment>, again: seq<Instalment>, unapplied: map<int, int>, sale: int,
          day: Date)
    requires NonNegative(rows) && NonNegative(again) && multiset(rows) == multiset(again)
    ensures ExpectedOfSaleOn(InOrder(rows), unapplied, sale, day)
            == ExpectedOfSaleOn(InOrder(again), unapplied, sale, day)
  {
    OrderIsByDate(rows);
    OrderIsByDate(again);
    forall i | 0 <= i < |rows| ensures InOrder(rows)[i].amount >= 0 { assert InOrder(rows)[i] in rows; }
    forall i | 0 <= i < |again| ensures InOrder(again)[i].amount >= 0 { assert InOrder(again)[i] in again; }
    DayFallsByWhatIsLeft(InOrder(rows), unapplied, sale, day);
    DayFallsByWhatIsLeft(InOrder(again), unapplied, sale, day);
    SumPermuted(InOrder(rows), InOrder(again), OfSaleOn(sale, day));
    SumPermuted(InOrder(rows), InOrder(again), OfSaleBefore(sale, day));
  }

  // ---------------------------------------------------------------- read back from the result

  function AdjustedOfSale(adjusted: map<int, int>, sale: int): Instalment -> int {
    (row: Instalment) => if row.sale == sale then Get(adjusted, row.id) else 0
  }

  lemma {:induction false} LookedUpInOrder(order: seq<Instalment>, n: nat, adjusted: map<int, int>,
          unapplied: map<int, int>, sale: int)
    requires n <= |order|
    requires forall k :: 0 <= k < n ==>
              order[k].id in adjusted && adjusted[order[k].id] == Expected(order, k, unapplied)
    ensures Sum(order[..n], AdjustedOfSale(adjusted, sale)) == ExpectedOfSale(order[..n], unapplied, sale)
  {
    if n > 0 {
      LookedUpInOrder(order, n - 1, adjusted, unapplied, sale);
      assert order[..n][..n - 1] == order[..n - 1];
    }
  }

  /** The result, summed over the rows as given: each sale's schedule less its unapplied cash. */
  lemma OffsetConserves(adjusted: map<int, int>, rows: seq<Instalment>, unapplied: map<int, int>, sale: int)
    requires DistinctIds(rows) && NonNegative(rows) && IsOffset(adjusted, rows, unapplied)
    ensures var scheduled := Sum(rows, OfSale(sale));
            Sum(rows, AdjustedOfSale(adjusted, sale)) == scheduled - Least(Max0(Get(unapplied, sale)), scheduled)
  {
    var order := InOrder(rows);
    OrderKeepsShape(rows);
    LookedUpInOrder(order, |order|, adjusted, unapplied, sale);
    assert order[..|order|] == order;
    SaleFallsByItsCash(order, unapplied, sale);
    SumPermuted(order, rows, OfSale(sale));
    SumPermuted(order, rows, AdjustedOfSale(adjusted, sale));
  }

  function AdjustedOfSaleOn(adjusted: map<int, int>, sale: int, day: Date): Instalment -> int {
    (row: Instalment) => if row.sale == sale && row.chosen == day then Get(adjusted, row.id) else 0
  }

  lemma {:induction false} LookedUpOnDay(
      order: seq<Instalment>, n: nat, adjusted: map<int, int>, unapplied: map<int, int>, sale: int, day: Date)
    requires n <= |order|
    requires forall k :: 0 <= k < n ==>
              order[k].id in adjusted && adjusted[order[k].id] == Expected(order, k, unapplied)
    ensures Sum(order[..n], AdjustedOfSaleOn(adjusted, sale, day)) == ExpectedOfSaleOn(order[..n], unapplied, sale, day)
  {
    hide IsLeap, DaysIn;
    if n > 0 {
      LookedUpOnDay(order, n - 1, adjusted, unapplied, sale, day);
      assert order[..n][..n - 1] == order[..n - 1];
    }
  }

  lemma DayOfResult(adjusted: map<int, int>, rows: seq<Instalment>, unapplied: map<int, int>, sale: int, day: Date)
    requires DistinctIds(rows) && NonNegative(rows) && IsOffset(adjusted, rows, unapplied)
    ensures Sum(rows, AdjustedOfSaleOn(adjusted, sale, day)) == ExpectedOfSaleOn(InOrder(rows), unapplied, sale, day)
  {
    var order := InOrder(rows);
    OrderKeepsShape(rows);
    LookedUpOnDay(order, |order|, adjusted, unapplied, sale, day);
    assert order[..|order|] == order;
    SumPermuted(order, rows, AdjustedOfSaleOn(adjusted, sale, day));
  }

  /** Two results over one schedule, its rows in any two orders, leave the same to expect of each sale on each day. */
  lemma DaysIgnoreRowOrder(
      adjusted: map<int, int>, rows: seq<Instalment>, again: map<int, int>, reordered: seq<Instalment>,
      unapplied: map<int, int>, sale: int, day: Date)
    requires DistinctIds(rows) && NonNegative(rows) && IsOffset(adjusted, rows, unapplied)
    requires multiset(rows) == multiset(reordered) && IsOffset(again, reordered, unapplied)
    ensures Sum(rows, AdjustedOfSaleOn(adjusted, sale, day)) == Sum(reordered, AdjustedOfSaleOn(again, sale, day))
  {
    hide Sum, InOrder, IsOffset;
    IdsStayDistinct(rows, reordered);
    forall i | 0 <= i < |reordered| ensures reordered[i].amount >= 0 {
      assert reordered[i] in multiset(rows);
    }
    DayOfResult(adjusted, rows, unapplied, sale, day);
    DayOfResult(again, reordered, unapplied, sale, day);
    ExpectedIgnoresRowOrder(rows, reordered, unapplied, sale, day);
  }
}
