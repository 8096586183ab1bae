/** The escrow ledger read into the bridge: when the restricted balance can never close below zero. */
module EscrowBridge {
  import opened Calendar
  import opened Standing
  import opened Sums
  import opened CashModel
  import opened Bridge
  import opened Assembly
  import opened EscrowHistory
  import E = Escrow
  import M = Movements
  import F = ForecastMatching
  import U = UnappliedOffset

  // ---------------------------------------------------------------- the rows a ledger contributes

  /** An escrow counts while both it and its receipt stand. */
  predicate Holds(s: E.State, bound: Instant, i: nat) {
    && i < |s.restrictions| && StandingBefore(s.restrictions[i].stamps, bound)
    && s.restrictions[i].receipt < |s.receipts| && StandingBefore(s.receipts[s.restrictions[i].receipt].stamps, bound)
  }

  function ReceiptDate(s: E.State, i: nat): Date {
    if i < |s.restrictions| && s.restrictions[i].receipt < |s.receipts| then s.receipts[s.restrictions[i].receipt].date
    else Ymd(1, 1, 1)
  }

  /** A release frees only what is held. */
  predicate Frees(s: E.State, bound: Instant, r: E.Release) {
    StandingBefore(r.stamps, bound) && Holds(s, bound, r.restriction)
  }

  function HeldIn(s: E.State, bound: Instant, n: nat): seq<HeldRow>
    requires n <= |s.restrictions|
  {
    if n == 0 then []
    else HeldIn(s, bound, n - 1)
         + (if Holds(s, bound, n - 1) then [HeldRow(n - 1, ReceiptDate(s, n - 1), s.restrictions[n - 1].amount)]
            else [])
  }

  function FreedIn(s: E.State, bound: Instant, releases: seq<E.Release>): seq<FreedRow> {
    if releases == [] then []
    else
      var r := releases[|releases| - 1];
      FreedIn(s, bound, releases[..|releases| - 1])
          + (if Frees(s, bound, r) then [FreedRow(r.id, r.date, r.amount)] else [])
  }

  /** The escrow rows of a report are those of the ledger as at its cutoff. */
  ghost predicate CarriesEscrow(rows: seq<SourceRow>, s: E.State, bound: Instant) {
    && Filter(rows, IsRestriction) == Mapped(HeldIn(s, bound, |s.restrictions|), HeldCash)
    && Filter(rows, IsRelease) == Mapped(FreedIn(s, bound, s.releases), FreedCash)
  }

  // ---------------------------------------------------------------- balances up to a date test

  /** What a row does to the restricted balance if its date passes a test. */
  function HeldWithin(test: Date -> bool): SourceRow -> int {
    (row: SourceRow) => if test(row.business) then HeldEffect(row) else 0
  }

  function HeldOf(s: E.State, bound: Instant, test: Date -> bool): nat -> int {
    (i: nat) => if Holds(s, bound, i) && test(ReceiptDate(s, i)) then s.restrictions[i].amount else 0
  }

  function FreedOf(s: E.State, bound: Instant, test: Date -> bool): E.Release -> int {
    (r: E.Release) => if Frees(s, bound, r) && test(r.date) then r.amount else 0
  }

  function Indices(n: nat): (keys: seq<nat>)
    ensures |keys| == n && forall i :: 0 <= i < n ==> keys[i] == i
  {
    seq(n, i => i)
  }

  lemma NoRowsTotal(test: Date -> bool, f: nat -> int, g: E.Release -> int)
    ensures Sum(Mapped([], HeldCash), HeldWithin(test)) == 0 && Sum(Mapped([], FreedCash), HeldWithin(test)) == 0
    ensures Sum(Indices(0), f) == 0 && Sum([], g) == 0
  {
  }

  lemma OneIndexMore(n: nat, f: nat -> int)
    ensures Sum(Indices(n + 1), f) == Sum(Indices(n), f) + f(n)
  {
    assert Indices(n + 1) == Indices(n) + [n];
    SumSnoc(Indices(n), n, f);
  }

  lemma OneHeldMore(held: seq<HeldRow>, row: HeldRow, test: Date -> bool)
    ensures Sum(Mapped(held + [row], HeldCash), HeldWithin(test))
            == Sum(Mapped(held, HeldCash), HeldWithin(test)) + if test(row.receiptDate) then row.amount else 0
  {
    hide Sum, Mapped, IsLeap, DaysIn;
    MappedSnoc(held, row, HeldCash);
    SumSnoc(Mapped(held, HeldCash), HeldCash(row), HeldWithin(test));
  }

  lemma OneFreedMore(freed: seq<FreedRow>, row: FreedRow, test: Date -> bool)
    ensures Sum(Mapped(freed + [row], FreedCash), HeldWithin(test))
            == Sum(Mapped(freed, FreedCash), HeldWithin(test)) - if test(row.date) then row.amount else 0
  {
    hide Sum, Mapped, IsLeap, DaysIn;
    MappedSnoc(freed, row, FreedCash);
    SumSnoc(Mapped(freed, FreedCash), FreedCash(row), HeldWithin(test));
  }

  lemma {:induction false} HeldRowsTotal(s: E.State, bound: Instant, test: Date -> bool, n: nat)
    requires n <= |s.restrictions|
    ensures Sum(Mapped(HeldIn(s, bound, n), HeldCash), HeldWithin(test)) == Sum(Indices(n), HeldOf(s, bound, test))
  {
    hide Sum, Mapped, Holds, ReceiptDate, IsLeap, DaysIn;
    if n == 0 {
      NoRowsTotal(test, HeldOf(s, bound, test), FreedOf(s, bound, test));
    } else {
      HeldRowsTotal(s, bound, test, n - 1);
      OneIndexMore(n - 1, HeldOf(s, bound, test));
      if Holds(s, bound, n - 1) {
        OneHeldMore(HeldIn(s, bound, n - 1), HeldRow(n - 1, ReceiptDate(s, n - 1), s.restrictions[n - 1].amount), test);
      } else {
        assert HeldIn(s, bound, n) == HeldIn(s, bound, n - 1);
      }
    }
  }

  lemma {:induction false} FreedRowsTotal(s: E.State, bound: Instant, test: Date -> bool, releases: seq<E.Release>)
    ensures Sum(Mapped(FreedIn(s, bound, releases), FreedCash), HeldWithin(test))
            == -Sum(releases, FreedOf(s, bound, test))
  {
    hide Sum, Mapped, Frees, IsLeap, DaysIn;
    if releases == [] {
      NoRowsTotal(test, HeldOf(s, bound, test), FreedOf(s, bound, test));
    } else {
      var n := |releases| - 1;
      var r := releases[n];
      FreedRowsTotal(s, bound, test, releases[..n]);
      SumSnoc(releases[..n], r, FreedOf(s, bound, test));
      assert releases == releases[..n] + [r];
      if Frees(s, bound, r) {
        OneFreedMore(FreedIn(s, bound, releases[..n]), FreedRow(r.id, r.date, r.amount), test);
      } else {
        assert FreedIn(s, bound, releases) == FreedIn(s, bound, releases[..n]);
      }
    }
  }

  lemma MappedSnoc<T>(s: seq<T>, x: T, f: T -> SourceRow)
    ensures Mapped(s + [x], f) == Mapped(s, f) + [f(x)]
  {
    assert (s + [x])[..|s|] == s;
  }

  /** A report's restricted balance is the ledger's: what is held less what is freed, by the same dates. */
  lemma RowsCarryTheBalance(rows: seq<SourceRow>, s: E.State, bound: Instant, test: Date -> bool)
    requires CarriesEscrow(rows, s, bound)
    ensures Sum(rows, HeldWithin(test))
            == Sum(Indices(|s.restrictions|), HeldOf(s, bound, test)) - Sum(s.releases, FreedOf(s, bound, test))
  {
    hide Sum, Mapped, HeldIn, FreedIn;
    HeldRowsTotal(s, bound, test, |s.restrictions|);
    FreedRowsTotal(s, bound, test, s.releases);
    SumFiltered(rows, IsRestriction, HeldWithin(test));
    SumFiltered(rows, IsRelease, HeldWithin(test));
    SumPlus(rows, Where(IsRestriction, HeldWithin(test)), Where(IsRelease, HeldWithin(test)), HeldWithin(test));
  }

  /** A date test that lets no release through before the receipt it draws on. */
  ghost predicate TakesReceiptsFirst(s: E.State, bound: Instant, test: Date -> bool) {
    forall k :: 0 <= k < |s.releases| && Frees(s, bound, s.releases[k]) && test(s.releases[k].date) ==>
      test(ReceiptDate(s, s.releases[k].restriction))
  }

  const Against: E.Release -> nat := (r: E.Release) => r.restriction

  /** One escrow never frees more than it holds, whatever the dates let through of both. */
  lemma OneEscrowCovers(s: E.State, bound: Instant, test: Date -> bool, i: nat)
    requires SoundBefore(s, bound) && TakesReceiptsFirst(s, bound, test) && i < |s.restrictions|
    ensures Buckets(s.releases, Against, FreedOf(s, bound, test))(i) <= HeldOf(s, bound, test)(i)
  {
    var mine := At(Against, i, FreedOf(s, bound, test));
    if Holds(s, bound, i) && test(ReceiptDate(s, i)) {
      forall r | r in s.releases ensures mine(r) <= FreedBefore(i, bound)(r) {
        var k :| 0 <= k < |s.releases| && s.releases[k] == r;
      }
      SumMonotone(s.releases, mine, FreedBefore(i, bound));
    } else {
      forall r | r in s.releases ensures mine(r) == 0 {
        var k :| 0 <= k < |s.releases| && s.releases[k] == r;
      }
      SumZero(s.releases, mine);
    }
  }

  /** All the escrows of a ledger together. */
  lemma LedgerCovers(s: E.State, bound: Instant, test: Date -> bool)
    requires SoundBefore(s, bound) && TakesReceiptsFirst(s, bound, test)
    ensures Sum(s.releases, FreedOf(s, bound, test)) <= Sum(Indices(|s.restrictions|), HeldOf(s, bound, test))
  {
    var keys := Indices(|s.restrictions|);
    forall r | r in s.releases ensures Against(r) in keys {
      var k :| 0 <= k < |s.releases| && s.releases[k] == r;
      assert keys[r.restriction] == r.restriction;
    }
    BucketsPartition(s.releases, keys, Against, FreedOf(s, bound, test));
    forall i | i in keys ensures Buckets(s.releases, Against, FreedOf(s, bound, test))(i) <= HeldOf(s, bound, test)(i) {
      OneEscrowCovers(s, bound, test, i);
    }
    SumMonotone(keys, Buckets(s.releases, Against, FreedOf(s, bound, test)), HeldOf(s, bound, test));
  }

  // ---------------------------------------------------------------- the bridge, exactly

  function FromTo(start: Date, month: Date): Date -> bool {
    (d: Date) => UpTo(start, MonthOf(d)) && UpTo(MonthOf(d), month)
  }

  /** What escrows received in a run of months hold, and what releases of those months free. */
  function HeldSince(s: E.State, bound: Instant, start: Date, month: Date): int {
    Sum(Indices(|s.restrictions|), HeldOf(s, bound, FromTo(start, month)))
  }

  function FreedSince(s: E.State, bound: Instant, start: Date, month: Date): int {
    Sum(s.releases, FreedOf(s, bound, FromTo(start, month)))
  }

  /** A month's restricted balance is the opening one, what has been held since the start, less what has been freed. */
  lemma RestrictedBalance(rows: seq<SourceRow>, s: E.State, version: Option<Version>, asOf: Date, start: Date,
          month: Date)
    requires AllWellFormed(rows) && CarriesEscrow(rows, s, AsOfBound(asOf)) && UpTo(start, month)
    ensures PositionAt(rows, version, asOf, start, month).closingRestricted
            == OpeningRestricted(version) + HeldSince(s, AsOfBound(asOf), start, month)
               - FreedSince(s, AsOfBound(asOf), start, month)
  {
    hide IsLeap, DaysIn, Sum, CarriesEscrow, PositionAt;
    forall row | row in rows
      ensures ThroughMonth(HeldEffect, start, month, asOf)(row) == HeldWithin(FromTo(start, month))(row)
    {
      var i :| 0 <= i < |rows| && rows[i] == row;
    }
    SumCongruent(rows, ThroughMonth(HeldEffect, start, month, asOf), HeldWithin(FromTo(start, month)));
    RowsCarryTheBalance(rows, s, AsOfBound(asOf), FromTo(start, month));
    BridgeTelescopes(rows, version, asOf, start, month);
  }

  /** A release that counts in the months of a bridge. */
  predicate FreesIn(s: E.State, bound: Instant, start: Date, end: Date, k: nat) {
    k < |s.releases| && Frees(s, bound, s.releases[k]) && FromTo(start, end)(s.releases[k].date)
  }

  /** At the month of each release, all that has been freed is within the opening balance and what has been held. */
  ghost predicate EveryReleaseIsFunded(s: E.State, bound: Instant, opening: int, start: Date, end: Date) {
    forall k: nat :: FreesIn(s, bound, start, end, k) ==>
      var month := MonthOf(s.releases[k].date);
      FreedSince(s, bound, start, month) <= opening + HeldSince(s, bound, start, month)
  }

  /** The latest month up to `month` in which a release counts, if there is one. */
  lemma LatestRelease(s: E.State, bound: Instant, start: Date, month: Date, n: nat) returns (k: Option<nat>)
    requires n <= |s.releases|
    ensures k.None? ==> forall j: nat :: j < n ==> !FreesIn(s, bound, start, month, j)
    ensures k.Some? ==>
              && k.value < n && FreesIn(s, bound, start, month, k.value)
              && forall j: nat :: j < n && FreesIn(s, bound, start, month, j) ==>
                   UpTo(MonthOf(s.releases[j].date), MonthOf(s.releases[k.value].date))
  {
    hide Frees, IsLeap, DaysIn;
    k := None;
    if n > 0 {
      k := LatestRelease(s, bound, start, month, n - 1);
      if FreesIn(s, bound, start, month, n - 1)
         && (k.None? || Before(MonthOf(s.releases[k.value].date), MonthOf(s.releases[n - 1].date))) {
        k := Some(n - 1);
      }
    }
  }

  /** Between the months of releases the restricted balance only rises. */
  lemma NothingFreedSince(s: E.State, bound: Instant, start: Date, from: Date, month: Date)
    requires SoundBefore(s, bound) && UpTo(from, month)
    requires forall j: nat :: FreesIn(s, bound, start, month, j) ==> UpTo(MonthOf(s.releases[j].date), from)
    ensures FreedSince(s, bound, start, month) == FreedSince(s, bound, start, from)
    ensures HeldSince(s, bound, start, month) >= HeldSince(s, bound, start, from)
  {
    hide Sum, Frees, Holds, ReceiptDate, IsLeap, DaysIn, StandingBefore;
    forall r | r in s.releases
      ensures FreedOf(s, bound, FromTo(start, month))(r) == FreedOf(s, bound, FromTo(start, from))(r)
    {
      var j :| 0 <= j < |s.releases| && s.releases[j] == r;
      if Frees(s, bound, r) && FromTo(start, month)(r.date) { assert FreesIn(s, bound, start, month, j); }
    }
    SumCongruent(s.releases, FreedOf(s, bound, FromTo(start, month)), FreedOf(s, bound, FromTo(start, from)));
    HeldGrows(s, bound, start, from, month);
  }

  lemma HeldGrows(s: E.State, bound: Instant, start: Date, from: Date, month: Date)
    requires SoundBefore(s, bound) && UpTo(from, month)
    ensures 0 <= HeldSince(s, bound, start, from) <= HeldSince(s, bound, start, month)
  {
    hide Sum, Holds, ReceiptDate, SoundBefore, FromTo;
    var keys := Indices(|s.restrictions|);
    forall i | i in keys
      ensures 0 <= HeldOf(s, bound, FromTo(start, from))(i) <= HeldOf(s, bound, FromTo(start, month))(i)
    {
      assert i < |s.restrictions|;
      AmountsAreNotNegative(s, bound, i);
      LaterMonthsReachFurther(start, from, month, ReceiptDate(s, i));
    }
    SumMonotone(keys, HeldOf(s, bound, FromTo(start, from)), HeldOf(s, bound, FromTo(start, month)));
    SumNonNegative(keys, HeldOf(s, bound, FromTo(start, from)));
  }

  lemma AmountsAreNotNegative(s: E.State, bound: Instant, i: nat)
    requires SoundBefore(s, bound) && i < |s.restrictions|
    ensures s.restrictions[i].amount >= 0
  {
    hide Sum, StandingBefore;
  }

  lemma LaterMonthsReachFurther(start: Date, from: Date, month: Date, d: Date)
    requires UpTo(from, month)
    ensures FromTo(start, from)(d) ==> FromTo(start, month)(d)
  {
    hide IsLeap, DaysIn;
  }

  lemma NothingFreedAtAll(s: E.State, bound: Instant, start: Date, month: Date)
    requires forall j: nat :: !FreesIn(s, bound, start, month, j)
    ensures FreedSince(s, bound, start, month) == 0
  {
    hide Sum, Frees, IsLeap, DaysIn;
    forall r | r in s.releases ensures FreedOf(s, bound, FromTo(start, month))(r) == 0 {
      var j :| 0 <= j < |s.releases| && s.releases[j] == r;
      assert !FreesIn(s, bound, start, month, j);
    }
    SumZero(s.releases, FreedOf(s, bound, FromTo(start, month)));
  }

  /** Where each release is funded at its own month, every month is. */
  lemma FundedInEveryMonth(s: E.State, bound: Instant, opening: int, start: Date, end: Date, month: Date)
    requires SoundBefore(s, bound) && opening >= 0 && UpTo(start, month) && UpTo(month, end)
    requires EveryReleaseIsFunded(s, bound, opening, start, end)
    ensures FreedSince(s, bound, start, month) <= opening + HeldSince(s, bound, start, month)
  {
    hide Sum, Frees, IsLeap, DaysIn, StandingBefore, SoundBefore, FreedSince, HeldSince;
    var k := LatestRelease(s, bound, start, month, |s.releases|);
    if k.None? {
      NothingFreedAtAll(s, bound, start, month);
      HeldGrows(s, bound, start, month, month);
    } else {
      var from := MonthOf(s.releases[k.value].date);
      assert FreesIn(s, bound, start, end, k.value);
      NothingFreedSince(s, bound, start, from, month);
    }
  }

  /** Every month of a bridge closes at or above zero. */
  ghost predicate EveryMonthCloses(rows: seq<SourceRow>, version: Option<Version>, asOf: Date, start: Date, end: Date) {
    forall month: Date :: Canonical(month) && UpTo(start, month) && UpTo(month, end) ==>
      PositionAt(rows, version, asOf, start, month).closingRestricted >= 0
  }

  /**
   * For any number of escrows and either kind of opening, every month closes at or above zero
   * exactly when each release that counts is funded at its own month.
   */
  lemma EscrowClosesExactlyWhen(rows: seq<SourceRow>, s: E.State, version: Option<Version>, asOf: Date, start: Date,
          end: Date)
    requires AllWellFormed(rows) && CarriesEscrow(rows, s, AsOfBound(asOf)) && SoundBefore(s, AsOfBound(asOf))
    requires OpeningRestricted(version) >= 0
    ensures EveryMonthCloses(rows, version, asOf, start, end)
            <==> EveryReleaseIsFunded(s, AsOfBound(asOf), OpeningRestricted(version), start, end)
  {
    hide IsLeap, DaysIn, Sum, AllWellFormed, CarriesEscrow, SoundBefore, PositionAt, Frees, HeldSince, FreedSince;
    var bound, opening := AsOfBound(asOf), OpeningRestricted(version);
    if EveryReleaseIsFunded(s, bound, opening, start, end) {
      forall month: Date | Canonical(month) && UpTo(start, month) && UpTo(month, end)
        ensures PositionAt(rows, version, asOf, start, month).closingRestricted >= 0
      {
        FundedInEveryMonth(s, bound, opening, start, end, month);
        RestrictedBalance(rows, s, version, asOf, start, month);
      }
    }
    if EveryMonthCloses(rows, version, asOf, start, end) {
      forall k: nat | FreesIn(s, bound, start, end, k)
        ensures var month := MonthOf(s.releases[k].date);
                FreedSince(s, bound, start, month) <= opening + HeldSince(s, bound, start, month)
      {
        var month := MonthOf(s.releases[k].date);
        RestrictedBalance(rows, s, version, asOf, start, month);
      }
    }
  }

  // ---------------------------------------------------------------- the same, by the days themselves

  /** Confirmed by the end of the cutoff, and not withdrawn by then. */
  predicate InForce(stamps: Stamps, asOf: Date) {
    && stamps.confirmedAt.Some? && !Before(asOf, stamps.confirmedAt.value.day)
    && (stamps.reversedAt.Some? ==> Before(asOf, stamps.reversedAt.value.day))
  }

  predicate EscrowInForce(s: E.State, asOf: Date, i: nat) {
    && i < |s.restrictions| && InForce(s.restrictions[i].stamps, asOf)
    && s.restrictions[i].receipt < |s.receipts| && InForce(s.receipts[s.restrictions[i].receipt].stamps, asOf)
  }

  predicate ReleaseInForce(s: E.State, asOf: Date, r: E.Release) {
    InForce(r.stamps, asOf) && EscrowInForce(s, asOf, r.restriction)
  }

  predicate BetweenMonths(start: Date, month: Date, day: Date) {
    !Before(Ymd(day.year, day.month, 1), start) && !Before(month, Ymd(day.year, day.month, 1))
  }

  function TiedUp(s: E.State, asOf: Date, start: Date, month: Date): nat -> int {
    (i: nat) =>
      if EscrowInForce(s, asOf, i) && BetweenMonths(start, month, s.receipts[s.restrictions[i].receipt].date)
      then s.restrictions[i].amount else 0
  }

  function LetGo(s: E.State, asOf: Date, start: Date, month: Date): E.Release -> int {
    (r: E.Release) => if ReleaseInForce(s, asOf, r) && BetweenMonths(start, month, r.date) then r.amount else 0
  }

  /** At the month of each release in force, what releases have let go is within the opening and what escrows tie up. */
  ghost predicate Funded(s: E.State, asOf: Date, opening: int, start: Date, end: Date) {
    forall k: nat :: k < |s.releases| && ReleaseInForce(s, asOf, s.releases[k])
                     && BetweenMonths(start, end, s.releases[k].date) ==>
      var month: Date := Ymd(s.releases[k].date.year, s.releases[k].date.month, 1);
      Sum(s.releases, LetGo(s, asOf, start, month))
      <= opening + Sum(Indices(|s.restrictions|), TiedUp(s, asOf, start, month))
  }

  lemma InForceByTheDay(stamps: Stamps, asOf: Date)
    ensures StandingBefore(stamps, AsOfBound(asOf)) <==> InForce(stamps, asOf)
  {
    hide IsLeap, DaysIn, Earlier;
    if stamps.confirmedAt.Some? { BoundSeparatesDays(stamps.confirmedAt.value, asOf); }
    if stamps.reversedAt.Some? { BoundSeparatesDays(stamps.reversedAt.value, asOf); }
  }

  lemma HoldsByTheDay(s: E.State, asOf: Date, i: nat)
    ensures Holds(s, AsOfBound(asOf), i) <==> EscrowInForce(s, asOf, i)
  {
    hide IsLeap, DaysIn, StandingBefore, InForce;
    if i < |s.restrictions| {
      InForceByTheDay(s.restrictions[i].stamps, asOf);
      if s.restrictions[i].receipt < |s.receipts| {
        InForceByTheDay(s.receipts[s.restrictions[i].receipt].stamps, asOf);
      }
    }
  }

  lemma FreesByTheDay(s: E.State, asOf: Date, r: E.Release)
    ensures Frees(s, AsOfBound(asOf), r) <==> ReleaseInForce(s, asOf, r)
  {
    hide IsLeap, DaysIn, StandingBefore, InForce, Holds, EscrowInForce;
    InForceByTheDay(r.stamps, asOf);
    HoldsByTheDay(s, asOf, r.restriction);
  }

  lemma SinceByTheDay(s: E.State, asOf: Date, start: Date, month: Date)
    ensures HeldSince(s, AsOfBound(asOf), start, month)
            == Sum(Indices(|s.restrictions|), TiedUp(s, asOf, start, month))
    ensures FreedSince(s, AsOfBound(asOf), start, month) == Sum(s.releases, LetGo(s, asOf, start, month))
  {
    hide IsLeap, DaysIn, Sum, Holds, Frees, ReleaseInForce, StandingBefore, InForce;
    var bound := AsOfBound(asOf);
    forall i | i in Indices(|s.restrictions|)
      ensures HeldOf(s, bound, FromTo(start, month))(i) == TiedUp(s, asOf, start, month)(i)
    {
      HoldsByTheDay(s, asOf, i);
      assert FromTo(start, month)(ReceiptDate(s, i)) == BetweenMonths(start, month, ReceiptDate(s, i));
    }
    SumCongruent(Indices(|s.restrictions|), HeldOf(s, bound, FromTo(start, month)), TiedUp(s, asOf, start, month));
    forall r | r in s.releases
      ensures FreedOf(s, bound, FromTo(start, month))(r) == LetGo(s, asOf, start, month)(r)
    {
      FreesByTheDay(s, asOf, r);
    }
    SumCongruent(s.releases, FreedOf(s, bound, FromTo(start, month)), LetGo(s, asOf, start, month));
  }

  /** The condition of the bridge, with days and statuses written out. */
  lemma FundedByTheDay(s: E.State, asOf: Date, opening: int, start: Date, end: Date)
    ensures EveryReleaseIsFunded(s, AsOfBound(asOf), opening, start, end) <==> Funded(s, asOf, opening, start, end)
  {
    hide IsLeap, DaysIn, HeldSince, FreedSince, Frees, ReleaseInForce, LetGo, TiedUp;
    forall k: nat | k < |s.releases|
      ensures FreesIn(s, AsOfBound(asOf), start, end, k)
              <==> ReleaseInForce(s, asOf, s.releases[k]) && BetweenMonths(start, end, s.releases[k].date)
    {
      FreesByTheDay(s, asOf, s.releases[k]);
    }
    forall month: Date
      ensures HeldSince(s, AsOfBound(asOf), start, month)
              == Sum(Indices(|s.restrictions|), TiedUp(s, asOf, start, month))
      ensures FreedSince(s, AsOfBound(asOf), start, month) == Sum(s.releases, LetGo(s, asOf, start, month))
    {
      SinceByTheDay(s, asOf, start, month);
    }
  }

  /**
   * Over any run of escrow operations the bridge is reported exactly when its horizon is in order
   * and every release it counts is funded.
   */
  method BridgeOfLedger(ghost events: seq<E.Event>, rows: seq<SourceRow>, version: Option<Version>, asOf: Date,
          askedStart: Option<Date>, askedEnd: Option<Date>)
    returns (r: BridgeResult)
    requires AllWellFormed(rows) && CanonicalBounds(version) && OpeningRestricted(version) >= 0
    requires Clocked(Times(events, E.When)) && CarriesEscrow(rows, E.Run(events), AsOfBound(asOf))
    ensures r.Positions? <==>
              && !BeginsBeforeAnchor(version, askedStart)
              && var start := StartMonth(rows, version, asOf, askedStart);
                 var end := EndMonth(rows, version, asOf, start, askedEnd);
                 && UpTo(start, end)
                 && Funded(E.Run(events), asOf, OpeningRestricted(version), start, end)
  {
    hide AllWellFormed, CarriesEscrow, EveryReleaseIsFunded, Funded, StartMonth, EndMonth, E.Run, SoundBefore,
         FirstOverdrawn,
         PositionsSoFar, EveryMonthCloses, Months, IsLeap, DaysIn;
    r := PositionsFromRows(rows, version, asOf, askedStart, askedEnd);
    ghost var start := StartMonth(rows, version, asOf, askedStart);
    ghost var end := EndMonth(rows, version, asOf, start, askedEnd);
    if !r.BeforeTheAnchor? && UpTo(start, end) {
      StartAndEndAreCanonical(rows, version, asOf, askedStart, askedEnd);
      DatedEscrowIsSound(events, AsOfBound(asOf));
      EscrowClosesExactlyWhen(rows, E.Run(events), version, asOf, start, end);
      ReportedExactlyWhen(r, rows, version, asOf, start, end);
      FundedByTheDay(E.Run(events), asOf, OpeningRestricted(version), start, end);
    }
  }

  lemma ReportedExactlyWhen(r: BridgeResult, rows: seq<SourceRow>, version: Option<Version>, asOf: Date, start: Date,
          end: Date)
    requires Canonical(start) && Canonical(end) && UpTo(start, end) && (r.NegativeEscrow? || r.Positions?)
    requires r.NegativeEscrow? ==> FirstOverdrawn(r.month, Months(start, end), rows, version, asOf, start)
    requires r.Positions? ==>
               && |r.positions| == |Months(start, end)|
               && PositionsSoFar(r.positions, Months(start, end), rows, version, asOf, start)
    ensures r.Positions? <==> EveryMonthCloses(rows, version, asOf, start, end)
  {
    hide PositionAt, IsLeap, DaysIn;
    var months := Months(start, end);
    if r.NegativeEscrow? {
      var k :| 0 <= k < |months| && months[k] == r.month
               && PositionAt(rows, version, asOf, start, months[k]).closingRestricted < 0;
      MonthInRange(start, end, k);
    } else {
      forall month: Date | Canonical(month) && UpTo(start, month) && UpTo(month, end)
        ensures PositionAt(rows, version, asOf, start, month).closingRestricted >= 0
      {
        var k := PlaceOfMonth(start, end, month);
      }
    }
  }

  lemma MonthInRange(start: Date, end: Date, k: nat)
    requires Canonical(start) && Canonical(end) && UpTo(start, end) && k < |Months(start, end)|
    ensures Canonical(Months(start, end)[k]) && UpTo(start, Months(start, end)[k]) && UpTo(Months(start, end)[k], end)
  {
    hide IsLeap, DaysIn;
    MonthAt(start, end, k);
    MonthsHaveNoGaps(start, end);
  }

  /** Every month from first to last is in the run. */
  lemma PlaceOfMonth(start: Date, end: Date, month: Date) returns (k: nat)
    requires Canonical(start) && Canonical(end) && Canonical(month) && UpTo(start, month) && UpTo(month, end)
    ensures k < |Months(start, end)| && Months(start, end)[k] == month
  {
    hide IsLeap, DaysIn;
    k := month.MonthIndex() - start.MonthIndex();
    MonthsHaveNoGaps(start, end);
    MonthAt(start, end, k);
    SameMonth(Months(start, end)[k], month);
  }

  // ---------------------------------------------------------------- releases that follow their receipts

  /** Every release that counts is dated in its receipt's month or a later one. */
  ghost predicate ReleasesFollowReceipts(s: E.State, bound: Instant) {
    forall k :: 0 <= k < |s.releases| && Frees(s, bound, s.releases[k]) ==>
      UpTo(MonthOf(ReceiptDate(s, s.releases[k].restriction)), MonthOf(s.releases[k].date))
  }

  function InMonthsUpTo(month: Date): Date -> bool { (d: Date) => UpTo(MonthOf(d), month) }

  function InMonthsBefore(month: Date): Date -> bool { (d: Date) => Before(MonthOf(d), month) }

  /** What the opening balance says is restricted is at least what escrows from before it still hold. */
  ghost predicate OpeningCovers(rows: seq<SourceRow>, version: Option<Version>, start: Date) {
    Sum(rows, HeldWithin(InMonthsBefore(start))) <= OpeningRestricted(version)
  }

  lemma NothingHeldBefore(rows: seq<SourceRow>, asOf: Date)
    requires AllWellFormed(rows)
    ensures Sum(rows, HeldWithin(InMonthsBefore(StartMonth(rows, None, asOf, None)))) == 0
  {
    hide IsLeap, DaysIn, Sum;
    var start := StartMonth(rows, None, asOf, None);
    forall row | row in rows ensures HeldWithin(InMonthsBefore(start))(row) == 0 {
      var i :| 0 <= i < |rows| && rows[i] == row;
    }
    SumZero(rows, HeldWithin(InMonthsBefore(start)));
  }

  /** A bridge with no governed forecast opens with nothing, before any row, and so covers. */
  lemma DefaultStartCovers(rows: seq<SourceRow>, asOf: Date)
    requires AllWellFormed(rows)
    ensures OpeningCovers(rows, None, StartMonth(rows, None, asOf, None))
  {
    hide StartMonth, Sum;
    NothingHeldBefore(rows, asOf);
  }

  lemma HeldFromTheStart(rows: seq<SourceRow>, asOf: Date, start: Date, month: Date)
    requires AllWellFormed(rows) && UpTo(start, month)
    ensures Sum(rows, ThroughMonth(HeldEffect, start, month, asOf))
            == Sum(rows, HeldWithin(InMonthsUpTo(month))) - Sum(rows, HeldWithin(InMonthsBefore(start)))
  {
    hide IsLeap, DaysIn, Sum;
    forall row | row in rows
      ensures HeldWithin(InMonthsUpTo(month))(row)
              == ThroughMonth(HeldEffect, start, month, asOf)(row) + HeldWithin(InMonthsBefore(start))(row)
    {
      var i :| 0 <= i < |rows| && rows[i] == row;
    }
    SumPlus(rows, ThroughMonth(HeldEffect, start, month, asOf), HeldWithin(InMonthsBefore(start)),
            HeldWithin(InMonthsUpTo(month)));
  }

  /** Such a ledger never closes a month on negative escrow, where the opening covers what came before. */
  lemma EscrowNeverClosesNegative(events: seq<E.Event>, rows: seq<SourceRow>, version: Option<Version>, asOf: Date,
          start: Date, month: Date)
    requires Clocked(Times(events, E.When)) && AllWellFormed(rows) && UpTo(start, month)
    requires CarriesEscrow(rows, E.Run(events), AsOfBound(asOf))
    requires ReleasesFollowReceipts(E.Run(events), AsOfBound(asOf))
    requires OpeningCovers(rows, version, start)
    ensures PositionAt(rows, version, asOf, start, month).closingRestricted >= 0
  {
    hide Sum, IsLeap, DaysIn, SoundBefore, CarriesEscrow, PositionAt, E.Run, AllWellFormed, Frees, ReceiptDate;
    var s, bound, test := E.Run(events), AsOfBound(asOf), InMonthsUpTo(month);
    DatedEscrowIsSound(events, bound);
    assert TakesReceiptsFirst(s, bound, test);
    LedgerCovers(s, bound, test);
    RowsCarryTheBalance(rows, s, bound, test);
    HeldFromTheStart(rows, asOf, start, month);
    BridgeTelescopes(rows, version, asOf, start, month);
  }

  // ---------------------------------------------------------------- and one that does not

  /** Before any receipt of its months, a release that frees more than the opening balance overdraws its month. */
  lemma EarlyReleaseIsRefused(events: seq<E.Event>, rows: seq<SourceRow>, version: Option<Version>, asOf: Date,
          start: Date, k: nat)
    requires Clocked(Times(events, E.When)) && AllWellFormed(rows)
    requires CarriesEscrow(rows, E.Run(events), AsOfBound(asOf))
    requires k < |E.Run(events).releases| && Frees(E.Run(events), AsOfBound(asOf), E.Run(events).releases[k])
    requires UpTo(start, MonthOf(E.Run(events).releases[k].date))
    requires OpeningRestricted(version) < E.Run(events).releases[k].amount
    requires forall i :: 0 <= i < |E.Run(events).restrictions| && Holds(E.Run(events), AsOfBound(asOf), i) ==>
               Before(MonthOf(E.Run(events).releases[k].date), MonthOf(ReceiptDate(E.Run(events), i)))
    ensures PositionAt(rows, version, asOf, start, MonthOf(E.Run(events).releases[k].date)).closingRestricted < 0
  {
    hide IsLeap, DaysIn, Sum, AllWellFormed, CarriesEscrow, PositionAt, StandingBefore, E.Run, ReceiptDate;
    var s, bound := E.Run(events), AsOfBound(asOf);
    var month := MonthOf(s.releases[k].date);
    DatedEscrowIsSound(events, bound);
    var keys := Indices(|s.restrictions|);
    forall i | i in keys ensures HeldOf(s, bound, FromTo(start, month))(i) == 0 {
      assert i < |s.restrictions|;
    }
    SumZero(keys, HeldOf(s, bound, FromTo(start, month)));
    forall r | r in s.releases ensures FreedOf(s, bound, FromTo(start, month))(r) >= 0 {
      var j :| 0 <= j < |s.releases| && s.releases[j] == r;
    }
    SumAtLeastMember(s.releases, FreedOf(s, bound, FromTo(start, month)), s.releases[k]);
    RestrictedBalance(rows, s, version, asOf, start, month);
  }

  const OPERATOR: E.Actor := M.Actor(1, false)
  const CHECKER: E.Actor := M.Actor(2, false)

  const MARCH: Date := Ymd(2024, 3, 10)
  const FEBRUARY: Date := Ymd(2024, 2, 10)
  const NOON: Instant := Instant(Ymd(2024, 3, 20), 0)

  /** A receipt of March, escrowed, and released as of February. */
  const EARLY: seq<E.Event> := [
    E.Event(OPERATOR, NOON, E.RecordReceipt(100, MARCH)),
    E.Event(CHECKER, NOON, E.ConfirmReceipt(0)),
    E.Event(OPERATOR, NOON, E.RecordRestriction(0, 100)),
    E.Event(CHECKER, NOON, E.ConfirmRestriction(0)),
    E.Event(OPERATOR, NOON, E.RecordRelease(0, FEBRUARY, 100)),
    E.Event(CHECKER, NOON, E.ConfirmRelease(0))]

  const CONFIRMED: Stamps := Stamps(Confirmed, Some(NOON), None)
  const RECEIVED: seq<E.Receipt> := [E.Receipt(100, MARCH, CONFIRMED)]
  const HELD: seq<E.Restriction> := [E.Restriction(0, 100, 1, CONFIRMED)]
  const CLAIMED: E.Release := E.Release(0, 0, FEBRUARY, 100, 1, None, RECORDED)
  const FREED: E.Release := E.Release(0, 0, FEBRUARY, 100, 1, Some(2), CONFIRMED)

  /** What the ledger holds after so many of them. */
  function EarlyState(n: nat): E.State {
    if n == 0 then E.EMPTY
    else if n == 1 then E.State([E.Receipt(100, MARCH, RECORDED)], [], [])
    else if n == 2 then E.State(RECEIVED, [], [])
    else if n == 3 then E.State(RECEIVED, [E.Restriction(0, 100, 1, RECORDED)], [])
    else if n == 4 then E.State(RECEIVED, HELD, [])
    else if n == 5 then E.State(RECEIVED, HELD, [CLAIMED])
    else E.State(RECEIVED, HELD, [FREED])
  }

  lemma EarlySteps(n: nat)
    requires n < |EARLY|
    ensures E.Verdict(EarlyState(n), EARLY[n]) == M.Done
    ensures E.Apply(EarlyState(n), EARLY[n]) == EarlyState(n + 1)
  {
    hide IsLeap, DaysIn;
    if n == 5 { EarlyRelease(); }
  }

  lemma EarlyRelease()
    ensures E.Verdict(EarlyState(5), EARLY[5]) == M.Done
    ensures E.Apply(EarlyState(5), EARLY[5]) == EarlyState(6)
  {
    hide IsLeap, DaysIn, Sum;
    var s := EarlyState(5);
    SumZero(s.releases, E.FreedFrom(0, Some(0)));
    assert s.releases[0 := FREED] == [FREED];
  }

  lemma {:induction false} EarlyRun(n: nat)
    requires n <= |EARLY|
    ensures E.Run(EARLY[..n]) == EarlyState(n)
  {
    hide E.Verdict, E.Apply;
    if n > 0 {
      EarlyRun(n - 1);
      assert EARLY[..n][..n - 1] == EARLY[..n - 1];
      EarlySteps(n - 1);
    }
  }

  /** The six operations are all accepted, and what they leave is a release counted before its receipt. */
  lemma EarlyRunEnds()
    ensures Clocked(Times(EARLY, E.When))
    ensures forall n :: 0 <= n < |EARLY| ==> E.Verdict(E.Run(EARLY[..n]), EARLY[n]) == M.Done
    ensures E.Run(EARLY) == E.State(RECEIVED, HELD, [FREED])
  {
    hide E.Verdict, E.Run;
    forall n | 0 <= n < |EARLY| ensures E.Verdict(E.Run(EARLY[..n]), EARLY[n]) == M.Done {
      EarlyRun(n);
      EarlySteps(n);
    }
    EarlyRun(6);
    assert EARLY[..6] == EARLY;
    forall i, j | 0 <= i < j < |EARLY| ensures NoLater(EARLY[i].now, EARLY[j].now) {
      EarlierIsTotalOrder(NOON, NOON, NOON);
    }
  }

  /** No operation refused it, and every bridge that takes February in refuses it. */
  lemma NoOperationRefusesWhatTheBridgeDoes(rows: seq<SourceRow>, version: Option<Version>, start: Date)
    requires AllWellFormed(rows) && CarriesEscrow(rows, E.Run(EARLY), AsOfBound(Ymd(2024, 3, 31)))
    requires UpTo(start, MonthOf(FEBRUARY)) && OpeningRestricted(version) < 100
    ensures Clocked(Times(EARLY, E.When))
    ensures forall n :: 0 <= n < |EARLY| ==> E.Verdict(E.Run(EARLY[..n]), EARLY[n]) == M.Done
    ensures !ReleasesFollowReceipts(E.Run(EARLY), AsOfBound(Ymd(2024, 3, 31)))
    ensures PositionAt(rows, version, Ymd(2024, 3, 31), start, MonthOf(FEBRUARY)).closingRestricted < 0
  {
    hide E.Run, E.Verdict, CarriesEscrow, PositionAt, AllWellFormed;
    EarlyRunEnds();
    EarlyIsCounted();
    EarlyReleaseIsRefused(EARLY, rows, version, Ymd(2024, 3, 31), start, 0);
  }

  lemma EarlyIsCounted()
    ensures var s, bound := E.Run(EARLY), AsOfBound(Ymd(2024, 3, 31));
            && |s.releases| == 1 && |s.restrictions| == 1 && Frees(s, bound, s.releases[0])
            && s.releases[0].date == FEBRUARY && ReceiptDate(s, 0) == MARCH
            && !ReleasesFollowReceipts(s, bound)
  {
    hide E.Run;
    EarlyRunEnds();
    var s, bound := E.Run(EARLY), AsOfBound(Ymd(2024, 3, 31));
    assert Frees(s, bound, s.releases[0]);
  }

  lemma NothingBeforeTheDefaultStart(rows: seq<SourceRow>, asOf: Date, month: Date)
    requires AllWellFormed(rows) && Before(month, StartMonth(rows, None, asOf, None))
    ensures Sum(rows, HeldWithin(FromTo(month, month))) == 0
  {
    hide IsLeap, DaysIn, Sum;
    forall row | row in rows ensures HeldWithin(FromTo(month, month))(row) == 0 {
      var i :| 0 <= i < |rows| && rows[i] == row;
    }
    SumZero(rows, HeldWithin(FromTo(month, month)));
  }

  /** With one escrow and no governed opening, the condition is that no release is dated in an earlier month. */
  lemma OneEscrowClosesExactlyWhen(events: seq<E.Event>, rows: seq<SourceRow>, asOf: Date)
    requires Clocked(Times(events, E.When)) && AllWellFormed(rows)
    requires CarriesEscrow(rows, E.Run(events), AsOfBound(asOf)) && |E.Run(events).restrictions| == 1
    ensures ReleasesFollowReceipts(E.Run(events), AsOfBound(asOf))
            <==> var start := StartMonth(rows, None, asOf, None);
                 forall month: Date :: UpTo(start, month) ==>
                   PositionAt(rows, None, asOf, start, month).closingRestricted >= 0
  {
    hide IsLeap, DaysIn, Sum, StartMonth, AllWellFormed, CarriesEscrow, SoundBefore, PositionAt, StandingBefore,
         ReceiptDate, E.Run;
    var s, bound, start := E.Run(events), AsOfBound(asOf), StartMonth(rows, None, asOf, None);
    DatedEscrowIsSound(events, bound);
    if ReleasesFollowReceipts(s, bound) {
      DefaultStartCovers(rows, asOf);
      forall month: Date | UpTo(start, month)
        ensures PositionAt(rows, None, asOf, start, month).closingRestricted >= 0
      {
        EscrowNeverClosesNegative(events, rows, None, asOf, start, month);
      }
    } else {
      var k :| 0 <= k < |s.releases| && Frees(s, bound, s.releases[k])
               && !UpTo(MonthOf(ReceiptDate(s, s.releases[k].restriction)), MonthOf(s.releases[k].date));
      CountedReleasesAreRows(s, rows, asOf, k);
      EarlyReleaseIsRefused(events, rows, None, asOf, start, k);
    }
  }

  /** A release that counts frees cash, and its month is one the rows begin by. */
  lemma CountedReleasesAreRows(s: E.State, rows: seq<SourceRow>, asOf: Date, k: nat)
    requires AllWellFormed(rows) && CarriesEscrow(rows, s, AsOfBound(asOf)) && SoundBefore(s, AsOfBound(asOf))
    requires |s.restrictions| == 1 && k < |s.releases| && Frees(s, AsOfBound(asOf), s.releases[k])
    requires Before(MonthOf(s.releases[k].date), MonthOf(ReceiptDate(s, 0)))
    ensures UpTo(StartMonth(rows, None, asOf, None), MonthOf(s.releases[k].date)) && s.releases[k].amount > 0
  {
    hide IsLeap, DaysIn, Sum, StartMonth, AllWellFormed, CarriesEscrow, StandingBefore, ReceiptDate;
    var bound, month := AsOfBound(asOf), MonthOf(s.releases[k].date);
    if Before(month, StartMonth(rows, None, asOf, None)) {
      NothingBeforeTheDefaultStart(rows, asOf, month);
      RowsCarryTheBalance(rows, s, bound, FromTo(month, month));
      var keys := Indices(|s.restrictions|);
      forall i | i in keys ensures HeldOf(s, bound, FromTo(month, month))(i) == 0 {
        assert i == 0;
      }
      SumZero(keys, HeldOf(s, bound, FromTo(month, month)));
      forall r | r in s.releases ensures FreedOf(s, bound, FromTo(month, month))(r) >= 0 {
        var j :| 0 <= j < |s.releases| && s.releases[j] == r;
      }
      SumAtLeastMember(s.releases, FreedOf(s, bound, FromTo(month, month)), s.releases[k]);
    }
  }

  // ---------------------------------------------------------------- cash in hand

  function DatedBy(asOf: Date): Date -> bool { (d: Date) => UpTo(d, asOf) }

  /** Dates of the anchor month or later, up to the cutoff. */
  function SinceAnchor(anchor: Option<Date>, asOf: Date): Date -> bool {
    (d: Date) => AtOrAfter(MonthOf(d), anchor) && UpTo(d, asOf)
  }

  /** Cash in hand is refused exactly when more has been freed by the cutoff than was opened with and held. */
  lemma EscrowInHandExactlyWhen(rows: seq<SourceRow>, s: E.State, version: Option<Version>, asOf: Date)
    requires AllWellFormed(rows) && CarriesEscrow(rows, s, AsOfBound(asOf))
    ensures var test := SinceAnchor(OpeningAnchor(version), asOf);
            ActualCashPosition(rows, version, asOf).CashInHand?
            <==> Sum(s.releases, FreedOf(s, AsOfBound(asOf), test))
                 <= OpeningRestricted(version) + Sum(Indices(|s.restrictions|), HeldOf(s, AsOfBound(asOf), test))
  {
    hide Sum, IsLeap, DaysIn, CarriesEscrow, ActualCashPosition, OpeningRestricted;
    var anchor := OpeningAnchor(version);
    var test := SinceAnchor(anchor, asOf);
    forall row | row in rows ensures Happened(HeldEffect, anchor, asOf)(row) == HeldWithin(test)(row) {
      var i :| 0 <= i < |rows| && rows[i] == row;
    }
    SumCongruent(rows, Happened(HeldEffect, anchor, asOf), HeldWithin(test));
    RowsCarryTheBalance(rows, s, AsOfBound(asOf), test);
    CashInHandIsWhatHappened(rows, version, asOf);
  }

  /**
   * Where releases follow their receipts day by day, and the opening covers what came before it,
   * cash in hand is never refused, with a forecast in force or without one; nor is it as at a date
   * before the months of the forecast in force.
   */
  lemma EscrowInHandIsNeverOverdrawn(events: seq<E.Event>, rows: seq<SourceRow>, version: Option<Version>, asOf: Date)
    requires Clocked(Times(events, E.When)) && AllWellFormed(rows)
    requires CarriesEscrow(rows, E.Run(events), AsOfBound(asOf))
    requires TakesReceiptsFirst(E.Run(events), AsOfBound(asOf), DatedBy(asOf))
    requires version.Some? ==>
               if UpTo(version.value.startMonth, MonthOf(asOf))
               then OpeningCovers(rows, version, version.value.startMonth)
               else OpeningRestricted(version) >= 0
    ensures ActualCashPosition(rows, version, asOf).CashInHand?
  {
    hide Sum, IsLeap, DaysIn, SoundBefore, CarriesEscrow, ActualCashPosition, E.Run, Frees, ReceiptDate;
    var s, bound, anchor := E.Run(events), AsOfBound(asOf), OpeningAnchor(version);
    DatedEscrowIsSound(events, bound);
    LedgerCovers(s, bound, DatedBy(asOf));
    RowsCarryTheBalance(rows, s, bound, DatedBy(asOf));
    RowsCarryTheBalance(rows, s, bound, SinceAnchor(anchor, asOf));
    if version.Some? && !UpTo(version.value.startMonth, MonthOf(asOf)) {
      NothingSinceALaterAnchor(rows, version.value.startMonth, asOf);
    } else {
      HeldSinceTheAnchor(rows, version, asOf);
    }
    EscrowInHandExactlyWhen(rows, s, version, asOf);
  }

  lemma NothingSinceALaterAnchor(rows: seq<SourceRow>, anchor: Date, asOf: Date)
    requires Before(MonthOf(asOf), anchor)
    ensures Sum(rows, HeldWithin(SinceAnchor(Some(anchor), asOf))) == 0
  {
    hide Sum, IsLeap, DaysIn;
    forall row | row in rows ensures HeldWithin(SinceAnchor(Some(anchor), asOf))(row) == 0 {
      MonthsOrderDates(row.business, asOf);
    }
    SumZero(rows, HeldWithin(SinceAnchor(Some(anchor), asOf)));
  }

  lemma HeldSinceTheAnchor(rows: seq<SourceRow>, version: Option<Version>, asOf: Date)
    requires version.Some? ==>
               && UpTo(version.value.startMonth, MonthOf(asOf))
                     && OpeningCovers(rows, version, version.value.startMonth)
    ensures Sum(rows, HeldWithin(SinceAnchor(OpeningAnchor(version), asOf))) + OpeningRestricted(version)
            >= Sum(rows, HeldWithin(DatedBy(asOf)))
  {
    hide Sum, IsLeap, DaysIn;
    var since := SinceAnchor(OpeningAnchor(version), asOf);
    if version.None? {
      forall row | row in rows ensures HeldWithin(since)(row) == HeldWithin(DatedBy(asOf))(row) {}
      SumCongruent(rows, HeldWithin(since), HeldWithin(DatedBy(asOf)));
    } else {
      var before := InMonthsBefore(version.value.startMonth);
      forall row | row in rows
        ensures HeldWithin(DatedBy(asOf))(row) == HeldWithin(since)(row) + HeldWithin(before)(row)
      {
        MonthsOrderDates(asOf, row.business);
      }
      SumPlus(rows, HeldWithin(since), HeldWithin(before), HeldWithin(DatedBy(asOf)));
    }
  }

  // ---------------------------------------------------------------- the assembly carries it

  lemma {:induction false} FilterAppends<T(!new)>(a: seq<T>, b: seq<T>, p: T -> bool)
    ensures Filter(a + b, p) == Filter(a, p) + Filter(b, p)
  {
    if b == [] {
      assert a + b == a;
    } else {
      var n := |b| - 1;
      assert (a + b)[..|a + b| - 1] == a + b[..n];
      FilterAppends(a, b[..n], p);
    }
  }

  ghost predicate OnlyFrom(rows: seq<SourceRow>, source: SourceType) {
    forall row :: row in rows ==> row.source == source
  }

  lemma {:induction false} MappedFrom<T>(s: seq<T>, f: T -> SourceRow, source: SourceType)
    requires forall x :: f(x).source == source
    ensures OnlyFrom(Mapped(s, f), source)
  {
    if s != [] { MappedFrom(s[..|s| - 1], f, source); }
  }

  lemma {:induction false} FilterKeepsAll(rows: seq<SourceRow>, p: SourceRow -> bool)
    requires forall row :: row in rows ==> p(row)
    ensures Filter(rows, p) == rows
  {
    if rows != [] {
      var n := |rows| - 1;
      assert rows == rows[..n] + [rows[n]];
      forall row | row in rows[..n] ensures p(row) { assert row in rows; }
      FilterKeepsAll(rows[..n], p);
    }
  }

  lemma FilterKeepsNone(rows: seq<SourceRow>, p: SourceRow -> bool)
    requires forall row :: row in rows ==> !p(row)
    ensures Filter(rows, p) == []
  {
    if Filter(rows, p) != [] { assert Filter(rows, p)[0] in Filter(rows, p); }
  }

  lemma FilterAllOrNone(rows: seq<SourceRow>, source: SourceType)
    requires OnlyFrom(rows, source)
    ensures Filter(rows, IsRestriction) == if source == RestrictionSource then rows else []
    ensures Filter(rows, IsRelease) == if source == ReleaseSource then rows else []
  {
    hide Filter;
    if source == RestrictionSource {
      FilterKeepsAll(rows, IsRestriction);
    } else {
      FilterKeepsNone(rows, IsRestriction);
    }
    if source == ReleaseSource { FilterKeepsAll(rows, IsRelease); } else { FilterKeepsNone(rows, IsRelease); }
  }

  lemma Contributes<T>(before: seq<SourceRow>, s: seq<T>, f: T -> SourceRow, source: SourceType)
    requires forall x :: f(x).source == source
    ensures Filter(before + Mapped(s, f), IsRestriction)
            == Filter(before, IsRestriction) + (if source == RestrictionSource then Mapped(s, f) else [])
    ensures Filter(before + Mapped(s, f), IsRelease)
            == Filter(before, IsRelease) + (if source == ReleaseSource then Mapped(s, f) else [])
  {
    hide Filter, Mapped;
    FilterAppends(before, Mapped(s, f), IsRestriction);
    FilterAppends(before, Mapped(s, f), IsRelease);
    MappedFrom(s, f, source);
    FilterAllOrNone(Mapped(s, f), source);
  }

  /** The rows assembled from what a ledger holds and frees carry its escrow and nothing else. */
  lemma ActualRowsCarryEscrow(sources: Sources, s: E.State, bound: Instant)
    requires sources.restrictions == HeldIn(s, bound, |s.restrictions|)
    requires sources.releases == FreedIn(s, bound, s.releases)
    ensures CarriesEscrow(ActualRows(sources), s, bound)
  {
    hide Filter, Mapped, HeldIn, FreedIn, IsLeap, DaysIn;
    var a := Mapped(sources.receipts, ReceiptRow);
    assert [] + a == a;
    Contributes([], sources.receipts, ReceiptRow, ReceiptSource);
    Contributes(a, sources.refunds, RefundRow, RefundSource);
    var b := a + Mapped(sources.refunds, RefundRow);
    Contributes(b, sources.payments, PaymentOut, ConstructionPaymentSource);
    var c := b + Mapped(sources.payments, PaymentOut);
    Contributes(c, sources.development, DevelopmentOut, DevelopmentMovementSource);
    var d := c + Mapped(sources.development, DevelopmentOut);
    Contributes(d, sources.financing, FinancingMove, FinancingMovementSource);
    var e := d + Mapped(sources.financing, FinancingMove);
    Contributes(e, sources.restrictions, HeldCash, RestrictionSource);
    Contributes(e + Mapped(sources.restrictions, HeldCash), sources.releases, FreedCash, ReleaseSource);
  }

  lemma {:induction false} ScheduleRowsOnly(snapshot: seq<U.Instalment>, adjusted: map<int, int>)
    ensures OnlyFrom(ScheduleRows(snapshot, adjusted), ScheduleSource)
  {
    if snapshot != [] { ScheduleRowsOnly(snapshot[..|snapshot| - 1], adjusted); }
  }

  lemma {:induction false} LineRowsOnly(lines: seq<F.Line>, remainders: map<int, int>)
    ensures OnlyFrom(LineRows(lines, remainders), ForecastLineSource)
  {
    if lines != [] { LineRowsOnly(lines[..|lines| - 1], remainders); }
  }

  lemma AssembledRowsCarryEscrow(sources: Sources, snapshot: seq<U.Instalment>, adjusted: map<int, int>,
          lines: seq<F.Line>, remainders: map<int, int>, s: E.State, bound: Instant)
    requires sources.restrictions == HeldIn(s, bound, |s.restrictions|)
    requires sources.releases == FreedIn(s, bound, s.releases)
    ensures CarriesEscrow(ActualRows(sources) + ScheduleRows(snapshot, adjusted)
                          + LineRows(lines, remainders), s, bound)
  {
    hide Filter, Mapped, HeldIn, FreedIn, ActualRows, ScheduleRows, LineRows, OnlyFrom, IsLeap, DaysIn;
    ActualRowsCarryEscrow(sources, s, bound);
    var actual, schedule := ActualRows(sources), ScheduleRows(snapshot, adjusted);
    ScheduleRowsOnly(snapshot, adjusted);
    LineRowsOnly(lines, remainders);
    FilterAllOrNone(schedule, ScheduleSource);
    FilterAllOrNone(LineRows(lines, remainders), ForecastLineSource);
    FilterAppends(actual, schedule, IsRestriction);
    FilterAppends(actual, schedule, IsRelease);
    FilterAppends(actual + schedule, LineRows(lines, remainders), IsRestriction);
    FilterAppends(actual + schedule, LineRows(lines, remainders), IsRelease);
  }
}
