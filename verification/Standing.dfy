/** The lifecycle of a cash record, and reads of it as at a date. */
module Standing {
  import opened Calendar

  datatype Option<T> = None | Some(value: T)

  // ---------------------------------------------------------------- instants

  const MICROSECONDS_IN_A_DAY: nat := 86_400_000_000

  datatype InstantParts = Instant(day: Date, micros: nat)

  type Instant = t: InstantParts | t.micros < MICROSECONDS_IN_A_DAY witness Instant(Ymd(1, 1, 1), 0)

  predicate Earlier(a: Instant, b: Instant) {
    Before(a.day, b.day) || (a.day == b.day && a.micros < b.micros)
  }

  predicate NoLater(a: Instant, b: Instant) { !Earlier(b, a) }

  /** The first instant after a date. */
  function AsOfBound(asOf: Date): Instant { Instant(NextDay(asOf), 0) }

  /** An instant is before the bound exactly when it falls on the date or an earlier one. */
  lemma BoundSeparatesDays(t: Instant, asOf: Date)
    ensures Earlier(t, AsOfBound(asOf)) <==> UpTo(t.day, asOf)
  {
    NextDayIsNext(asOf, t.day);
  }

  lemma EarlierIsTotalOrder(a: Instant, b: Instant, c: Instant)
    ensures Earlier(a, b) || Earlier(b, a) || a == b
    ensures NoLater(a, b) && NoLater(b, c) ==> NoLater(a, c)
    ensures NoLater(a, b) && Earlier(b, c) ==> Earlier(a, c)
    ensures Earlier(a, b) && NoLater(b, c) ==> Earlier(a, c)
  {
    if a.day.Key() == b.day.Key() { KeyDetermines(a.day, b.day); }
    if b.day.Key() == c.day.Key() { KeyDetermines(b.day, c.day); }
    if a.day.Key() == c.day.Key() { KeyDetermines(a.day, c.day); }
  }

  // ---------------------------------------------------------------- one record

  datatype Status = Recorded | Confirmed | Reversed

  /** The three columns a historical read may ask. */
  datatype Stamps = Stamps(status: Status, confirmedAt: Option<Instant>, reversedAt: Option<Instant>)

  const RECORDED: Stamps := Stamps(Recorded, None, None)

  function StampConfirmed(s: Stamps, now: Instant): Stamps { s.(status := Confirmed, confirmedAt := Some(now)) }

  function StampReversed(s: Stamps, now: Instant): Stamps { s.(status := Reversed, reversedAt := Some(now)) }

  /** The condition a read filters on: the status for a live read, the timestamps for a dated one. */
  predicate StandingAt(s: Stamps, asOf: Option<Date>) {
    if asOf.None? then s.status == Confirmed
    else StandingBefore(s, AsOfBound(asOf.value))
  }

  predicate StandingBefore(s: Stamps, bound: Instant) {
    && s.confirmedAt.Some? && Earlier(s.confirmedAt.value, bound)
    && (s.reversedAt.None? || NoLater(bound, s.reversedAt.value))
  }

  /** The only ways a record's columns ever change. */
  predicate Evolves(s: Stamps, s': Stamps, now: Instant) {
    || s' == s
    || (s.status == Recorded && s' == StampConfirmed(s, now))
    || (s.status != Reversed && s' == StampReversed(s, now))
  }

  /** What the columns of a reachable record look like when the clock reads `now`. */
  predicate WellStamped(s: Stamps, now: Instant) {
    && (s.status == Recorded ==> s.confirmedAt.None? && s.reversedAt.None?)
    && (s.status == Confirmed ==> s.confirmedAt.Some? && s.reversedAt.None?)
    && (s.status == Reversed ==> s.reversedAt.Some?)
    && (s.confirmedAt.Some? ==> NoLater(s.confirmedAt.value, now))
    && (s.reversedAt.Some? ==> NoLater(s.reversedAt.value, now))
  }

  lemma EvolvingKeepsStamps(s: Stamps, s': Stamps, before: Instant, now: Instant)
    requires WellStamped(s, before) && NoLater(before, now) && Evolves(s, s', now)
    ensures WellStamped(s', now)
  {
    if s.confirmedAt.Some? { EarlierIsTotalOrder(s.confirmedAt.value, before, now); }
    if s.reversedAt.Some? { EarlierIsTotalOrder(s.reversedAt.value, before, now); }
  }

  /** Once the clock has reached a bound, nothing that happens to a record changes what stood before it. */
  lemma LaterEventsKeepThePast(s: Stamps, s': Stamps, now: Instant, bound: Instant)
    requires Evolves(s, s', now) && NoLater(bound, now)
    requires s.status == Recorded ==> s.confirmedAt.None?
    requires s.status != Reversed ==> s.reversedAt.None?
    ensures StandingBefore(s', bound) <==> StandingBefore(s, bound)
  {
  }

  /** While the clock is still short of a bound, standing before it is being confirmed. */
  lemma BeforeTheBoundStatusAnswers(s: Stamps, now: Instant, bound: Instant)
    requires WellStamped(s, now) && Earlier(now, bound)
    ensures StandingBefore(s, bound) <==> s.status == Confirmed
  {
    if s.confirmedAt.Some? { EarlierIsTotalOrder(s.confirmedAt.value, now, bound); }
    if s.reversedAt.Some? { EarlierIsTotalOrder(s.reversedAt.value, now, bound); }
  }

  // ---------------------------------------------------------------- clocks

  /** The clock never runs backwards. */
  ghost predicate Clocked(times: seq<Instant>) {
    forall i, j :: 0 <= i < j < |times| ==> NoLater(times[i], times[j])
  }

  /** The first `cut` times are before the bound, and the rest at or after it. */
  ghost predicate CutAt(times: seq<Instant>, cut: nat, bound: Instant) {
    && cut <= |times|
    && (forall i :: 0 <= i < cut ==> Earlier(times[i], bound))
    && (forall i :: cut <= i < |times| ==> NoLater(bound, times[i]))
  }

  /** The times of a run of events. */
  ghost function Times<E>(events: seq<E>, clock: E -> Instant): (times: seq<Instant>)
    ensures |times| == |events|
  {
    seq(|events|, i requires 0 <= i < |events| => clock(events[i]))
  }

  lemma EarlierTimes<E>(events: seq<E>, clock: E -> Instant, n: nat)
    requires Clocked(Times(events, clock)) && n < |events|
    ensures Times(events[..n], clock) == Times(events, clock)[..n] && Clocked(Times(events[..n], clock))
    ensures forall i :: 0 <= i <= n ==> NoLater(clock(events[i]), clock(events[n]))
  {
    forall i | 0 <= i <= n ensures NoLater(clock(events[i]), clock(events[n])) {
      if i == n { EarlierIsTotalOrder(clock(events[n]), clock(events[n]), clock(events[n])); }
      else { assert NoLater(Times(events, clock)[i], Times(events, clock)[n]); }
    }
  }

  lemma EarlierCut<E>(events: seq<E>, clock: E -> Instant, n: nat, cut: nat, bound: Instant)
    requires CutAt(Times(events, clock), cut, bound) && cut <= n <= |events|
    ensures CutAt(Times(events[..n], clock), cut, bound)
    ensures n < |events| ==> NoLater(bound, clock(events[n]))
    ensures forall i :: 0 <= i < cut ==> Earlier(clock(events[i]), bound)
  {
    assert Times(events[..n], clock) == Times(events, clock)[..n];
    if n < |events| { assert NoLater(bound, Times(events, clock)[n]); }
    forall i | 0 <= i < cut ensures Earlier(clock(events[i]), bound) { assert Earlier(Times(events, clock)[i], bound); }
  }

  /** Every bound cuts a clock in one place. */
  lemma {:induction false} EveryBoundCuts(times: seq<Instant>, bound: Instant) returns (cut: nat)
    requires Clocked(times)
    ensures CutAt(times, cut, bound)
  {
    if times == [] {
      cut := 0;
    } else {
      var n := |times| - 1;
      cut := EveryBoundCuts(times[..n], bound);
      if Earlier(times[n], bound) {
        forall i | 0 <= i < n ensures Earlier(times[i], bound) {
          EarlierIsTotalOrder(times[i], times[n], bound);
        }
        cut := |times|;
      } else {
        assert forall i :: 0 <= i < n ==> times[..n][i] == times[i];
      }
    }
  }
}
