/** Dated reads of the escrow ledger, over every run of its operations. */
module EscrowHistory {
  import opened Standing
  import opened Sums
  import opened Escrow

  ghost predicate Stamped(s: State, now: Instant) {
    && (forall i :: 0 <= i < |s.receipts| ==> WellStamped(s.receipts[i].stamps, now))
    && (forall i :: 0 <= i < |s.restrictions| ==> WellStamped(s.restrictions[i].stamps, now))
    && (forall i :: 0 <= i < |s.releases| ==> WellStamped(s.releases[i].stamps, now))
  }

  ghost predicate ReceiptsKept(s: seq<Receipt>, s': seq<Receipt>, bound: Instant) {
    && |s| <= |s'|
    && (forall i :: 0 <= i < |s| ==>
          && s'[i].(stamps := s[i].stamps) == s[i]
          && (StandingBefore(s'[i].stamps, bound) <==> StandingBefore(s[i].stamps, bound)))
    && (forall i :: |s| <= i < |s'| ==> !StandingBefore(s'[i].stamps, bound))
  }

  ghost predicate RestrictionsKept(s: seq<Restriction>, s': seq<Restriction>, bound: Instant) {
    && |s| <= |s'|
    && (forall i :: 0 <= i < |s| ==>
          && s'[i].(stamps := s[i].stamps) == s[i]
          && (StandingBefore(s'[i].stamps, bound) <==> StandingBefore(s[i].stamps, bound)))
    && (forall i :: |s| <= i < |s'| ==> !StandingBefore(s'[i].stamps, bound))
  }

  ghost predicate ReleasesKept(s: seq<Release>, s': seq<Release>, bound: Instant) {
    && |s| <= |s'|
    && (forall i :: 0 <= i < |s| ==>
          && s'[i].restriction == s[i].restriction && s'[i].amount == s[i].amount && s'[i].date == s[i].date
          && (StandingBefore(s'[i].stamps, bound) <==> StandingBefore(s[i].stamps, bound)))
    && (forall i :: |s| <= i < |s'| ==> !StandingBefore(s'[i].stamps, bound))
  }

  /** Rows kept, their terms kept, and the same ones standing before the bound; new rows never were. */
  ghost predicate SamePast(s: State, s': State, bound: Instant) {
    && ReceiptsKept(s.receipts, s'.receipts, bound)
    && RestrictionsKept(s.restrictions, s'.restrictions, bound)
    && ReleasesKept(s.releases, s'.releases, bound)
  }

  lemma SamePastChains(a: State, b: State, c: State, bound: Instant)
    requires SamePast(a, b, bound) && SamePast(b, c, bound)
    ensures SamePast(a, c, bound)
  {
  }

  lemma EventKeepsStamped(s: State, e: Event, before: Instant)
    requires Stamped(s, before) && NoLater(before, e.now)
    ensures Stamped(Apply(s, e), e.now)
  {
    var s' := Apply(s, e);
    forall i | 0 <= i < |s'.receipts| ensures WellStamped(s'.receipts[i].stamps, e.now) {
      if i < |s.receipts| { EvolvingKeepsStamps(s.receipts[i].stamps, s'.receipts[i].stamps, before, e.now); }
    }
    forall i | 0 <= i < |s'.restrictions| ensures WellStamped(s'.restrictions[i].stamps, e.now) {
      if i < |s.restrictions| {
        EvolvingKeepsStamps(s.restrictions[i].stamps, s'.restrictions[i].stamps, before, e.now);
      }
    }
    forall i | 0 <= i < |s'.releases| ensures WellStamped(s'.releases[i].stamps, e.now) {
      if i < |s.releases| { EvolvingKeepsStamps(s.releases[i].stamps, s'.releases[i].stamps, before, e.now); }
    }
  }

  lemma {:induction false} RunIsStamped(events: seq<Event>, now: Instant)
    requires Clocked(Times(events, When))
    requires forall i :: 0 <= i < |events| ==> NoLater(events[i].now, now)
    ensures Stamped(Run(events), now)
  {
    hide Apply;
    if events != [] {
      var n, last := |events| - 1, events[|events| - 1];
      EarlierTimes(events, When, n);
      RunIsStamped(events[..n], last.now);
      EventKeepsStamped(Run(events[..n]), last, last.now);
      StampedLater(Run(events), last.now, now);
    }
  }

  lemma StampedLater(s: State, before: Instant, now: Instant)
    requires Stamped(s, before) && NoLater(before, now)
    ensures Stamped(s, now)
  {
    forall i | 0 <= i < |s.receipts| ensures WellStamped(s.receipts[i].stamps, now) {
      EvolvingKeepsStamps(s.receipts[i].stamps, s.receipts[i].stamps, before, now);
    }
    forall i | 0 <= i < |s.restrictions| ensures WellStamped(s.restrictions[i].stamps, now) {
      EvolvingKeepsStamps(s.restrictions[i].stamps, s.restrictions[i].stamps, before, now);
    }
    forall i | 0 <= i < |s.releases| ensures WellStamped(s.releases[i].stamps, now) {
      EvolvingKeepsStamps(s.releases[i].stamps, s.releases[i].stamps, before, now);
    }
  }

  lemma LaterEventKeepsReceipts(s: State, e: Event, before: Instant, bound: Instant)
    requires Stamped(s, before) && NoLater(bound, e.now)
    ensures ReceiptsKept(s.receipts, Apply(s, e).receipts, bound)
  {
    hide StandingBefore, Sum, NoLater, HasStandingRestriction, HasStandingRelease, CeilingBroken;
    var s' := Apply(s, e);
    forall i | 0 <= i < |s.receipts|
      ensures StandingBefore(s'.receipts[i].stamps, bound) <==> StandingBefore(s.receipts[i].stamps, bound)
    {
      LaterEventsKeepThePast(s.receipts[i].stamps, s'.receipts[i].stamps, e.now, bound);
    }
    NeverRecordedStands(bound);
  }

  lemma LaterEventKeepsRestrictions(s: State, e: Event, before: Instant, bound: Instant)
    requires Stamped(s, before) && NoLater(bound, e.now)
    ensures RestrictionsKept(s.restrictions, Apply(s, e).restrictions, bound)
  {
    hide StandingBefore, Sum, NoLater, HasStandingRestriction, HasStandingRelease, CeilingBroken;
    var s' := Apply(s, e);
    forall i | 0 <= i < |s.restrictions|
      ensures StandingBefore(s'.restrictions[i].stamps, bound) <==> StandingBefore(s.restrictions[i].stamps, bound)
    {
      LaterEventsKeepThePast(s.restrictions[i].stamps, s'.restrictions[i].stamps, e.now, bound);
    }
    NeverRecordedStands(bound);
  }

  lemma LaterEventKeepsReleases(s: State, e: Event, before: Instant, bound: Instant)
    requires Stamped(s, before) && NoLater(bound, e.now)
    ensures ReleasesKept(s.releases, Apply(s, e).releases, bound)
  {
    hide StandingBefore, Sum, NoLater, HasStandingRestriction, HasStandingRelease, CeilingBroken;
    var s' := Apply(s, e);
    forall i | 0 <= i < |s.releases|
      ensures StandingBefore(s'.releases[i].stamps, bound) <==> StandingBefore(s.releases[i].stamps, bound)
    {
      LaterEventsKeepThePast(s.releases[i].stamps, s'.releases[i].stamps, e.now, bound);
    }
    NeverRecordedStands(bound);
  }

  lemma LaterEventKeepsThePast(s: State, e: Event, before: Instant, bound: Instant)
    requires Stamped(s, before) && NoLater(bound, e.now)
    ensures SamePast(s, Apply(s, e), bound)
  {
    LaterEventKeepsReceipts(s, e, before, bound);
    LaterEventKeepsRestrictions(s, e, before, bound);
    LaterEventKeepsReleases(s, e, before, bound);
  }

  lemma NeverRecordedStands(bound: Instant)
    ensures !StandingBefore(RECORDED, bound)
  {
  }

  /** Nothing done after a bound changes what the ledger answers about the time before it. */
  lemma {:induction false} ThePastIsSettled(events: seq<Event>, cut: nat, bound: Instant)
    requires Clocked(Times(events, When)) && CutAt(Times(events, When), cut, bound)
    ensures SamePast(Run(events[..cut]), Run(events), bound)
  {
    hide Apply, SamePast;
    if cut == |events| {
      assert events[..cut] == events;
      SamePastOfItself(Run(events), bound);
    } else {
      var n, last := |events| - 1, events[|events| - 1];
      assert events[..n][..cut] == events[..cut];
      EarlierTimes(events, When, n);
      EarlierCut(events, When, n, cut, bound);
      ThePastIsSettled(events[..n], cut, bound);
      RunIsStamped(events[..n], last.now);
      LaterEventKeepsThePast(Run(events[..n]), last, last.now, bound);
      SamePastChains(Run(events[..cut]), Run(events[..n]), Run(events), bound);
    }
  }

  lemma SamePastOfItself(s: State, bound: Instant)
    ensures SamePast(s, s, bound)
  {
  }

  /** At the bound itself, what stands before it is what is confirmed. */
  lemma AtTheBound(events: seq<Event>, bound: Instant)
    requires Clocked(Times(events, When)) && CutAt(Times(events, When), |events|, bound)
    ensures var s := Run(events);
            && (forall i :: 0 <= i < |s.receipts| ==>
                  (StandingBefore(s.receipts[i].stamps, bound) <==> s.receipts[i].stamps.status == Confirmed))
            && (forall i :: 0 <= i < |s.restrictions| ==>
                  (StandingBefore(s.restrictions[i].stamps, bound) <==> s.restrictions[i].stamps.status == Confirmed))
            && (forall i :: 0 <= i < |s.releases| ==>
                  (StandingBefore(s.releases[i].stamps, bound) <==> s.releases[i].stamps.status == Confirmed))
  {
    hide Apply;
    var s := Run(events);
    if events != [] {
      var n := |events| - 1;
      var now := events[n].now;
      EarlierTimes(events, When, n);
      EarlierCut(events, When, |events|, |events|, bound);
      RunIsStamped(events, now);
      forall i | 0 <= i < |s.receipts|
        ensures StandingBefore(s.receipts[i].stamps, bound) <==> s.receipts[i].stamps.status == Confirmed
      {
        BeforeTheBoundStatusAnswers(s.receipts[i].stamps, now, bound);
      }
      forall i | 0 <= i < |s.restrictions|
        ensures StandingBefore(s.restrictions[i].stamps, bound) <==> s.restrictions[i].stamps.status == Confirmed
      {
        BeforeTheBoundStatusAnswers(s.restrictions[i].stamps, now, bound);
      }
      forall i | 0 <= i < |s.releases|
        ensures StandingBefore(s.releases[i].stamps, bound) <==> s.releases[i].stamps.status == Confirmed
      {
        BeforeTheBoundStatusAnswers(s.releases[i].stamps, now, bound);
      }
    }
  }

  // ---------------------------------------------------------------- ceilings as at a date

  /** What the releases standing before a bound free from one restriction. */
  function FreedBefore(restriction: nat, bound: Instant): Release -> int {
    (r: Release) => if r.restriction == restriction && StandingBefore(r.stamps, bound) then r.amount else 0
  }

  /** As at any bound, releases are within their restriction, and stand only while it does. */
  ghost predicate SoundBefore(s: State, bound: Instant) {
    && (forall i :: 0 <= i < |s.restrictions| ==>
          s.restrictions[i].receipt < |s.receipts|
          && 0 <= Sum(s.releases, FreedBefore(i, bound)) <= s.restrictions[i].amount)
    && (forall k :: 0 <= k < |s.releases| ==>
          s.releases[k].amount > 0 && s.releases[k].restriction < |s.restrictions|
          && (StandingBefore(s.releases[k].stamps, bound) ==>
                StandingBefore(s.restrictions[s.releases[k].restriction].stamps, bound)))
  }

  /** At the bound, the releases confirmed free no more than those standing, so no more than is held. */
  lemma CeilingsAtTheBound(s: State, bound: Instant)
    requires Sound(s)
    requires forall i :: 0 <= i < |s.restrictions| ==>
              (StandingBefore(s.restrictions[i].stamps, bound) <==> s.restrictions[i].stamps.status == Confirmed)
    requires forall i :: 0 <= i < |s.releases| ==>
              (StandingBefore(s.releases[i].stamps, bound) <==> s.releases[i].stamps.status == Confirmed)
    ensures SoundBefore(s, bound)
  {
    forall i | 0 <= i < |s.restrictions|
      ensures 0 <= Sum(s.releases, FreedBefore(i, bound)) <= s.restrictions[i].amount
    {
      SumMonotone(s.releases, FreedBefore(i, bound), FreedFrom(i, None));
      SumNonNegative(s.releases, FreedBefore(i, bound));
    }
  }

  lemma CeilingsFromThePast(s: State, s': State, bound: Instant)
    requires SoundBefore(s, bound) && SamePast(s, s', bound) && Sound(s')
    ensures SoundBefore(s', bound)
  {
    forall i | 0 <= i < |s'.restrictions|
      ensures 0 <= Sum(s'.releases, FreedBefore(i, bound)) <= s'.restrictions[i].amount
    {
      FreedBeforeIsSettled(s, s', bound, i);
      if i >= |s.restrictions| {
        SumZero(s.releases, FreedBefore(i, bound));
      }
    }
  }

  lemma FreedBeforeIsSettled(s: State, s': State, bound: Instant, i: nat)
    requires SamePast(s, s', bound)
    ensures Sum(s'.releases, FreedBefore(i, bound)) == Sum(s.releases, FreedBefore(i, bound))
  {
    var n, f := |s.releases|, FreedBefore(i, bound);
    SumAligned(s'.releases[..n], s.releases, f, f);
    SumZero(s'.releases[n..], f);
    assert s'.releases == s'.releases[..n] + s'.releases[n..];
    SumAppend(s'.releases[..n], s'.releases[n..], f);
  }

  /** Whenever it is asked, and whatever has happened since, a dated read of the ledger is within its ceilings. */
  lemma DatedEscrowIsSound(events: seq<Event>, bound: Instant)
    requires Clocked(Times(events, When))
    ensures SoundBefore(Run(events), bound)
  {
    hide Apply, Sound, SamePast, SoundBefore;
    var cut := EveryBoundCuts(Times(events, When), bound);
    var early := events[..cut];
    EarlierCut(events, When, cut, cut, bound);
    if cut < |events| { EarlierTimes(events, When, cut); } else { assert early == events; }
    EveryRunIsSound(early);
    EveryRunIsSound(events);
    AtTheBound(early, bound);
    CeilingsAtTheBound(Run(early), bound);
    ThePastIsSettled(events, cut, bound);
    CeilingsFromThePast(Run(early), Run(events), bound);
  }
}
