/** What each escrow operation asks and does, stated outright; and the tables the operations change in place. */
module EscrowTable {
  import opened Calendar
  import opened Standing
  import opened Sums
  import opened Escrow
  import Movements

  // ---------------------------------------------------------------- what an operation asks

  /** Neither withdrawn nor another restriction's: what a release takes of the cash held. */
  function TakenFrom(restriction: nat): Release -> int {
    (r: Release) => if r.restriction == restriction && r.stamps.status != Reversed then r.amount else 0
  }

  /** Whatever was held of a receipt has been withdrawn. */
  ghost predicate NoneStands(s: State, receipt: nat) {
    forall i :: 0 <= i < |s.restrictions| && s.restrictions[i].receipt == receipt ==>
      s.restrictions[i].stamps.status == Reversed
  }

  ghost predicate May(s: State, e: Event) {
    match e.action
    case RecordReceipt(amount, _) => amount > 0
    case ConfirmReceipt(id) => id < |s.receipts| && s.receipts[id].stamps.status == Recorded
    case ReverseReceipt(id) => id < |s.receipts| && s.receipts[id].stamps.status == Confirmed
    case RecordRestriction(receipt, amount) =>
      && receipt < |s.receipts| && s.receipts[receipt].stamps.status == Confirmed
      && 0 <= amount <= s.receipts[receipt].amount
      && NoneStands(s, receipt)
    case ConfirmRestriction(id) =>
      && id < |s.restrictions| && s.restrictions[id].stamps.status == Recorded
      && (e.actor.masterAdmin || e.actor.user != s.restrictions[id].recordedBy)
    case ReverseRestriction(id) =>
      && id < |s.restrictions| && s.restrictions[id].stamps.status in {Recorded, Confirmed}
      && (forall k :: 0 <= k < |s.releases| && s.releases[k].restriction == id ==>
            s.releases[k].stamps.status == Reversed)
    case RecordRelease(restriction, _, amount) =>
      && restriction < |s.restrictions| && s.restrictions[restriction].stamps.status == Confirmed
      && 0 < amount <= s.restrictions[restriction].amount - Sum(s.releases, TakenFrom(restriction))
    case ConfirmRelease(id) =>
      id < |s.releases| && s.releases[id].stamps.status == Recorded && e.actor.user != s.releases[id].recordedBy
    case ReverseRelease(id) => id < |s.releases| && s.releases[id].stamps.status in {Recorded, Confirmed}
  }

  // ---------------------------------------------------------------- what it does

  function FreshStamps(): Stamps { Stamps(Recorded, None, None) }

  /** Confirmed now; whatever was withdrawn stays as it was written. */
  function ConfirmedAt(stamps: Stamps, now: Instant): Stamps { Stamps(Confirmed, Some(now), stamps.reversedAt) }

  /** Withdrawn now, and still telling when it was confirmed. */
  function WithdrawnAt(stamps: Stamps, now: Instant): Stamps { Stamps(Reversed, stamps.confirmedAt, Some(now)) }

  ghost predicate Does(s: State, s': State, e: Event) {
    match e.action
    case RecordReceipt(amount, date) =>
      && s'.restrictions == s.restrictions && s'.releases == s.releases
      && s'.receipts == s.receipts + [Receipt(amount, date, FreshStamps())]
    case ConfirmReceipt(id) =>
      && s'.restrictions == s.restrictions && s'.releases == s.releases && id < |s.receipts|
      && var row := s.receipts[id];
         s'.receipts == s.receipts[id := Receipt(row.amount, row.date, ConfirmedAt(row.stamps, e.now))]
    case ReverseReceipt(id) =>
      && s'.restrictions == s.restrictions && s'.releases == s.releases && id < |s.receipts|
      && var row := s.receipts[id];
         s'.receipts == s.receipts[id := Receipt(row.amount, row.date, WithdrawnAt(row.stamps, e.now))]
    case RecordRestriction(receipt, amount) =>
      && s'.receipts == s.receipts && s'.releases == s.releases
      && s'.restrictions == s.restrictions + [Restriction(receipt, amount, e.actor.user, FreshStamps())]
    case ConfirmRestriction(id) =>
      && s'.receipts == s.receipts && s'.releases == s.releases && id < |s.restrictions|
      && var row := s.restrictions[id];
         s'.restrictions == s.restrictions[id := Restriction(row.receipt, row.amount, row.recordedBy,
                                                             ConfirmedAt(row.stamps, e.now))]
    case ReverseRestriction(id) =>
      && s'.receipts == s.receipts && s'.releases == s.releases && id < |s.restrictions|
      && var row := s.restrictions[id];
         s'.restrictions == s.restrictions[id := Restriction(row.receipt, row.amount, row.recordedBy,
                                                             WithdrawnAt(row.stamps, e.now))]
    case RecordRelease(restriction, date, amount) =>
      && s'.receipts == s.receipts && s'.restrictions == s.restrictions
      && s'.releases == s.releases + [Release(|s.releases|, restriction, date, amount, e.actor.user, None,
                                              FreshStamps())]
    case ConfirmRelease(id) =>
      && s'.receipts == s.receipts && s'.restrictions == s.restrictions && id < |s.releases|
      && var row := s.releases[id];
         s'.releases == s.releases[id := Release(row.id, row.restriction, row.date, row.amount, row.recordedBy,
                                                 Some(e.actor.user), ConfirmedAt(row.stamps, e.now))]
    case ReverseRelease(id) =>
      && s'.receipts == s.receipts && s'.restrictions == s.restrictions && id < |s.releases|
      && var row := s.releases[id];
         s'.releases == s.releases[id := Release(row.id, row.restriction, row.date, row.amount, row.recordedBy,
                                                 row.confirmedBy, WithdrawnAt(row.stamps, e.now))]
  }

  lemma TakenIsReleased(releases: seq<Release>, restriction: nat)
    ensures ReleasedAgainst(releases, restriction, None) == Sum(releases, TakenFrom(restriction))
  {
    hide Sum;
    SumCongruent(releases, FreedFrom(restriction, None), TakenFrom(restriction));
  }

  lemma ConfirmingAsks(s: State, e: Event)
    requires Sound(s) && e.action.ConfirmRelease?
    ensures Verdict(s, e) == Movements.Done <==> May(s, e)
  {
    hide Sum, ReleasedAgainst, RestrictionsFit, OneEscrowPerReceipt;
    if e.action.id < |s.releases| {
      FreedWithout(s, e.action.id);
      assert ReleasedAgainst(s.releases, s.releases[e.action.id].restriction, None)
             <= s.restrictions[s.releases[e.action.id].restriction].amount;
    }
  }

  /** An operation is accepted exactly on what it asks; then it does what it says, and otherwise nothing. */
  lemma AnOperationDoesWhatItSays(s: State, e: Event)
    requires Sound(s)
    ensures Verdict(s, e) == Movements.Done <==> May(s, e)
    ensures May(s, e) ==> Does(s, Apply(s, e), e)
    ensures !May(s, e) ==> Apply(s, e) == s
  {
    hide Sum, Sound, ReleasedAgainst;
    match e.action
    case ConfirmRelease(_) => ConfirmingAsks(s, e);
    case RecordRelease(restriction, _, _) => TakenIsReleased(s.releases, restriction);
    case _ =>
  }

  predicate NamesNothing(s: State, action: Action) {
    match action
    case RecordReceipt(_, _) => false
    case ConfirmReceipt(id) => id >= |s.receipts|
    case ReverseReceipt(id) => id >= |s.receipts|
    case RecordRestriction(receipt, _) => receipt >= |s.receipts|
    case ConfirmRestriction(id) => id >= |s.restrictions|
    case ReverseRestriction(id) => id >= |s.restrictions|
    case RecordRelease(restriction, _, _) => restriction >= |s.restrictions|
    case ConfirmRelease(id) => id >= |s.releases|
    case ReverseRelease(id) => id >= |s.releases|
  }

  /** Confirming one's own record: the master administrator may of an escrow, and nobody may of a release. */
  predicate ConfirmsOwn(s: State, e: Event) {
    match e.action
    case ConfirmRestriction(id) =>
      && id < |s.restrictions| && s.restrictions[id].stamps.status == Recorded
      && s.restrictions[id].recordedBy == e.actor.user && !e.actor.masterAdmin
    case ConfirmRelease(id) =>
      id < |s.releases| && s.releases[id].stamps.status == Recorded && s.releases[id].recordedBy == e.actor.user
    case _ => false
  }

  /** An amount alone in the way: none, or more than the receipt; of a release, too much is a conflict instead. */
  ghost predicate AsksAmiss(s: State, e: Event) {
    match e.action
    case RecordReceipt(amount, _) => amount <= 0
    case RecordRestriction(receipt, amount) =>
      && receipt < |s.receipts| && s.receipts[receipt].stamps.status == Confirmed && NoneStands(s, receipt)
      && (amount < 0 || amount > s.receipts[receipt].amount)
    case RecordRelease(restriction, _, amount) =>
      && restriction < |s.restrictions| && s.restrictions[restriction].stamps.status == Confirmed && amount <= 0
      && amount <= s.restrictions[restriction].amount - Sum(s.releases, TakenFrom(restriction))
    case _ => false
  }

  lemma ReleaseRefused(s: State, e: Event)
    requires Sound(s) && e.action.ConfirmRelease?
    ensures Verdict(s, e) == Movements.NotFound <==> NamesNothing(s, e.action)
    ensures Verdict(s, e) == Movements.Forbidden <==> ConfirmsOwn(s, e)
  {
    hide Sum, ReleasedAgainst, RestrictionsFit, OneEscrowPerReceipt;
    if e.action.id < |s.releases| {
      FreedWithout(s, e.action.id);
      assert ReleasedAgainst(s.releases, s.releases[e.action.id].restriction, None)
             <= s.restrictions[s.releases[e.action.id].restriction].amount;
    }
  }

  /** Why an operation is refused: nothing of that name, one's own record, an amount; and otherwise a conflict. */
  lemma RefusedBecause(s: State, e: Event)
    requires Sound(s)
    ensures Verdict(s, e) == Movements.NotFound <==> NamesNothing(s, e.action)
    ensures Verdict(s, e) == Movements.Forbidden <==> ConfirmsOwn(s, e)
    ensures Verdict(s, e) == Movements.Invalid <==> AsksAmiss(s, e)
    ensures Verdict(s, e) == Movements.Conflict <==>
              !May(s, e) && !NamesNothing(s, e.action) && !ConfirmsOwn(s, e) && !AsksAmiss(s, e)
  {
    hide Sum, Sound, ReleasedAgainst;
    AnOperationDoesWhatItSays(s, e);
    match e.action
    case ConfirmRelease(_) => ReleaseRefused(s, e);
    case RecordRelease(restriction, _, _) => TakenIsReleased(s.releases, restriction);
    case _ =>
  }

  /** So it is of every operation of every run. */
  lemma EveryOperationDoesWhatItSays(events: seq<Event>, n: nat)
    requires n < |events|
    ensures var s, s', e := Run(events[..n]), Run(events[..n + 1]), events[n];
            if May(s, e) then Does(s, s', e) else s' == s
  {
    hide Sound, May, Does, Apply;
    EveryRunIsSound(events[..n]);
    assert events[..n + 1][..n] == events[..n];
    AnOperationDoesWhatItSays(Run(events[..n]), events[n]);
  }

  // ---------------------------------------------------------------- the ledger in place

  lemma SoundAfter(s: State, e: Event)
    ensures Sound(s) ==> Sound(Apply(s, e))
  {
    hide Apply, Sound;
    if Sound(s) { EveryEventKeepsSound(s, e); }
  }

  /** The three tables, changed in place by whoever holds the project lock. */
  class EscrowLedger {
    var receipts: seq<Receipt>
    var restrictions: seq<Restriction>
    var releases: seq<Release>

    function Now(): State
      reads this
    {
      State(receipts, restrictions, releases)
    }

    constructor (receipts: seq<Receipt>)
      ensures Now() == State(receipts, [], []) && Sound(Now())
    {
      this.receipts := receipts;
      restrictions := [];
      releases := [];
    }

    method RecordRestrictionOn(actor: Actor, now: Instant, receipt: nat, amount: int) returns (outcome: Outcome)
      modifies this`restrictions
      ensures outcome == Verdict(old(Now()), Event(actor, now, RecordRestriction(receipt, amount)))
      ensures Now() == Apply(old(Now()), Event(actor, now, RecordRestriction(receipt, amount)))
      ensures Sound(old(Now())) ==> Sound(Now())
      ensures Sound(old(Now())) ==>
                (outcome == Movements.Done <==> May(old(Now()), Event(actor, now, RecordRestriction(receipt, amount))))
      ensures Sound(old(Now())) ==>
                if outcome == Movements.Done
                then Does(old(Now()), Now(), Event(actor, now, RecordRestriction(receipt, amount)))
                else Now() == old(Now())
    {
      hide Sound, May;
      SoundAfter(Now(), Event(actor, now, RecordRestriction(receipt, amount)));
      if Sound(Now()) { AnOperationDoesWhatItSays(Now(), Event(actor, now, RecordRestriction(receipt, amount))); }
      if receipt >= |receipts| {
        return Movements.NotFound;
      }
      if receipts[receipt].stamps.status != Confirmed {
        return Movements.Conflict;
      }
      if HasStandingRestriction(Now(), receipt) {
        return Movements.Conflict;
      }
      if amount > receipts[receipt].amount || amount < 0 {
        return Movements.Invalid;
      }
      restrictions := restrictions + [Restriction(receipt, amount, actor.user, RECORDED)];
      outcome := Movements.Done;
    }

    method ConfirmRestrictionOf(actor: Actor, now: Instant, id: nat) returns (outcome: Outcome)
      modifies this`restrictions
      ensures outcome == Verdict(old(Now()), Event(actor, now, ConfirmRestriction(id)))
      ensures Now() == Apply(old(Now()), Event(actor, now, ConfirmRestriction(id)))
      ensures Sound(old(Now())) ==> Sound(Now())
      ensures Sound(old(Now())) ==>
                (outcome == Movements.Done <==> May(old(Now()), Event(actor, now, ConfirmRestriction(id))))
      ensures Sound(old(Now())) ==>
                if outcome == Movements.Done
                then Does(old(Now()), Now(), Event(actor, now, ConfirmRestriction(id)))
                else Now() == old(Now())
    {
      hide Sound, May;
      SoundAfter(Now(), Event(actor, now, ConfirmRestriction(id)));
      if Sound(Now()) { AnOperationDoesWhatItSays(Now(), Event(actor, now, ConfirmRestriction(id))); }
      if id >= |restrictions| {
        return Movements.NotFound;
      }
      var row := restrictions[id];
      if row.stamps.status != Recorded {
        return Movements.Conflict;
      }
      if !actor.masterAdmin && row.recordedBy == actor.user {
        return Movements.Forbidden;
      }
      restrictions := restrictions[id := row.(stamps := StampConfirmed(row.stamps, now))];
      outcome := Movements.Done;
    }

    method ReverseRestrictionOf(actor: Actor, now: Instant, id: nat) returns (outcome: Outcome)
      modifies this`restrictions
      ensures outcome == Verdict(old(Now()), Event(actor, now, ReverseRestriction(id)))
      ensures Now() == Apply(old(Now()), Event(actor, now, ReverseRestriction(id)))
      ensures Sound(old(Now())) ==> Sound(Now())
      ensures Sound(old(Now())) ==>
                (outcome == Movements.Done <==> May(old(Now()), Event(actor, now, ReverseRestriction(id))))
      ensures Sound(old(Now())) ==>
                if outcome == Movements.Done
                then Does(old(Now()), Now(), Event(actor, now, ReverseRestriction(id)))
                else Now() == old(Now())
    {
      hide Sound, May;
      SoundAfter(Now(), Event(actor, now, ReverseRestriction(id)));
      if Sound(Now()) { AnOperationDoesWhatItSays(Now(), Event(actor, now, ReverseRestriction(id))); }
      if id >= |restrictions| {
        return Movements.NotFound;
      }
      if HasStandingRelease(Now(), id) {
        return Movements.Conflict;
      }
      var row := restrictions[id];
      if row.stamps.status == Reversed {
        return Movements.Conflict;
      }
      restrictions := restrictions[id := row.(stamps := StampReversed(row.stamps, now))];
      outcome := Movements.Done;
    }

    method RecordReleaseOf(actor: Actor, now: Instant, restriction: nat, date: Date, amount: int)
      returns (outcome: Outcome)
      modifies this`releases
      ensures outcome == Verdict(old(Now()), Event(actor, now, RecordRelease(restriction, date, amount)))
      ensures Now() == Apply(old(Now()), Event(actor, now, RecordRelease(restriction, date, amount)))
      ensures Sound(old(Now())) ==> Sound(Now())
      ensures Sound(old(Now())) ==>
                (outcome == Movements.Done
                 <==> May(old(Now()), Event(actor, now, RecordRelease(restriction, date, amount))))
      ensures Sound(old(Now())) ==>
                if outcome == Movements.Done
                then Does(old(Now()), Now(), Event(actor, now, RecordRelease(restriction, date, amount)))
                else Now() == old(Now())
    {
      hide Sound, May;
      SoundAfter(Now(), Event(actor, now, RecordRelease(restriction, date, amount)));
      if Sound(Now()) { AnOperationDoesWhatItSays(Now(), Event(actor, now, RecordRelease(restriction, date, amount))); }
      if restriction >= |restrictions| {
        return Movements.NotFound;
      }
      if restrictions[restriction].stamps.status != Confirmed {
        return Movements.Conflict;
      }
      var already := ReleasedAgainst(releases, restriction, None);
      if already + amount > restrictions[restriction].amount {
        return Movements.Conflict;
      }
      if amount <= 0 {
        return Movements.Invalid;
      }
      releases := releases + [Release(|releases|, restriction, date, amount, actor.user, None, RECORDED)];
      outcome := Movements.Done;
    }

    method ConfirmReleaseOf(actor: Actor, now: Instant, id: nat) returns (outcome: Outcome)
      modifies this`releases
      ensures outcome == Verdict(old(Now()), Event(actor, now, ConfirmRelease(id)))
      ensures Now() == Apply(old(Now()), Event(actor, now, ConfirmRelease(id)))
      ensures Sound(old(Now())) ==> Sound(Now())
      ensures Sound(old(Now())) ==>
                (outcome == Movements.Done <==> May(old(Now()), Event(actor, now, ConfirmRelease(id))))
      ensures Sound(old(Now())) ==>
                if outcome == Movements.Done
                then Does(old(Now()), Now(), Event(actor, now, ConfirmRelease(id)))
                else Now() == old(Now())
    {
      hide Sound, May;
      SoundAfter(Now(), Event(actor, now, ConfirmRelease(id)));
      if Sound(Now()) { AnOperationDoesWhatItSays(Now(), Event(actor, now, ConfirmRelease(id))); }
      if id >= |releases| || releases[id].restriction >= |restrictions| {
        return Movements.NotFound;
      }
      var row := releases[id];
      var already := ReleasedAgainst(releases, row.restriction, Some(id));
      if already + row.amount > restrictions[row.restriction].amount {
        return Movements.Conflict;
      }
      if row.stamps.status != Recorded {
        return Movements.Conflict;
      }
      // The lifecycle rule would let the master administrator past; the table's own check does not.
      if row.recordedBy == actor.user {
        return Movements.Forbidden;
      }
      releases := releases[id := row.(stamps := StampConfirmed(row.stamps, now), confirmedBy := Some(actor.user))];
      outcome := Movements.Done;
    }

    method ReverseReleaseOf(actor: Actor, now: Instant, id: nat) returns (outcome: Outcome)
      modifies this`releases
      ensures outcome == Verdict(old(Now()), Event(actor, now, ReverseRelease(id)))
      ensures Now() == Apply(old(Now()), Event(actor, now, ReverseRelease(id)))
      ensures Sound(old(Now())) ==> Sound(Now())
      ensures Sound(old(Now())) ==>
                (outcome == Movements.Done <==> May(old(Now()), Event(actor, now, ReverseRelease(id))))
      ensures Sound(old(Now())) ==>
                if outcome == Movements.Done
                then Does(old(Now()), Now(), Event(actor, now, ReverseRelease(id)))
                else Now() == old(Now())
    {
      hide Sound, May;
      SoundAfter(Now(), Event(actor, now, ReverseRelease(id)));
      if Sound(Now()) { AnOperationDoesWhatItSays(Now(), Event(actor, now, ReverseRelease(id))); }
      if id >= |releases| {
        return Movements.NotFound;
      }
      if releases[id].stamps.status == Reversed {
        return Movements.Conflict;
      }
      releases := releases[id := releases[id].(stamps := StampReversed(releases[id].stamps, now))];
      outcome := Movements.Done;
    }
  }
}
