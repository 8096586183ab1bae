/** Restricted customer cash: receipts, the escrow taken out of them, and the releases that free it. */
module Escrow {
  import opened Calendar
  import opened Standing
  import opened Sums
  import Movements

  type Actor = Movements.Actor
  type Outcome = Movements.Outcome

  datatype Receipt = Receipt(amount: int, date: Date, stamps: Stamps)

  datatype Restriction = Restriction(receipt: nat, amount: int, recordedBy: int, stamps: Stamps)

  datatype Release = Release(
    id: nat, restriction: nat, date: Date, amount: int, recordedBy: int, confirmedBy: Option<int>, stamps: Stamps)

  datatype State = State(receipts: seq<Receipt>, restrictions: seq<Restriction>, releases: seq<Release>)

  datatype Action =
    | RecordReceipt(amount: int, date: Date)
    | ConfirmReceipt(id: nat)
    | ReverseReceipt(id: nat)
    | RecordRestriction(receipt: nat, amount: int)
    | ConfirmRestriction(id: nat)
    | ReverseRestriction(id: nat)
    | RecordRelease(restriction: nat, date: Date, amount: int)
    | ConfirmRelease(id: nat)
    | ReverseRelease(id: nat)

  datatype Event = Event(actor: Actor, now: Instant, action: Action)

  const When: Event -> Instant := (e: Event) => e.now

  /** Recorded or confirmed: not withdrawn. */
  predicate Stands(s: Stamps) { s.status == Recorded || s.status == Confirmed }

  /** What standing releases free from one restriction, leaving one release out of the count. */
  function FreedFrom(restriction: nat, except: Option<nat>): Release -> int {
    (r: Release) => if r.restriction == restriction && Stands(r.stamps) && except != Some(r.id) then r.amount else 0
  }

  function ReleasedAgainst(releases: seq<Release>, restriction: nat, except: Option<nat>): int {
    Sum(releases, FreedFrom(restriction, except))
  }

  predicate HasStandingRestriction(s: State, receipt: nat) {
    exists i :: 0 <= i < |s.restrictions| && s.restrictions[i].receipt == receipt && Stands(s.restrictions[i].stamps)
  }

  predicate HasStandingRelease(s: State, restriction: nat) {
    exists k :: 0 <= k < |s.releases| && s.releases[k].restriction == restriction && Stands(s.releases[k].stamps)
  }

  // ---------------------------------------------------------------- the rules

  function Verdict(s: State, e: Event): Outcome {
    match e.action
    case RecordReceipt(amount, _) => if amount <= 0 then Movements.Invalid else Movements.Done
    case ConfirmReceipt(id) =>
      if id >= |s.receipts| then Movements.NotFound
      else if s.receipts[id].stamps.status != Recorded then Movements.Conflict else Movements.Done
    case ReverseReceipt(id) =>
      if id >= |s.receipts| then Movements.NotFound
      else if s.receipts[id].stamps.status != Confirmed then Movements.Conflict else Movements.Done
    case RecordRestriction(receipt, amount) =>
      if receipt >= |s.receipts| then Movements.NotFound
      else if s.receipts[receipt].stamps.status != Confirmed then Movements.Conflict
      else if HasStandingRestriction(s, receipt) then Movements.Conflict
      else if amount > s.receipts[receipt].amount || amount < 0 then Movements.Invalid
      else Movements.Done
    case ConfirmRestriction(id) =>
      if id >= |s.restrictions| then Movements.NotFound
      else if s.restrictions[id].stamps.status != Recorded then Movements.Conflict
      else if !e.actor.masterAdmin && s.restrictions[id].recordedBy == e.actor.user then Movements.Forbidden
      else Movements.Done
    case ReverseRestriction(id) =>
      if id >= |s.restrictions| then Movements.NotFound
      else if HasStandingRelease(s, id) || s.restrictions[id].stamps.status == Reversed then Movements.Conflict
      else Movements.Done
    case RecordRelease(restriction, _, amount) =>
      if restriction >= |s.restrictions| then Movements.NotFound
      else if s.restrictions[restriction].stamps.status != Confirmed then Movements.Conflict
      else if CeilingBroken(s, restriction, None, amount) then Movements.Conflict
      else if amount <= 0 then Movements.Invalid
      else Movements.Done
    case ConfirmRelease(id) =>
      if id >= |s.releases| || s.releases[id].restriction >= |s.restrictions| then Movements.NotFound
      else if CeilingBroken(s, s.releases[id].restriction, Some(id), s.releases[id].amount) then Movements.Conflict
      else if s.releases[id].stamps.status != Recorded then Movements.Conflict
      else if s.releases[id].recordedBy == e.actor.user then Movements.Forbidden
      else Movements.Done
    case ReverseRelease(id) =>
      if id >= |s.releases| then Movements.NotFound
      else if s.releases[id].stamps.status == Reversed then Movements.Conflict else Movements.Done
  }

  /** Whether freeing `amount` more would free more than the restriction holds. */
  predicate CeilingBroken(s: State, restriction: nat, except: Option<nat>, amount: int)
    requires restriction < |s.restrictions|
  {
    ReleasedAgainst(s.releases, restriction, except) + amount > s.restrictions[restriction].amount
  }

  function Apply(s: State, e: Event): State {
    if Verdict(s, e) != Movements.Done then s
    else
      match e.action
      case RecordReceipt(amount, date) =>
        s.(receipts := s.receipts + [Receipt(amount, date, RECORDED)])
      case ConfirmReceipt(id) =>
        s.(receipts := s.receipts[id := s.receipts[id].(stamps := StampConfirmed(s.receipts[id].stamps, e.now))])
      case ReverseReceipt(id) =>
        s.(receipts := s.receipts[id := s.receipts[id].(stamps := StampReversed(s.receipts[id].stamps, e.now))])
      case RecordRestriction(receipt, amount) =>
        s.(restrictions := s.restrictions + [Restriction(receipt, amount, e.actor.user, RECORDED)])
      case ConfirmRestriction(id) =>
        s.(restrictions :=
             s.restrictions[id := s.restrictions[id].(stamps := StampConfirmed(s.restrictions[id].stamps, e.now))])
      case ReverseRestriction(id) =>
        s.(restrictions :=
             s.restrictions[id := s.restrictions[id].(stamps := StampReversed(s.restrictions[id].stamps, e.now))])
      case RecordRelease(restriction, date, amount) =>
        s.(releases := s.releases + [Release(|s.releases|, restriction, date, amount, e.actor.user, None, RECORDED)])
      case ConfirmRelease(id) =>
        s.(releases := s.releases[id := s.releases[id].(stamps := StampConfirmed(s.releases[id].stamps, e.now),
                                                        confirmedBy := Some(e.actor.user))])
      case ReverseRelease(id) =>
        s.(releases := s.releases[id := s.releases[id].(stamps := StampReversed(s.releases[id].stamps, e.now))])
  }

  // ---------------------------------------------------------------- what every event keeps

  ghost predicate RestrictionsFit(s: State) {
    forall i :: 0 <= i < |s.restrictions| ==>
      && s.restrictions[i].receipt < |s.receipts|
      && 0 <= s.restrictions[i].amount <= s.receipts[s.restrictions[i].receipt].amount
  }

  ghost predicate OneEscrowPerReceipt(s: State) {
    forall i, j ::
      (0 <= i < j < |s.restrictions| && Stands(s.restrictions[i].stamps) && Stands(s.restrictions[j].stamps)) ==>
        s.restrictions[i].receipt != s.restrictions[j].receipt
  }

  ghost predicate ReleasesHold(s: State) {
    forall k :: 0 <= k < |s.releases| ==>
      && s.releases[k].id == k
      && s.releases[k].amount > 0
      && s.releases[k].restriction < |s.restrictions|
      && (Stands(s.releases[k].stamps) ==> s.restrictions[s.releases[k].restriction].stamps.status == Confirmed)
      && (s.releases[k].confirmedBy.Some? ==> s.releases[k].confirmedBy.value != s.releases[k].recordedBy)
      && (s.releases[k].stamps.status == Confirmed ==> s.releases[k].confirmedBy.Some?)
  }

  /** No escrow frees more than it holds. */
  ghost predicate WithinCeilings(s: State) {
    forall i :: 0 <= i < |s.restrictions| ==> ReleasedAgainst(s.releases, i, None) <= s.restrictions[i].amount
  }

  ghost predicate Sound(s: State) {
    RestrictionsFit(s) && OneEscrowPerReceipt(s) && ReleasesHold(s) && WithinCeilings(s)
  }

  /** One release more, or one release with other stamps, moves the count by that release alone. */
  lemma FreedByOneMore(releases: seq<Release>, r: Release, restriction: nat)
    ensures ReleasedAgainst(releases + [r], restriction, None)
            == ReleasedAgainst(releases, restriction, None) + FreedFrom(restriction, None)(r)
  {
    SumSnoc(releases, r, FreedFrom(restriction, None));
  }

  lemma FreedAfterChange(releases: seq<Release>, id: nat, r: Release, restriction: nat)
    requires id < |releases|
    ensures ReleasedAgainst(releases[id := r], restriction, None)
            == ReleasedAgainst(releases, restriction, None)
               - FreedFrom(restriction, None)(releases[id]) + FreedFrom(restriction, None)(r)
  {
    var f, after := FreedFrom(restriction, None), releases[id := r];
    SumRemoveAt(releases, id, f);
    SumRemoveAt(after, id, f);
    assert after[..id] + after[id + 1..] == releases[..id] + releases[id + 1..];
  }

  /** Leaving a standing release out of the count takes away exactly its amount. */
  lemma FreedWithout(s: State, id: nat)
    requires ReleasesHold(s) && id < |s.releases|
    ensures var r := s.releases[id];
            ReleasedAgainst(s.releases, r.restriction, Some(id)) + (if Stands(r.stamps) then r.amount else 0)
            == ReleasedAgainst(s.releases, r.restriction, None)
  {
    hide Sum;
    var r := s.releases[id];
    var all, others := FreedFrom(r.restriction, None), FreedFrom(r.restriction, Some(id));
    var rest := s.releases[..id] + s.releases[id + 1..];
    SumRemoveAt(s.releases, id, all);
    SumRemoveAt(s.releases, id, others);
    forall x | x in rest ensures all(x) == others(x) {
      var k :| 0 <= k < |rest| && rest[k] == x;
      assert x == s.releases[if k < id then k else k + 1];
    }
    SumCongruent(rest, all, others);
  }

  lemma ReceiptEventsKeepSound(s: State, e: Event)
    requires Sound(s) && (e.action.RecordReceipt? || e.action.ConfirmReceipt? || e.action.ReverseReceipt?)
    ensures Sound(Apply(s, e))
  {
  }

  lemma RecordedRestrictionKeepsSound(s: State, e: Event)
    requires Sound(s) && e.action.RecordRestriction?
    ensures Sound(Apply(s, e))
  {
    hide Sum, ReleasedAgainst;
    NothingFreedYet(s);
  }

  lemma NothingFreedYet(s: State)
    requires ReleasesHold(s)
    ensures ReleasedAgainst(s.releases, |s.restrictions|, None) == 0
  {
    SumZero(s.releases, FreedFrom(|s.restrictions|, None));
  }

  lemma ConfirmedRestrictionKeepsSound(s: State, e: Event)
    requires Sound(s) && e.action.ConfirmRestriction?
    ensures Sound(Apply(s, e))
  {
  }

  lemma ReversedRestrictionKeepsSound(s: State, e: Event)
    requires Sound(s) && e.action.ReverseRestriction?
    ensures Sound(Apply(s, e))
  {
  }

  lemma ReleaseEventsKeepShape(s: State, e: Event)
    requires Sound(s) && (e.action.RecordRelease? || e.action.ConfirmRelease? || e.action.ReverseRelease?)
    ensures ReleasesHold(Apply(s, e))
    ensures Apply(s, e).restrictions == s.restrictions && Apply(s, e).receipts == s.receipts
  {
    hide Sum, WithinCeilings, RestrictionsFit, OneEscrowPerReceipt, CeilingBroken;
  }

  lemma ReleaseEventsKeepCeilings(s: State, e: Event, i: nat)
    requires Sound(s) && (e.action.RecordRelease? || e.action.ConfirmRelease? || e.action.ReverseRelease?)
    requires i < |s.restrictions|
    ensures ReleasedAgainst(Apply(s, e).releases, i, None) <= s.restrictions[i].amount
  {
    hide Sum, ReleasedAgainst, RestrictionsFit, OneEscrowPerReceipt;
    var s' := Apply(s, e);
    if Verdict(s, e) == Movements.Done {
      match e.action
      case RecordRelease(restriction, date, amount) =>
        FreedByOneMore(s.releases, s'.releases[|s.releases|], i);
      case ConfirmRelease(id) =>
        FreedAfterChange(s.releases, id, s'.releases[id], i);
      case ReverseRelease(id) =>
        FreedAfterChange(s.releases, id, s'.releases[id], i);
      case _ =>
    }
  }

  lemma ReleaseEventsKeepSound(s: State, e: Event)
    requires Sound(s) && (e.action.RecordRelease? || e.action.ConfirmRelease? || e.action.ReverseRelease?)
    ensures Sound(Apply(s, e))
  {
    hide Apply, Verdict, ReleasedAgainst;
    ReleaseEventsKeepShape(s, e);
    forall i | 0 <= i < |s.restrictions|
      ensures ReleasedAgainst(Apply(s, e).releases, i, None) <= s.restrictions[i].amount
    {
      ReleaseEventsKeepCeilings(s, e, i);
    }
  }

  lemma EveryEventKeepsSound(s: State, e: Event)
    requires Sound(s)
    ensures Sound(Apply(s, e))
  {
    hide Apply, Verdict, Sound;
    match e.action
    case RecordReceipt(_, _) => ReceiptEventsKeepSound(s, e);
    case ConfirmReceipt(_) => ReceiptEventsKeepSound(s, e);
    case ReverseReceipt(_) => ReceiptEventsKeepSound(s, e);
    case RecordRestriction(_, _) => RecordedRestrictionKeepsSound(s, e);
    case ConfirmRestriction(_) => ConfirmedRestrictionKeepsSound(s, e);
    case ReverseRestriction(_) => ReversedRestrictionKeepsSound(s, e);
    case RecordRelease(_, _, _) => ReleaseEventsKeepSound(s, e);
    case ConfirmRelease(_) => ReleaseEventsKeepSound(s, e);
    case ReverseRelease(_) => ReleaseEventsKeepSound(s, e);
  }

  // ---------------------------------------------------------------- runs

  const EMPTY: State := State([], [], [])

  function Run(events: seq<Event>): State {
    if events == [] then EMPTY else Apply(Run(events[..|events| - 1]), events[|events| - 1])
  }

  lemma EmptyIsSound()
    ensures Sound(EMPTY)
  {
  }

  /** In whatever order the locked operations fall, the escrow ledger stays sound. */
  lemma {:induction false} EveryRunIsSound(events: seq<Event>)
    ensures Sound(Run(events))
  {
    hide Apply, Verdict, Sound;
    EmptyIsSound();
    if events != [] {
      EveryRunIsSound(events[..|events| - 1]);
      EveryEventKeepsSound(Run(events[..|events| - 1]), events[|events| - 1]);
    }
  }

  /** The ceiling is re-proved at confirmation, and on every run the re-proof succeeds. */
  lemma ConfirmingNeverBreaksTheCeiling(events: seq<Event>, id: nat)
    requires id < |Run(events).releases| && Stands(Run(events).releases[id].stamps)
    ensures var s := Run(events);
            s.releases[id].restriction < |s.restrictions|
            && !CeilingBroken(s, s.releases[id].restriction, Some(id), s.releases[id].amount)
  {
    EveryRunIsSound(events);
    FreedWithout(Run(events), id);
  }
}
