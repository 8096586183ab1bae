/** Cash movements: recorded by one person, confirmed by another, reversible without being erased. */
module Movements {
  import opened Calendar
  import opened Standing

  datatype Actor = Actor(user: int, masterAdmin: bool)

  datatype Outcome = Done | NotFound | Conflict | Forbidden | Invalid

  datatype Movement = Movement(
    recordedBy: int, prelaunch: bool, confirmedBy: Option<int>, masterSelfConfirmed: bool, stamps: Stamps)

  datatype Action = Record(prelaunch: bool) | Confirm(id: nat) | Reverse(id: nat)

  datatype Event = Event(actor: Actor, now: Instant, action: Action)

  const When: Event -> Instant := (e: Event) => e.now

  /** The recorder may confirm only as master administrator, and only a pre-launch expense. */
  predicate MayConfirm(actor: Actor, row: Movement) {
    (actor.masterAdmin && row.prelaunch) || row.recordedBy != actor.user
  }

  function Confirmed(row: Movement, actor: Actor, now: Instant): Movement {
    row.(stamps := StampConfirmed(row.stamps, now), confirmedBy := Some(actor.user),
         masterSelfConfirmed := actor.masterAdmin && row.recordedBy == actor.user)
  }

  function Verdict(rows: seq<Movement>, e: Event): Outcome {
    match e.action
    case Record(_) => Done
    case Confirm(id) =>
      if id >= |rows| then NotFound
      else if rows[id].stamps.status != Recorded then Conflict
      else if !MayConfirm(e.actor, rows[id]) then Forbidden
      else Done
    case Reverse(id) =>
      if id >= |rows| then NotFound
      else if rows[id].stamps.status == Reversed then Conflict
      else Done
  }

  /** A refused event changes nothing. */
  function Apply(rows: seq<Movement>, e: Event): seq<Movement> {
    if Verdict(rows, e) != Done then rows
    else
      match e.action
      case Record(prelaunch) => rows + [Movement(e.actor.user, prelaunch, None, false, RECORDED)]
      case Confirm(id) => rows[id := Confirmed(rows[id], e.actor, e.now)]
      case Reverse(id) => rows[id := rows[id].(stamps := StampReversed(rows[id].stamps, e.now))]
  }

  /** Nobody's own confirmation, but for the master administrator's of a pre-launch expense, marked as one. */
  ghost predicate Checked(rows: seq<Movement>) {
    forall id :: 0 <= id < |rows| ==>
      && (rows[id].stamps.status == Status.Confirmed ==> rows[id].confirmedBy.Some?)
      && (rows[id].confirmedBy.Some? ==>
            rows[id].confirmedBy.value != rows[id].recordedBy || (rows[id].masterSelfConfirmed && rows[id].prelaunch))
      && (rows[id].masterSelfConfirmed ==> rows[id].confirmedBy == Some(rows[id].recordedBy))
  }

  lemma EveryEventKeepsChecked(rows: seq<Movement>, e: Event)
    ensures Checked(rows) ==> Checked(Apply(rows, e))
  {
  }

  /** The register itself: one table, changed in place by whoever holds the project lock. */
  class MovementRegister {
    var rows: seq<Movement>

    constructor ()
      ensures rows == [] && Checked(rows)
    {
      rows := [];
    }

    method RecordMovement(actor: Actor, prelaunch: bool, ghost now: Instant) returns (id: nat)
      modifies this
      ensures rows == Apply(old(rows), Event(actor, now, Record(prelaunch)))
      ensures Checked(old(rows)) ==> Checked(rows)
      ensures id == old(|rows|)
      ensures rows == old(rows) + [Movement(actor.user, prelaunch, None, false, Stamps(Recorded, None, None))]
    {
      hide Checked;
      EveryEventKeepsChecked(rows, Event(actor, now, Record(prelaunch)));
      id := |rows|;
      rows := rows + [Movement(actor.user, prelaunch, None, false, RECORDED)];
    }

    method ConfirmMovement(actor: Actor, id: nat, now: Instant) returns (outcome: Outcome)
      modifies this
      ensures outcome == Verdict(old(rows), Event(actor, now, Confirm(id)))
      ensures rows == Apply(old(rows), Event(actor, now, Confirm(id)))
      ensures Checked(old(rows)) ==> Checked(rows)
      ensures outcome == NotFound <==> id >= |old(rows)|
      ensures outcome == Conflict <==> id < |old(rows)| && old(rows)[id].stamps.status != Recorded
      ensures outcome == Forbidden <==>
                && id < |old(rows)| && old(rows)[id].stamps.status == Recorded && old(rows)[id].recordedBy == actor.user
                && (!actor.masterAdmin || !old(rows)[id].prelaunch)
      ensures outcome != Done ==> outcome != Invalid && rows == old(rows)
      ensures outcome == Done ==>
                var row := old(rows)[id];
                && row.stamps.status == Recorded
                      && (row.recordedBy != actor.user || (actor.masterAdmin && row.prelaunch))
                && rows == old(rows)[id := Movement(row.recordedBy, row.prelaunch, Some(actor.user),
                                                    actor.masterAdmin && row.recordedBy == actor.user,
                                                    Stamps(Status.Confirmed, Some(now), row.stamps.reversedAt))]
    {
      hide Checked;
      EveryEventKeepsChecked(rows, Event(actor, now, Confirm(id)));
      if id >= |rows| {
        return NotFound;
      }
      var row := rows[id];
      // The category rule is asked of a recorded movement first, then the lifecycle rule of any.
      if row.stamps.status == Recorded && !(actor.masterAdmin && row.prelaunch) && row.recordedBy == actor.user {
        return Forbidden;
      }
      if row.stamps.status != Recorded {
        return Conflict;
      }
      if !actor.masterAdmin && row.recordedBy == actor.user {
        return Forbidden;
      }
      row := row.(stamps := StampConfirmed(row.stamps, now));
      row := row.(confirmedBy := Some(actor.user));
      row := row.(masterSelfConfirmed := actor.masterAdmin && row.recordedBy == actor.user);
      rows := rows[id := row];
      outcome := Done;
    }

    method ReverseMovement(actor: Actor, id: nat, now: Instant) returns (outcome: Outcome)
      modifies this
      ensures outcome == Verdict(old(rows), Event(actor, now, Reverse(id)))
      ensures rows == Apply(old(rows), Event(actor, now, Reverse(id)))
      ensures Checked(old(rows)) ==> Checked(rows)
      ensures outcome == NotFound <==> id >= |old(rows)|
      ensures outcome == Conflict <==> id < |old(rows)| && old(rows)[id].stamps.status == Reversed
      ensures outcome == Done <==> id < |old(rows)| && old(rows)[id].stamps.status in {Recorded, Status.Confirmed}
      ensures outcome != Done ==> rows == old(rows)
      ensures outcome == Done ==>
                var row := old(rows)[id];
                rows == old(rows)[id := row.(stamps := Stamps(Reversed, row.stamps.confirmedAt, Some(now)))]
    {
      hide Checked;
      EveryEventKeepsChecked(rows, Event(actor, now, Reverse(id)));
      if id >= |rows| {
        return NotFound;
      }
      if rows[id].stamps.status == Reversed {
        return Conflict;
      }
      rows := rows[id := rows[id].(stamps := StampReversed(rows[id].stamps, now))];
      outcome := Done;
    }
  }

  // ---------------------------------------------------------------- runs

  function Run(events: seq<Event>): seq<Movement> {
    if events == [] then [] else Apply(Run(events[..|events| - 1]), events[|events| - 1])
  }

  lemma AppliedRowsEvolve(rows: seq<Movement>, e: Event, id: nat)
    requires id < |rows|
    ensures |rows| <= |Apply(rows, e)|
    ensures Evolves(rows[id].stamps, Apply(rows, e)[id].stamps, e.now)
  {
  }

  lemma AppliedRowsStartRecorded(rows: seq<Movement>, e: Event, id: nat)
    requires |rows| <= id < |Apply(rows, e)|
    ensures Apply(rows, e)[id].stamps == RECORDED
  {
  }

  lemma {:induction false} RowsAreWellStamped(events: seq<Event>, now: Instant)
    requires Clocked(Times(events, When))
    requires forall i :: 0 <= i < |events| ==> NoLater(events[i].now, now)
    ensures forall id :: 0 <= id < |Run(events)| ==> WellStamped(Run(events)[id].stamps, now)
  {
    if events != [] {
      var n, last := |events| - 1, events[|events| - 1];
      EarlierTimes(events, When, n);
      RowsAreWellStamped(events[..n], last.now);
      var rows := Run(events[..n]);
      forall id | 0 <= id < |Run(events)| ensures WellStamped(Run(events)[id].stamps, now) {
        if id < |rows| {
          AppliedRowsEvolve(rows, last, id);
          EvolvingKeepsStamps(rows[id].stamps, Run(events)[id].stamps, last.now, last.now);
          EvolvingKeepsStamps(Run(events)[id].stamps, Run(events)[id].stamps, last.now, now);
        }
      }
    }
  }

  /** What was standing before a bound is settled once the clock has reached it. */
  lemma {:induction false} ThePastIsSettled(events: seq<Event>, cut: nat, bound: Instant, id: nat)
    requires Clocked(Times(events, When)) && CutAt(Times(events, When), cut, bound)
    requires id < |Run(events)|
    ensures |Run(events[..cut])| <= |Run(events)|
    ensures StandingBefore(Run(events)[id].stamps, bound)
            <==> id < |Run(events[..cut])| && StandingBefore(Run(events[..cut])[id].stamps, bound)
  {
    hide Apply, Verdict;
    if cut == |events| {
      assert events[..cut] == events;
    } else {
      var n, last := |events| - 1, events[|events| - 1];
      assert events[..n][..cut] == events[..cut];
      var rows := Run(events[..n]);
      if id < |rows| {
        EarlierTimes(events, When, n);
        EarlierCut(events, When, n, cut, bound);
        ThePastIsSettled(events[..n], cut, bound, id);
        AppliedRowsEvolve(rows, last, id);
        RowsAreWellStamped(events[..n], last.now);
        LaterEventsKeepThePast(rows[id].stamps, Run(events)[id].stamps, last.now, bound);
      } else {
        AppliedRowsStartRecorded(rows, last, id);
        RunNeverShrinks(events[..n], cut);
      }
    }
  }

  lemma {:induction false} RunNeverShrinks(events: seq<Event>, cut: nat)
    requires cut <= |events|
    ensures |Run(events[..cut])| <= |Run(events)|
  {
    if cut == |events| {
      assert events[..cut] == events;
    } else {
      assert events[..|events| - 1][..cut] == events[..cut];
      RunNeverShrinks(events[..|events| - 1], cut);
    }
  }

  /**
   * A dated read is real history: whenever it is asked, it selects exactly the movements that
   * were confirmed when the date ended.
   */
  lemma HistoricalReadIsRealHistory(events: seq<Event>, cut: nat, asOf: Date, id: nat)
    requires Clocked(Times(events, When)) && CutAt(Times(events, When), cut, AsOfBound(asOf))
    ensures id < |Run(events)| && StandingAt(Run(events)[id].stamps, Some(asOf))
            <==> id < |Run(events[..cut])| && StandingAt(Run(events[..cut])[id].stamps, None)
  {
    var bound := AsOfBound(asOf);
    RunNeverShrinks(events, cut);
    if id < |Run(events)| {
      ThePastIsSettled(events, cut, bound, id);
      if id < |Run(events[..cut])| {
        var now := events[cut - 1].now;
        EarlierTimes(events, When, cut - 1);
        EarlierCut(events, When, cut, cut, bound);
        assert Clocked(Times(events[..cut], When)) by {
          if cut < |events| { EarlierTimes(events, When, cut); } else { assert events[..cut] == events; }
        }
        RowsAreWellStamped(events[..cut], now);
        BeforeTheBoundStatusAnswers(Run(events[..cut])[id].stamps, now, bound);
      }
    }
  }

  /** Nothing is ever confirmed by its own recorder, but for the retained pre-launch exception. */
  lemma {:induction false} MakerIsNotChecker(events: seq<Event>)
    ensures Checked(Run(events))
  {
    hide Apply;
    if events != [] {
      MakerIsNotChecker(events[..|events| - 1]);
      EveryEventKeepsChecked(Run(events[..|events| - 1]), events[|events| - 1]);
    }
  }
}
