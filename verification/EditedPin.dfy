/** A forecast put in force over a construction forecast that is then edited under it. */
module EditedPin {
  import opened Calendar
  import opened Standing
  import opened CashModel
  import opened ForecastMatching
  import opened ForecastReadiness
  import opened Sums
  import L = ForecastLadder
  import M = Movements

  const PREPARER: L.Actor := M.Actor(1, false)
  const APPROVER: L.Actor := M.Actor(2, false)

  const JANUARY: Date := Ymd(2024, 1, 1)
  const NOON: Instant := Instant(Ymd(2024, 1, 10), 0)

  /** Nothing is in force in construction; its draft, number 5, has a hundred left to spend on code 7. */
  const READ: map<int, int> := map[7 := 100]
  const WORLD: L.World := L.World(Ymd(2024, 1, 10), 1, map[5 := READ], None, [], {})

  /** The same draft once it has been edited. */
  const EDITED: map<int, int> := map[7 := 200]

  const HORIZON: L.Horizon := L.Horizon(Ymd(2024, 1, 10), JANUARY, JANUARY, 0, 0)
  const CELL: L.Cell := L.Cell(JANUARY, ConstructionPlanKind, Construction, Some(7), None)
  const LINE: Line := Line(0, JANUARY, ConstructionPlanKind, Construction, Outflow, 100, None, Some(7))

  const ACTS: seq<L.Act> := [
    L.Act(PREPARER, NOON, WORLD, L.Create(HORIZON, Some(5), None)),
    L.Act(PREPARER, NOON, WORLD, L.SetLine(0, CELL, 100, None)),
    L.Act(PREPARER, NOON, WORLD, L.Submit(0)),
    L.Act(APPROVER, NOON, WORLD, L.Approve(0)),
    L.Act(APPROVER, NOON, WORLD, L.Activate(0))]

  const OPENED: L.ForecastVersion := L.ForecastVersion(
    1, 1, Ymd(2024, 1, 10), JANUARY, JANUARY, 0, 0, None, 5, 1, L.Draft, None, None, None, None, None, [], [])

  /** The one version after so many of them. */
  function VersionAfter(n: nat): L.ForecastVersion {
    var drafted := OPENED.(lines := [LINE]);
    var submitted := drafted.(status := L.Submitted, submitted := Some(L.Stamp(1, NOON)));
    var approved := submitted.(status := L.Approved, approved := Some(L.Stamp(2, NOON)));
    if n <= 1 then OPENED
    else if n == 2 then drafted
    else if n == 3 then submitted
    else if n == 4 then approved
    else approved.(status := L.Active, activated := Some(L.Stamp(2, NOON)))
  }

  function After(n: nat): L.State {
    if n == 0 then L.EMPTY else L.State([VersionAfter(n)], if n == 1 then 0 else 1)
  }

  lemma OneHundredReconciles()
    ensures Reconciles([LINE], READ) && !Reconciles([LINE], EDITED)
  {
    assert [LINE][0].costCode == Some(7);
    forall code: int ensures Sum([LINE], OfCode(code)) == OfCode(code)(LINE) {}
    assert Covers([LINE], 7);
  }

  lemma IsReady(n: nat)
    requires n >= 2
    ensures L.Ready(VersionAfter(n), WORLD)
  {
    hide Reconciles;
    OneHundredReconciles();
  }

  lemma Opens()
    ensures L.Verdict(After(0), ACTS[0]) == M.Done && L.Apply(After(0), ACTS[0]) == After(1)
  {
    hide IsLeap, DaysIn;
  }

  lemma Lines()
    ensures L.Verdict(After(1), ACTS[1]) == M.Done && L.Apply(After(1), ACTS[1]) == After(2)
  {
    hide IsLeap, DaysIn, L.Ready;
    assert L.WithLine(OPENED, CELL, 100, Outflow, 0).lines == [LINE];
    var s := After(1).versions;
    assert s[0 := VersionAfter(2)] == [VersionAfter(2)];
  }

  lemma Advances(n: nat)
    requires 2 <= n < |ACTS|
    ensures L.Verdict(After(n), ACTS[n]) == M.Done && L.Apply(After(n), ACTS[n]) == After(n + 1)
  {
    hide IsLeap, DaysIn, L.Ready;
    IsReady(n);
    var s := After(n).versions;
    assert s == [VersionAfter(n)] && s[0 := VersionAfter(n + 1)] == [VersionAfter(n + 1)];
  }

  lemma {:induction false} RunOf(n: nat)
    requires n <= |ACTS|
    ensures L.Run(ACTS[..n]) == After(n)
    ensures forall k :: 0 <= k < n ==> L.Verdict(L.Run(ACTS[..k]), ACTS[k]) == M.Done
  {
    hide L.Verdict, L.Apply, After;
    if n == 0 {
      StartsEmpty();
    } else {
      RunOf(n - 1);
      assert ACTS[..n][..n - 1] == ACTS[..n - 1];
      if n == 1 { Opens(); } else if n == 2 { Lines(); } else { Advances(n - 1); }
    }
  }

  lemma StartsEmpty()
    ensures After(0) == L.EMPTY
  {
  }

  /** Every act is accepted, the version is in force, and its lines no longer reconcile to what it pinned. */
  lemma AnEditedPinNoLongerReconciles()
    ensures forall k :: 0 <= k < |ACTS| ==> L.Verdict(L.Run(ACTS[..k]), ACTS[k]) == M.Done
    ensures |L.Run(ACTS).versions| == 1
    ensures var v := L.Run(ACTS).versions[0];
            && v.status == L.Active && v.pinned == 5
            && Reconciles(v.lines, READ) && !Reconciles(v.lines, EDITED)
  {
    hide L.Run, L.Verdict, Reconciles;
    RunOf(5);
    assert ACTS[..5] == ACTS;
    OneHundredReconciles();
  }
}
