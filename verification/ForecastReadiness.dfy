/** Whether a forecast may advance: its sources still govern, and its schedule reconciles exactly. */
module ForecastReadiness {
  import opened Calendar
  import opened Standing
  import opened Sums
  import opened ForecastMatching
  import U = UnappliedOffset

  // ---------------------------------------------------------------- the buyer schedule

  datatype TriggerStatus = NotTriggered | Awaiting | Triggered

  datatype ScheduleRow = ScheduleRow(
    planVersion: int, instalment: int, sale: int, amount: int,
    contractual: Option<Date>, forecast: Option<Date>, actual: Option<Date>, trigger: TriggerStatus)

  datatype SnapshotRow = SnapshotRow(planVersion: int, instalment: U.Instalment)

  function FirstOf(a: Option<Date>, b: Option<Date>): Option<Date> { if a.Some? then a else b }

  /** The date a forecast places an instalment on, when any of its three dates will do. */
  function ChosenDate(row: ScheduleRow): (d: Option<Date>)
    ensures d.None? <==> row.contractual.None? && row.forecast.None? && row.actual.None?
    ensures row.trigger == Triggered && row.actual.Some? ==> d == row.actual
    ensures row.trigger == Awaiting && row.forecast.Some? ==> d == row.forecast
    ensures (row.trigger == Triggered ==> row.actual.None?) && (row.trigger == Awaiting ==> row.forecast.None?) ==>
              && (row.contractual.Some? ==> d == row.contractual)
              && (row.contractual.None? && row.forecast.Some? ==> d == row.forecast)
              && (row.contractual.None? && row.forecast.None? ==> d == row.actual)
  {
    if row.trigger == Triggered && row.actual.Some? then row.actual
    else if row.trigger == Awaiting && row.forecast.Some? then row.forecast
    else FirstOf(row.contractual, FirstOf(row.forecast, row.actual))
  }

  /** The frozen schedule: every instalment that can be placed, on the date chosen for it. */
  function SnapshotOf(rows: seq<ScheduleRow>): seq<SnapshotRow> {
    if rows == [] then []
    else
      var row := rows[|rows| - 1];
      var placed := ChosenDate(row);
      SnapshotOf(rows[..|rows| - 1])
      + if placed.None? then []
          else [SnapshotRow(row.planVersion, U.Instalment(row.instalment, row.sale, placed.value, row.amount))]
  }

  method WriteSnapshot(rows: seq<ScheduleRow>) returns (snapshot: seq<SnapshotRow>)
    ensures snapshot == SnapshotOf(rows)
  {
    snapshot := [];
    for i := 0 to |rows|
      invariant snapshot == SnapshotOf(rows[..i])
    {
      assert rows[..i + 1][..i] == rows[..i];
      var placed := ChosenDate(rows[i]);
      if placed.None? {
        continue;
      }
      var instalment := U.Instalment(rows[i].instalment, rows[i].sale, placed.value, rows[i].amount);
      snapshot := snapshot + [SnapshotRow(rows[i].planVersion, instalment)];
    }
    assert rows[..|rows|] == rows;
  }

  const Frozen: SnapshotRow -> int := (row: SnapshotRow) => row.instalment.amount
  const Governing: ScheduleRow -> int := (row: ScheduleRow) => row.amount

  ghost predicate AllPlaced(rows: seq<ScheduleRow>) {
    forall i :: 0 <= i < |rows| ==> ChosenDate(rows[i]).Some?
  }

  /** With nothing unplaced, the snapshot carries every cent the buyers owe. */
  lemma {:induction false} SnapshotIsWhole(rows: seq<ScheduleRow>)
    requires AllPlaced(rows)
    ensures |SnapshotOf(rows)| == |rows| && Sum(SnapshotOf(rows), Frozen) == Sum(rows, Governing)
    ensures forall i :: 0 <= i < |rows| ==> SnapshotOf(rows)[i].instalment.chosen == ChosenDate(rows[i]).value
  {
    if rows != [] {
      var n := |rows| - 1;
      SnapshotIsWhole(rows[..n]);
      assert SnapshotOf(rows)[..n] == SnapshotOf(rows[..n]);
    }
  }

  // ---------------------------------------------------------------- what a snapshot holds

  /** Where a forecast places an instalment: where its trigger says, or else by the first of its three dates. */
  predicate PlacedOn(row: ScheduleRow, day: Date) {
    if row.trigger == Triggered && row.actual.Some? then row.actual == Some(day)
    else if row.trigger == Awaiting && row.forecast.Some? then row.forecast == Some(day)
    else || row.contractual == Some(day)
         || (row.contractual.None? && row.forecast == Some(day))
         || (row.contractual.None? && row.forecast.None? && row.actual == Some(day))
  }

  predicate FrozenAs(row: ScheduleRow, x: SnapshotRow) {
    && x.planVersion == row.planVersion && x.instalment.id == row.instalment && x.instalment.sale == row.sale
    && x.instalment.amount == row.amount && PlacedOn(row, x.instalment.chosen)
  }

  function TimesFrozen(x: SnapshotRow): ScheduleRow -> int {
    (row: ScheduleRow) => if FrozenAs(row, x) then 1 else 0
  }

  /** A snapshot holds each instalment of a schedule as often as the schedule does, and nothing else. */
  ghost predicate Freezes(snapshot: seq<SnapshotRow>, schedule: seq<ScheduleRow>) {
    forall x: SnapshotRow :: multiset(snapshot)[x] == Sum(schedule, TimesFrozen(x))
  }

  lemma FrozenOnItsDay(row: ScheduleRow, x: SnapshotRow)
    ensures FrozenAs(row, x)
            <==> && ChosenDate(row).Some?
                 && x == SnapshotRow(row.planVersion, U.Instalment(row.instalment, row.sale, ChosenDate(row).value,
                                                                   row.amount))
  {
    hide IsLeap, DaysIn;
  }

  lemma {:induction false} FrozenOften(schedule: seq<ScheduleRow>, x: SnapshotRow)
    ensures multiset(SnapshotOf(schedule))[x] == Sum(schedule, TimesFrozen(x))
  {
    hide FrozenAs, ChosenDate, IsLeap, DaysIn;
    if schedule != [] {
      FrozenOften(schedule[..|schedule| - 1], x);
      FrozenOnItsDay(schedule[|schedule| - 1], x);
    }
  }

  lemma SnapshotFreezes(schedule: seq<ScheduleRow>)
    ensures Freezes(SnapshotOf(schedule), schedule)
  {
    hide SnapshotOf, Sum, FrozenAs;
    forall x: SnapshotRow ensures multiset(SnapshotOf(schedule))[x] == Sum(schedule, TimesFrozen(x)) {
      FrozenOften(schedule, x);
    }
  }

  function PlanVersionsOf(snapshot: seq<SnapshotRow>): set<int> {
    set row | row in snapshot :: row.planVersion
  }

  // ---------------------------------------------------------------- the construction schedule

  function OfCode(code: int): Line -> int {
    (line: Line) => if line.kind == ConstructionPlanKind && line.costCode == Some(code) then line.amount else 0
  }

  predicate Covers(lines: seq<Line>, code: int) {
    exists j :: 0 <= j < |lines| && lines[j].kind == ConstructionPlanKind && lines[j].costCode == Some(code)
  }

  /** Every code covered and its months totalling its remaining cost; and no other code scheduled any cash. */
  ghost predicate Reconciles(lines: seq<Line>, remaining: map<int, int>) {
    && (forall code: int :: code in remaining ==> Covers(lines, code) && Sum(lines, OfCode(code)) == remaining[code])
    && (forall code: int :: code !in remaining ==> Sum(lines, OfCode(code)) == 0)
  }

  /** A later reading of the pin that asks the same cash of each code, and names none the lines leave out. */
  ghost predicate Unmoved(lines: seq<Line>, before: map<int, int>, now: map<int, int>) {
    && (forall code: int :: code in now ==>
          (code in before || Covers(lines, code)) && now[code] == AmountFor(before, code))
    && (forall code: int :: code in before && code !in now ==> before[code] == 0)
  }

  lemma ReadingMayMove(lines: seq<Line>, before: map<int, int>, now: map<int, int>)
    requires Reconciles(lines, before)
    ensures Reconciles(lines, now) <==> Unmoved(lines, before, now)
  {
    hide Covers, Sum;
    forall code: int ensures AmountFor(before, code) == Sum(lines, OfCode(code)) {}
  }

  const OfConstruction: Line -> int := (line: Line) => if line.kind == ConstructionPlanKind then line.amount else 0

  ghost predicate CodesNamed(lines: seq<Line>) {
    forall j :: 0 <= j < |lines| && lines[j].kind == ConstructionPlanKind ==> lines[j].costCode.Some?
  }

  function Remaining(remaining: map<int, int>): int -> int {
    (code: int) => if code in remaining then remaining[code] else 0
  }

  const CodeOf: Line -> int := (line: Line) => if line.costCode.Some? then line.costCode.value else 0

  /** A schedule that reconciles code by code schedules exactly the remaining cost in total. */
  lemma ReconciledTotals(lines: seq<Line>, remaining: map<int, int>, codes: seq<int>)
    requires Reconciles(lines, remaining) && CodesNamed(lines)
    requires Distinct(codes) && (forall code: int :: code in remaining ==> code in codes)
    requires forall line :: line in lines ==> CodeOf(line) in codes
    ensures Sum(lines, OfConstruction) == Sum(codes, Remaining(remaining))
  {
    hide Covers;
    BucketsPartition(lines, codes, CodeOf, OfConstruction);
    forall code | code in codes ensures Buckets(lines, CodeOf, OfConstruction)(code) == Remaining(remaining)(code) {
      forall line | line in lines ensures At(CodeOf, code, OfConstruction)(line) == OfCode(code)(line) {
        var j :| 0 <= j < |lines| && lines[j] == line;
      }
      SumCongruent(lines, At(CodeOf, code, OfConstruction), OfCode(code));
    }
    SumCongruent(codes, Buckets(lines, CodeOf, OfConstruction), Remaining(remaining));
  }

  /** What a forecast schedules for each code that it has a line for. */
  ghost predicate IsSchedule(scheduled: map<int, int>, lines: seq<Line>) {
    && (forall code: int :: code in scheduled <==> Covers(lines, code))
    && (forall code: int :: (if code in scheduled then scheduled[code] else 0) == Sum(lines, OfCode(code)))
  }

  lemma NothingScheduled()
    ensures IsSchedule(map[], [])
  {
  }

  lemma OneLineScheduled(scheduled: map<int, int>, lines: seq<Line>, i: nat)
    requires i < |lines| && IsSchedule(scheduled, lines[..i])
    ensures var line := lines[i];
            if line.kind == ConstructionPlanKind && line.costCode.Some?
            then var code := line.costCode.value;
                 IsSchedule(scheduled[code := (if code in scheduled then scheduled[code] else 0) + line.amount],
                            lines[..i + 1])
            else IsSchedule(scheduled, lines[..i + 1])
  {
    hide Sum;
    assert lines[..i + 1] == lines[..i] + [lines[i]];
    forall code: int
      ensures Sum(lines[..i + 1], OfCode(code)) == Sum(lines[..i], OfCode(code)) + OfCode(code)(lines[i])
    {
      SumSnoc(lines[..i], lines[i], OfCode(code));
    }
    forall code: int
      ensures Covers(lines[..i + 1], code)
              <==> (|| Covers(lines[..i], code)
                    || (lines[i].kind == ConstructionPlanKind && lines[i].costCode == Some(code)))
    {
      OneLineCovers(lines, i, code);
    }
  }

  lemma OneLineCovers(lines: seq<Line>, i: nat, code: int)
    requires i < |lines|
    ensures Covers(lines[..i + 1], code)
            <==> Covers(lines[..i], code) || (lines[i].kind == ConstructionPlanKind && lines[i].costCode == Some(code))
  {
    if Covers(lines[..i], code) {
      var j :| 0 <= j < i && lines[..i][j].kind == ConstructionPlanKind && lines[..i][j].costCode == Some(code);
      assert lines[..i + 1][j] == lines[..i][j];
    }
    if lines[i].kind == ConstructionPlanKind && lines[i].costCode == Some(code) {
      assert lines[..i + 1][i] == lines[i];
    }
    if Covers(lines[..i + 1], code) {
      var j :| 0 <= j < i + 1 && lines[..i + 1][j].kind == ConstructionPlanKind
          && lines[..i + 1][j].costCode == Some(code);
      if j < i { assert lines[..i][j] == lines[..i + 1][j]; }
    }
  }

  /** The total scheduled for each cost code, grouped in one pass. */
  method ConstructionSchedule(lines: seq<Line>) returns (scheduled: map<int, int>)
    ensures IsSchedule(scheduled, lines)
  {
    hide IsSchedule;
    scheduled := map[];
    NothingScheduled();
    assert lines[..0] == [];
    for i := 0 to |lines|
      invariant IsSchedule(scheduled, lines[..i])
    {
      OneLineScheduled(scheduled, lines, i);
      if lines[i].kind == ConstructionPlanKind && lines[i].costCode.Some? {
        var code := lines[i].costCode.value;
        scheduled := scheduled[code := (if code in scheduled then scheduled[code] else 0) + lines[i].amount];
      }
    }
    assert lines[..|lines|] == lines;
  }

  datatype Check = Coverage(code: int, passed: bool) | Amount(code: int, passed: bool) | Unknown(code: int,
      passed: bool)

  function AmountFor(scheduled: map<int, int>, code: int): int { if code in scheduled then scheduled[code] else 0 }

  /** The checks say, code by code, whether the schedule reconciles, and together that it does. */
  ghost predicate Checked(checks: seq<Check>, scheduled: map<int, int>, remaining: map<int, int>, known: set<int>,
          unknown: set<int>) {
    (forall i :: 0 <= i < |checks| ==> checks[i].passed)
    <==>
    (forall code: int :: code in known ==>
        code in scheduled && AmountFor(scheduled, code) == AmountFor(remaining, code))
    && (forall code: int :: code in unknown ==> AmountFor(scheduled, code) == 0)
  }

  lemma NothingChecked(scheduled: map<int, int>, remaining: map<int, int>)
    ensures Checked([], scheduled, remaining, {}, {})
  {
  }

  lemma KnownChecked(checks: seq<Check>, scheduled: map<int, int>, remaining: map<int, int>, known: set<int>, code: int)
    requires Checked(checks, scheduled, remaining, known, {})
    ensures Checked(checks
                    + [Coverage(code, code in scheduled),
                       Amount(code, AmountFor(scheduled, code) == AmountFor(remaining, code))],
                    scheduled, remaining, known + {code}, {})
  {
    hide AmountFor;
    var after := checks
        + [Coverage(code, code in scheduled), Amount(code, AmountFor(scheduled, code) == AmountFor(remaining, code))];
    assert forall i :: 0 <= i < |checks| ==> after[i] == checks[i];
    assert after[|checks|].passed <==> code in scheduled;
    assert after[|checks| + 1].passed <==> AmountFor(scheduled, code) == AmountFor(remaining, code);
  }

  lemma UnknownChecked(checks: seq<Check>, scheduled: map<int, int>, remaining: map<int, int>, known: set<int>,
          unknown: set<int>, code: int)
    requires Checked(checks, scheduled, remaining, known, unknown)
    ensures Checked(checks + [Unknown(code, AmountFor(scheduled, code) == 0)], scheduled, remaining, known, unknown
                    + {code})
  {
    hide AmountFor;
    var after := checks + [Unknown(code, AmountFor(scheduled, code) == 0)];
    assert forall i :: 0 <= i < |checks| ==> after[i] == checks[i];
    assert after[|checks|].passed <==> AmountFor(scheduled, code) == 0;
  }

  lemma ChecksDecide(checks: seq<Check>, lines: seq<Line>, scheduled: map<int, int>, remaining: map<int, int>)
    requires IsSchedule(scheduled, lines)
    requires Checked(checks, scheduled, remaining, remaining.Keys, scheduled.Keys - remaining.Keys)
    ensures (forall i :: 0 <= i < |checks| ==> checks[i].passed) <==> Reconciles(lines, remaining)
  {
    hide Sum, Covers;
    forall code: int ensures AmountFor(scheduled, code) == Sum(lines, OfCode(code)) {}
    if (forall code: int :: code in scheduled.Keys - remaining.Keys ==> AmountFor(scheduled, code) == 0) {
      forall code: int | code !in remaining ensures Sum(lines, OfCode(code)) == 0 {
        if code in scheduled { assert code in scheduled.Keys - remaining.Keys; }
      }
    }
  }

  /** Coverage and amount of each code the pin carries, and nothing scheduled for any it does not. */
  method ConstructionReconciliation(lines: seq<Line>, remaining: map<int, int>) returns (checks: seq<Check>)
    ensures (forall i :: 0 <= i < |checks| ==> checks[i].passed) <==> Reconciles(lines, remaining)
  {
    hide Checked, IsSchedule, Reconciles;
    var scheduled := ConstructionSchedule(lines);
    checks := [];
    NothingChecked(scheduled, remaining);
    var todo := remaining.Keys;
    assert remaining.Keys - todo == {};
    while todo != {}
      invariant todo <= remaining.Keys
      invariant Checked(checks, scheduled, remaining, remaining.Keys - todo, {})
      decreases todo
    {
      SomeCode(todo);
      var code: int :| code in todo;
      KnownChecked(checks, scheduled, remaining, remaining.Keys - todo, code);
      assert remaining.Keys - (todo - {code}) == remaining.Keys - todo + {code};
      checks := checks
          + [Coverage(code, code in scheduled), Amount(code, AmountFor(scheduled, code) == remaining[code])];
      todo := todo - {code};
    }
    var others := scheduled.Keys - remaining.Keys;
    assert remaining.Keys - {} == remaining.Keys;
    todo := others;
    assert others - todo == {};
    while todo != {}
      invariant todo <= others
      invariant Checked(checks, scheduled, remaining, remaining.Keys, others - todo)
      decreases todo
    {
      SomeCode(todo);
      var code: int :| code in todo;
      UnknownChecked(checks, scheduled, remaining, remaining.Keys, others - todo, code);
      assert others - (todo - {code}) == others - todo + {code};
      checks := checks + [Unknown(code, AmountFor(scheduled, code) == 0)];
      todo := todo - {code};
    }
    assert others - {} == others;
    ChecksDecide(checks, lines, scheduled, remaining);
  }
}
