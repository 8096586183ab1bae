/** What each act on the ladder asks and does, stated outright; and the table the acts change in place. */
module LadderTable {
  import opened Calendar
  import opened Standing
  import opened Sums
  import opened CashModel
  import opened ForecastMatching
  import opened ForecastReadiness
  import opened ForecastLadder
  import M = Movements
  import A = Assembly

  // ---------------------------------------------------------------- what an act asks

  function FirstDay(d: Date): Date { Ymd(d.year, d.month, 1) }

  function PlannedOn(code: int): Line -> int {
    (line: Line) => if line.kind == ConstructionPlanKind && line.costCode == Some(code) then line.amount else 0
  }

  /** The construction pinned is the one in force, unless none is. */
  predicate StillPinned(v: ForecastVersion, world: World) {
    && v.pinned in world.positions
    && (world.inForce.None? || world.inForce.value !in world.positions || world.inForce.value == v.pinned)
  }

  ghost predicate SchedulesTheRest(lines: seq<Line>, remaining: map<int, int>) {
    forall code: int ::
      if code in remaining then
        && Sum(lines, PlannedOn(code)) == remaining[code]
        && (exists j :: 0 <= j < |lines| && lines[j].kind == ConstructionPlanKind && lines[j].costCode == Some(code))
      else Sum(lines, PlannedOn(code)) == 0
  }

  ghost predicate OfPlans(snapshot: seq<SnapshotRow>, plans: set<int>) {
    forall plan :: plan in plans <==> exists j :: 0 <= j < |snapshot| && snapshot[j].planVersion == plan
  }

  ghost predicate HasPlace(row: ScheduleRow) { exists day: Date :: PlacedOn(row, day) }

  /** What lets a forecast advance: the same pins, the same payment plans, a date for each instalment, no cost left. */
  ghost predicate MayAdvance(v: ForecastVersion, world: World) {
    && StillPinned(v, world)
    && OfPlans(v.snapshot, world.governing)
    && (forall j :: 0 <= j < |world.schedule| ==> HasPlace(world.schedule[j]))
    && SchedulesTheRest(v.lines, world.positions[v.pinned])
  }

  predicate SubmittedBy(v: ForecastVersion, user: int) { v.submitted.Some? && v.submitted.value.user == user }

  predicate MayOpen(s: State, world: World, h: ForecastLadder.Horizon, construction: Option<int>, source: Option<nat>) {
    && UpTo(h.asOf, world.today)
    && FirstDay(h.start) == FirstDay(h.asOf) && UpTo(FirstDay(h.start), FirstDay(h.end))
    && h.openingUnrestricted >= 0 && h.openingRestricted >= 0
    && (forall i :: 0 <= i < |s.versions| ==> s.versions[i].status !in {Draft, Submitted, Approved})
    && (source.Some? ==> source.value < |s.versions|)
    && (construction.Some? ==> construction.value in world.positions)
    && (construction.None? ==> world.inForce.Some? && world.inForce.value in world.positions)
  }

  /** A line's category and code suit its kind, and a direction stated of financing is the one its type fixes. */
  predicate SuitsItsKind(cell: Cell, stated: Option<Direction>) {
    && (cell.kind == ConstructionPlanKind <==> cell.costCode.Some?)
    && match cell.kind
       case ConstructionPlanKind => cell.category == Construction
       case DevelopmentPlanKind => cell.category.Development?
       case UnsoldCustomerKind => cell.category == CustomerCollection
       case FinancingPlanKind =>
         cell.category.Financing? && (stated.Some? ==> (stated.value == Inflow <==> BringsCashIn(cell)))
  }

  predicate BringsCashIn(cell: Cell) {
    || cell.kind == UnsoldCustomerKind
    || (cell.kind == FinancingPlanKind
        && cell.category in {Financing(EquityContribution), Financing(DebtDrawdown), Financing(GuaranteeCashRelease)})
  }

  ghost predicate May(s: State, a: Act) {
    if a.step.Create? then MayOpen(s, a.world, a.step.horizon, a.step.construction, a.step.source)
    else
      && a.step.id < |s.versions|
      && var v := s.versions[a.step.id];
         var independent := a.actor.masterAdmin || !SubmittedBy(v, a.actor.user);
         match a.step
         case Submit(_) => v.status == Draft && MayAdvance(v, a.world)
         case Approve(_) => v.status == Submitted && independent && MayAdvance(v, a.world)
         case Reject(_) => v.status in {Submitted, Approved} && independent
         case Discard(_) => v.status == Draft
         case Activate(_) => v.status == Approved && v.currency == a.world.currency && MayAdvance(v, a.world)
         case SetLine(_, cell, amount, stated) =>
           && v.status == Draft && amount >= 0 && SuitsItsKind(cell, stated)
           && UpTo(v.start, FirstDay(cell.month)) && UpTo(FirstDay(cell.month), v.end)
         case RemoveLine(_, line) => v.status == Draft && exists j :: 0 <= j < |v.lines| && v.lines[j].id == line
         case Refresh(_) => v.status in {Draft, Submitted}
  }

  // ---------------------------------------------------------------- what an act does

  ghost predicate OnlyVersion(s: State, s': State, id: nat) {
    && |s'.versions| == |s.versions| && id < |s.versions|
    && forall i :: 0 <= i < |s.versions| && i != id ==> s'.versions[i] == s.versions[i]
  }

  predicate InCell(line: Line, cell: Cell) {
    && line.period == FirstDay(cell.month) && line.kind == cell.kind && line.category == cell.category
    && line.costCode == cell.costCode && line.phase == cell.phase
  }

  ghost predicate OnlyLineOf(lines: seq<Line>, k: nat, cell: Cell) {
    k < |lines| && forall j :: 0 <= j < |lines| ==> (InCell(lines[j], cell) <==> j == k)
  }

  ghost predicate NewToAll(s: State, line: int) {
    forall i, j :: 0 <= i < |s.versions| && 0 <= j < |s.versions[i].lines| ==> s.versions[i].lines[j].id != line
  }

  /** One line of the cell, with the amount asked and the way its kind fixes; all the others as they were. */
  ghost predicate LineIsSet(s: State, s': State, id: nat, cell: Cell, amount: int) {
    && OnlyVersion(s, s', id)
    && var before, after := s.versions[id].lines, s'.versions[id].lines;
       && s'.versions[id] == s.versions[id].(lines := after)
       && |before| <= |after| <= |before| + 1
       && (|after| > |before| ==> NewToAll(s, after[|before|].id) && InCell(after[|before|], cell))
       && (exists k: nat :: OnlyLineOf(after, k, cell) && after[k].amount == amount
                            && (after[k].direction == Inflow <==> BringsCashIn(cell)))
       && forall j :: 0 <= j < |before| ==>
            && after[j].id == before[j].id && InCell(after[j], cell) == InCell(before[j], cell)
            && (!InCell(before[j], cell) ==> after[j] == before[j])
  }

  /** No line of that id, and all the others in their order. */
  ghost predicate LineIsGone(s: State, s': State, id: nat, line: int) {
    && OnlyVersion(s, s', id) && s'.nextLine == s.nextLine
    && var before, after := s.versions[id].lines, s'.versions[id].lines;
       && s'.versions[id] == s.versions[id].(lines := after)
       && (forall j :: 0 <= j < |after| ==> after[j].id != line)
       && exists k :: 0 <= k < |before| && before[k].id == line && after == before[..k] + before[k + 1..]
  }

  ghost predicate SnapshotIsRead(s: State, s': State, id: nat, schedule: seq<ScheduleRow>) {
    && OnlyVersion(s, s', id) && s'.nextLine == s.nextLine
    && s'.versions[id] == s.versions[id].(snapshot := s'.versions[id].snapshot)
    && Freezes(s'.versions[id].snapshot, schedule)
  }

  /** A numbered draft with its pins, no line and the schedule as it was read. */
  ghost predicate IsOpened(s: State, s': State, a: Act, h: ForecastLadder.Horizon, construction: Option<int>,
          source: Option<nat>) {
    && s'.nextLine == s.nextLine
    && |s'.versions| == |s.versions| + 1 && s'.versions[..|s.versions|] == s.versions
    && var v := s'.versions[|s.versions|];
       && v.status == Draft && v.number == |s.versions| + 1 && v.createdBy == a.actor.user && v.source == source
       && v.currency == a.world.currency && v.asOf == h.asOf && v.start == FirstDay(h.start)
       && v.end == FirstDay(h.end) && v.openingUnrestricted == h.openingUnrestricted
       && v.openingRestricted == h.openingRestricted
       && Some(v.pinned) == (if construction.Some? then construction else a.world.inForce)
       && v.submitted.None? && v.approved.None? && v.rejected.None? && v.activated.None? && v.superseded.None?
       && v.lines == [] && Freezes(v.snapshot, a.world.schedule)
  }

  /** It alone is in force; the one that was, if any, is superseded at the same moment; nothing else moves. */
  ghost predicate IsInForce(s: State, s': State, id: nat, stamp: Stamp) {
    && |s'.versions| == |s.versions| && id < |s.versions| && s'.nextLine == s.nextLine
    && s'.versions[id] == s.versions[id].(status := Active, activated := Some(stamp))
    && forall i :: 0 <= i < |s.versions| && i != id ==>
         s'.versions[i] == if s.versions[i].status == Active
                           then s.versions[i].(status := Superseded, superseded := Some(stamp.time))
                           else s.versions[i]
  }

  ghost predicate Does(s: State, s': State, a: Act) {
    var stamp := Stamp(a.actor.user, a.now);
    match a.step
    case Create(h, construction, source) => IsOpened(s, s', a, h, construction, source)
    case Submit(id) =>
      && OnlyVersion(s, s', id) && s'.nextLine == s.nextLine
      && s'.versions[id] == s.versions[id].(status := Submitted, submitted := Some(stamp))
    case Approve(id) =>
      && OnlyVersion(s, s', id) && s'.nextLine == s.nextLine
      && s'.versions[id] == s.versions[id].(status := Approved, approved := Some(stamp))
    case Reject(id) =>
      && OnlyVersion(s, s', id) && s'.nextLine == s.nextLine
      && s'.versions[id] == s.versions[id].(status := Rejected, rejected := Some(stamp))
    case Discard(id) =>
      && OnlyVersion(s, s', id) && s'.nextLine == s.nextLine
      && s'.versions[id] == s.versions[id].(status := Rejected, rejected := Some(stamp))
    case Activate(id) => IsInForce(s, s', id, stamp)
    case SetLine(id, cell, amount, _) => LineIsSet(s, s', id, cell, amount)
    case RemoveLine(id, line) => LineIsGone(s, s', id, line)
    case Refresh(id) => SnapshotIsRead(s, s', id, a.world.schedule)
  }

  // ---------------------------------------------------------------- asked and done

  lemma PlacedSomewhere(row: ScheduleRow)
    ensures ChosenDate(row).Some? <==> HasPlace(row)
  {
    hide IsLeap, DaysIn;
    if ChosenDate(row).Some? { assert PlacedOn(row, ChosenDate(row).value); }
  }

  lemma ReconcilesTheRest(lines: seq<Line>, remaining: map<int, int>)
    ensures Reconciles(lines, remaining) <==> SchedulesTheRest(lines, remaining)
  {
    hide Sum;
    forall code: int ensures Sum(lines, OfCode(code)) == Sum(lines, PlannedOn(code)) {
      SumCongruent(lines, OfCode(code), PlannedOn(code));
    }
  }

  lemma PinsAgree(v: ForecastVersion, world: World)
    ensures PlanVersionsOf(v.snapshot) == world.governing
            <==> OfPlans(v.snapshot, world.governing)
  {
    hide IsLeap, DaysIn;
    forall plan
      ensures plan in PlanVersionsOf(v.snapshot)
              <==> exists j :: 0 <= j < |v.snapshot| && v.snapshot[j].planVersion == plan
    {
      if j :| 0 <= j < |v.snapshot| && v.snapshot[j].planVersion == plan { assert v.snapshot[j] in v.snapshot; }
    }
    if OfPlans(v.snapshot, world.governing) {
      assert forall plan :: plan in PlanVersionsOf(v.snapshot) <==> plan in world.governing;
    }
  }

  lemma ScheduleIsPlaced(schedule: seq<ScheduleRow>)
    ensures AllPlaced(schedule)
            <==> forall j :: 0 <= j < |schedule| ==> HasPlace(schedule[j])
  {
    hide ChosenDate, HasPlace, IsLeap, DaysIn;
    forall j | 0 <= j < |schedule|
      ensures ChosenDate(schedule[j]).Some? <==> HasPlace(schedule[j])
    {
      PlacedSomewhere(schedule[j]);
    }
  }

  lemma StalePins(v: ForecastVersion, world: World)
    requires v.pinned in world.positions
    ensures StillPinned(v, world) <==> !ConstructionIsStale(v, world)
  {
  }

  lemma ReadyToAdvance(v: ForecastVersion, world: World)
    ensures Ready(v, world) <==> MayAdvance(v, world)
  {
    hide Reconciles, SchedulesTheRest, PlanVersionsOf, OfPlans, AllPlaced, HasPlace,
         ConstructionIsStale, IsLeap, DaysIn;
    PinsAgree(v, world);
    if v.pinned in world.positions { StalePins(v, world); }
    ScheduleIsPlaced(world.schedule);
    if v.pinned in world.positions { ReconcilesTheRest(v.lines, world.positions[v.pinned]); }
  }

  lemma OpeningAsked(s: State, a: Act)
    requires a.step.Create?
    ensures Verdict(s, a) == M.Done
            <==> MayOpen(s, a.world, a.step.horizon, a.step.construction, a.step.source)
  {
    hide IsLeap, DaysIn;
  }

  lemma LineAsked(v: ForecastVersion, cell: Cell, amount: int, stated: Option<Direction>)
    ensures LineVerdict(v, cell, amount, stated) == M.Done
            <==> && v.status == Draft && amount >= 0 && SuitsItsKind(cell, stated)
                 && UpTo(v.start, FirstDay(cell.month)) && UpTo(FirstDay(cell.month), v.end)
    ensures LineVerdict(v, cell, amount, stated) in {M.Done, M.Invalid, M.Conflict}
    ensures LineVerdict(v, cell, amount, stated) == M.Conflict <==> v.status != Draft
    ensures LineVerdict(v, cell, amount, stated) == M.Done ==>
              && DirectionFor(cell.kind, cell.category, stated).Some?
              && (DirectionFor(cell.kind, cell.category, stated).value == Inflow <==> BringsCashIn(cell))
  {
    hide IsLeap, DaysIn;
  }

  lemma LineFound(lines: seq<Line>, line: int)
    ensures PlaceOfLine(lines, line) < |lines| <==> exists j :: 0 <= j < |lines| && lines[j].id == line
  {
  }

  /** No such version, or in a draft no such line. */
  ghost predicate NamesNothing(s: State, step: Step)
    requires !step.Create?
  {
    || step.id >= |s.versions|
    || (step.RemoveLine? && s.versions[step.id].status == Draft
        && forall j :: 0 <= j < |s.versions[step.id].lines| ==> s.versions[step.id].lines[j].id != step.line)
  }

  /** The submitter's own approval or rejection, which only the master administrator may give. */
  predicate JudgesItsOwn(s: State, a: Act)
    requires !a.step.Create?
  {
    && a.step.id < |s.versions| && !a.actor.masterAdmin && SubmittedBy(s.versions[a.step.id], a.actor.user)
    && ((a.step.Approve? && s.versions[a.step.id].status == Submitted)
        || (a.step.Reject? && s.versions[a.step.id].status in {Submitted, Approved}))
  }

  /** An act is accepted exactly on what it asks, and refused for what it names, who asks it, or what it states. */
  lemma AcceptedExactlyWhen(s: State, a: Act)
    ensures Verdict(s, a) == M.Done <==> May(s, a)
    ensures !a.step.Create? ==> (Verdict(s, a) == M.NotFound <==> NamesNothing(s, a.step))
    ensures !a.step.Create? ==> (Verdict(s, a) == M.Forbidden <==> JudgesItsOwn(s, a))
    ensures !a.step.Create? ==>
              (Verdict(s, a) == M.Invalid
               <==> a.step.SetLine? && a.step.id < |s.versions| && s.versions[a.step.id].status == Draft && !May(s, a))
  {
    hide Ready, MayAdvance, MayOpen, CreateVerdict, LineVerdict, SuitsItsKind, PlaceOfLine, IsLeap, DaysIn;
    if a.step.Create? {
      OpeningAsked(s, a);
    } else if a.step.id < |s.versions| {
      var v := s.versions[a.step.id];
      ReadyToAdvance(v, a.world);
      match a.step
      case SetLine(_, cell, amount, stated) => LineAsked(v, cell, amount, stated);
      case RemoveLine(_, line) => LineFound(v.lines, line);
      case _ =>
    }
  }
  // ---------------------------------------------------------------- the effects

  lemma InItsCell(line: Line, cell: Cell)
    ensures InCell(line, cell)
            <==> CellOf(line) == Cell(MonthOf(cell.month), cell.kind, cell.category, cell.costCode, cell.phase)
  {
  }

  lemma OnePerCell(lines: seq<Line>, start: Date, end: Date, next: nat, cell: Cell, k: nat)
    requires LinesHold(lines, start, end, next) && k < |lines| && InCell(lines[k], cell)
    ensures OnlyLineOf(lines, k, cell)
  {
    hide A.ValidLine, IsLeap, DaysIn, InCell, CellOf, UpTo;
    forall j | 0 <= j < |lines| ensures InCell(lines[j], cell) <==> j == k {
      InItsCell(lines[j], cell);
      InItsCell(lines[k], cell);
    }
  }

  lemma NewLineIsNew(s: State)
    requires EachHolds(s)
    ensures NewToAll(s, s.nextLine)
  {
    hide Stamped, A.ValidLine, UpTo, CellOf, IsLeap, DaysIn;
  }

  /** The lines of a version after an accepted line, place by place. */
  lemma WithLineSets(v: ForecastVersion, cell: Cell, amount: int, stated: Option<Direction>, next: nat)
    requires LinesHold(v.lines, v.start, v.end, next) && LineVerdict(v, cell, amount, stated) == M.Done
    ensures var direction := DirectionFor(cell.kind, cell.category, stated).value;
            var before, v' := v.lines, WithLine(v, cell, amount, direction, next);
            var after := v'.lines;
            && v' == v.(lines := after)
            && |before| <= |after| <= |before| + 1
            && (|after| > |before| ==> after[|before|].id == next && InCell(after[|before|], cell))
            && (exists k: nat :: OnlyLineOf(after, k, cell) && after[k].amount == amount
                                 && after[k].direction == direction)
            && forall j :: 0 <= j < |before| ==>
                 && after[j].id == before[j].id && InCell(after[j], cell) == InCell(before[j], cell)
                 && (!InCell(before[j], cell) ==> after[j] == before[j])
  {
    hide LinesHold, DirectionFor, ShapeAllowed, IsLeap, DaysIn, OnlyLineOf;
    var direction := DirectionFor(cell.kind, cell.category, stated).value;
    var at := Cell(MonthOf(cell.month), cell.kind, cell.category, cell.costCode, cell.phase);
    NewLineHolds(v, cell, amount, stated, next);
    var after, k := WithLine(v, cell, amount, direction, next).lines, PlaceOf(v.lines, at);
    assert InCell(after[k], cell);
    OnePerCell(after, v.start, v.end, next + 1, cell, k);
    assert OnlyLineOf(after, k, cell) && after[k].amount == amount && after[k].direction == direction;
    forall j | 0 <= j < |v.lines| ensures InCell(after[j], cell) == InCell(v.lines[j], cell) {
      if j != k { assert after[j] == v.lines[j]; }
    }
  }

  lemma SettingDoes(s: State, a: Act)
    requires Sound(s) && a.step.SetLine? && Verdict(s, a) == M.Done
    ensures LineIsSet(s, Apply(s, a), a.step.id, a.step.cell, a.step.amount)
  {
    hide EachHolds, NewToAll, InCell, OnlyLineOf, WithLine, IsLeap, DaysIn, BringsCashIn, DirectionFor, SuitsItsKind,
         UpTo;
    var v := s.versions[a.step.id];
    LineAsked(v, a.step.cell, a.step.amount, a.step.stated);
    NewLineIsNew(s);
    assert VersionHolds(v, s.nextLine) by { EachIsHeld(s, a.step.id); }
    WithLineSets(v, a.step.cell, a.step.amount, a.step.stated, s.nextLine);
  }

  lemma EachIsHeld(s: State, i: nat)
    requires EachHolds(s) && i < |s.versions|
    ensures VersionHolds(s.versions[i], s.nextLine)
  {
    hide VersionHolds;
  }

  lemma RemovingDoes(s: State, a: Act)
    requires Sound(s) && a.step.RemoveLine? && Verdict(s, a) == M.Done
    ensures LineIsGone(s, Apply(s, a), a.step.id, a.step.line)
  {
    hide EachHolds, A.ValidLine, CellOf, UpTo, IsLeap, DaysIn, Stamped;
    EachIsHeld(s, a.step.id);
    var before, line := s.versions[a.step.id].lines, a.step.line;
    var k := PlaceOfLine(before, line);
    assert before[k].id == line;
    assert Apply(s, a).versions[a.step.id].lines == before[..k] + before[k + 1..];
  }

  lemma OpeningDoes(s: State, a: Act)
    requires Sound(s) && a.step.Create? && Verdict(s, a) == M.Done
    ensures IsOpened(s, Apply(s, a), a, a.step.horizon, a.step.construction, a.step.source)
  {
    hide VersionHolds, SnapshotOf, Freezes, IsLeap, DaysIn, HighestNumber, UpTo;
    HighestIsLast(s.versions);
    SnapshotFreezes(a.world.schedule);
  }

  lemma ActivatingDoes(s: State, a: Act)
    requires Sound(s) && a.step.Activate? && Verdict(s, a) == M.Done
    ensures IsInForce(s, Apply(s, a), a.step.id, Stamp(a.actor.user, a.now))
  {
    hide Ready, EachHolds, IsLeap, DaysIn;
  }

  /** An accepted act does what it says to the version it names, and a refused one does nothing. */
  lemma AnActDoesWhatItSays(s: State, a: Act)
    requires Sound(s)
    ensures May(s, a) ==> Does(s, Apply(s, a), a)
    ensures !May(s, a) ==> Apply(s, a) == s
  {
    hide Sound, May, Ready, IsOpened, IsInForce, LineIsSet, LineIsGone, CreateVerdict, LineVerdict, PlaceOfLine,
         SnapshotOf, Freezes, WithLine, WithoutLine, Opened, SupersedeActive, DirectionFor, IsLeap, DaysIn;
    AcceptedExactlyWhen(s, a);
    if Verdict(s, a) == M.Done {
      match a.step
      case Create(_, _, _) => OpeningDoes(s, a);
      case Activate(_) => ActivatingDoes(s, a);
      case SetLine(_, _, _, _) => SettingDoes(s, a);
      case RemoveLine(_, _) => RemovingDoes(s, a);
      case Refresh(_) => SnapshotFreezes(a.world.schedule);
      case _ =>
    }
  }

  /** So it is of every act of every run. */
  lemma EveryActDoesWhatItSays(acts: seq<Act>, n: nat)
    requires n < |acts|
    ensures var s, s', a := Run(acts[..n]), Run(acts[..n + 1]), acts[n];
            if May(s, a) then Does(s, s', a) else s' == s
  {
    hide Sound, May, Does, Apply;
    EveryRunIsSound(acts[..n]);
    assert acts[..n + 1][..n] == acts[..n];
    AnActDoesWhatItSays(Run(acts[..n]), acts[n]);
  }

  // ---------------------------------------------------------------- the table in place

  /** The version table of one project, changed in place under the project lock. */
  class Ladder {
    var versions: seq<ForecastVersion>
    var nextLine: nat

    function Now(): State
      reads this
    {
      State(versions, nextLine)
    }

    constructor ()
      ensures Now() == EMPTY && Sound(Now())
    {
      versions, nextLine := [], 0;
    }

    /** The gate every advance passes again, against the sources as they are now. */
    method RequireReady(v: ForecastVersion, world: World) returns (ready: bool)
      ensures ready <==> Ready(v, world)
    {
      hide Reconciles, PlaceOf;
      if ConstructionIsStale(v, world) {
        return false;
      }
      if PlanVersionsOf(v.snapshot) != world.governing {
        return false;
      }
      var unplaced := UnplacedInstalments(world.schedule);
      if unplaced != [] {
        return false;
      }
      if v.pinned !in world.positions {
        return false;
      }
      var checks := ConstructionReconciliation(v.lines, world.positions[v.pinned]);
      ready := forall i :: 0 <= i < |checks| ==> checks[i].passed;
    }

    method UnplacedInstalments(rows: seq<ScheduleRow>) returns (unplaced: seq<ScheduleRow>)
      ensures unplaced == [] <==> AllPlaced(rows)
    {
      unplaced := [];
      for i := 0 to |rows|
        invariant unplaced == [] <==> forall j :: 0 <= j < i ==> ChosenDate(rows[j]).Some?
      {
        if ChosenDate(rows[i]).None? {
          unplaced := unplaced + [rows[i]];
        }
      }
    }

    method CreateForecast(actor: Actor, ghost now: Instant, world: World, h: ForecastLadder.Horizon,
            construction: Option<int>, source: Option<nat>)
      returns (outcome: Outcome)
      modifies this`versions
      ensures outcome == Verdict(old(Now()), Act(actor, now, world, Create(h, construction, source)))
      ensures Now() == Apply(old(Now()), Act(actor, now, world, Create(h, construction, source)))
      ensures Sound(old(Now())) ==> Sound(Now())
      ensures outcome == M.Done <==> May(old(Now()), Act(actor, now, world, Create(h, construction, source)))
      ensures Sound(old(Now())) ==>
                if outcome == M.Done
                    then IsOpened(old(Now()), Now(), Act(actor, now, world, Create(h, construction, source)), h,
                                  construction, source)
                else Now() == old(Now())
    {
      hide Sound, May, LineIsSet, LineIsGone, SnapshotIsRead, IsOpened, IsInForce;
      EveryStepKeepsSound(Now(), Act(actor, now, world, Create(h, construction, source)));
      AcceptedExactlyWhen(Now(), Act(actor, now, world, Create(h, construction, source)));
      if Sound(Now()) { AnActDoesWhatItSays(Now(), Act(actor, now, world, Create(h, construction, source))); }
      if Before(world.today, h.asOf) {
        return M.Invalid;
      }
      if exists i :: 0 <= i < |versions| && IsOpen(versions[i]) {
        return M.Conflict;
      }
      var start, end := MonthOf(h.start), MonthOf(h.end);
      if Before(end, start) {
        return M.Invalid;
      }
      if start != MonthOf(h.asOf) {
        return M.Invalid;
      }
      var pinned := PositionNamed(world, construction);
      if pinned.None? {
        return M.Conflict;
      }
      if source.Some? && source.value >= |versions| {
        return M.NotFound;
      }
      if h.openingUnrestricted < 0 || h.openingRestricted < 0 {
        return M.Invalid;
      }
      var snapshot := WriteSnapshot(world.schedule);
      versions := versions + [ForecastVersion(
        HighestNumber(versions) + 1, world.currency, h.asOf, start, end, h.openingUnrestricted, h.openingRestricted,
        source, pinned.value, actor.user, Draft, None, None, None, None, None, [], snapshot)];
      outcome := M.Done;
    }

    method SubmitForecast(actor: Actor, now: Instant, world: World, id: nat) returns (outcome: Outcome)
      modifies this`versions
      ensures outcome == Verdict(old(Now()), Act(actor, now, world, Submit(id)))
      ensures Now() == Apply(old(Now()), Act(actor, now, world, Submit(id)))
      ensures Sound(old(Now())) ==> Sound(Now())
      ensures outcome == M.Done <==> May(old(Now()), Act(actor, now, world, Submit(id)))
      ensures Sound(old(Now())) ==>
                if outcome == M.Done then Does(old(Now()), Now(), Act(actor, now, world, Submit(id)))
                else Now() == old(Now())
    {
      hide Sound, May, LineIsSet, LineIsGone, SnapshotIsRead, IsOpened, IsInForce, Ready;
      EveryStepKeepsSound(Now(), Act(actor, now, world, Submit(id)));
      AcceptedExactlyWhen(Now(), Act(actor, now, world, Submit(id)));
      if Sound(Now()) { AnActDoesWhatItSays(Now(), Act(actor, now, world, Submit(id))); }
      if id >= |versions| {
        return M.NotFound;
      }
      var version := versions[id];
      if version.status != Draft {
        return M.Conflict;
      }
      var ready := RequireReady(version, world);
      if !ready {
        return M.Conflict;
      }
      version := version.(status := Submitted);
      version := version.(submitted := Some(Stamp(actor.user, now)));
      versions := versions[id := version];
      outcome := M.Done;
    }

    method ApproveForecast(actor: Actor, now: Instant, world: World, id: nat) returns (outcome: Outcome)
      modifies this`versions
      ensures outcome == Verdict(old(Now()), Act(actor, now, world, Approve(id)))
      ensures Now() == Apply(old(Now()), Act(actor, now, world, Approve(id)))
      ensures Sound(old(Now())) ==> Sound(Now())
      ensures outcome == M.Done <==> May(old(Now()), Act(actor, now, world, Approve(id)))
      ensures Sound(old(Now())) ==>
                if outcome == M.Done then Does(old(Now()), Now(), Act(actor, now, world, Approve(id)))
                else Now() == old(Now())
    {
      hide Sound, May, LineIsSet, LineIsGone, SnapshotIsRead, IsOpened, IsInForce, Ready;
      EveryStepKeepsSound(Now(), Act(actor, now, world, Approve(id)));
      AcceptedExactlyWhen(Now(), Act(actor, now, world, Approve(id)));
      if Sound(Now()) { AnActDoesWhatItSays(Now(), Act(actor, now, world, Approve(id))); }
      if id >= |versions| {
        return M.NotFound;
      }
      var version := versions[id];
      if version.status != Submitted {
        return M.Conflict;
      }
      if !MayApprove(actor, version) {
        return M.Forbidden;
      }
      var ready := RequireReady(version, world);
      if !ready {
        return M.Conflict;
      }
      version := version.(status := Approved);
      version := version.(approved := Some(Stamp(actor.user, now)));
      versions := versions[id := version];
      outcome := M.Done;
    }

    method RejectForecast(actor: Actor, now: Instant, ghost world: World, id: nat) returns (outcome: Outcome)
      modifies this`versions
      ensures outcome == Verdict(old(Now()), Act(actor, now, world, Reject(id)))
      ensures Now() == Apply(old(Now()), Act(actor, now, world, Reject(id)))
      ensures Sound(old(Now())) ==> Sound(Now())
      ensures outcome == M.Done <==> May(old(Now()), Act(actor, now, world, Reject(id)))
      ensures Sound(old(Now())) ==>
                if outcome == M.Done then Does(old(Now()), Now(), Act(actor, now, world, Reject(id)))
                else Now() == old(Now())
    {
      hide Sound, May, LineIsSet, LineIsGone, SnapshotIsRead, IsOpened, IsInForce;
      EveryStepKeepsSound(Now(), Act(actor, now, world, Reject(id)));
      AcceptedExactlyWhen(Now(), Act(actor, now, world, Reject(id)));
      if Sound(Now()) { AnActDoesWhatItSays(Now(), Act(actor, now, world, Reject(id))); }
      if id >= |versions| {
        return M.NotFound;
      }
      var version := versions[id];
      if version.status != Submitted && version.status != Approved {
        return M.Conflict;
      }
      if !MayApprove(actor, version) {
        return M.Forbidden;
      }
      version := version.(status := Rejected);
      version := version.(rejected := Some(Stamp(actor.user, now)));
      versions := versions[id := version];
      outcome := M.Done;
    }

    method DiscardForecast(actor: Actor, now: Instant, ghost world: World, id: nat) returns (outcome: Outcome)
      modifies this`versions
      ensures outcome == Verdict(old(Now()), Act(actor, now, world, Discard(id)))
      ensures Now() == Apply(old(Now()), Act(actor, now, world, Discard(id)))
      ensures Sound(old(Now())) ==> Sound(Now())
      ensures outcome == M.Done <==> May(old(Now()), Act(actor, now, world, Discard(id)))
      ensures Sound(old(Now())) ==>
                if outcome == M.Done then Does(old(Now()), Now(), Act(actor, now, world, Discard(id)))
                else Now() == old(Now())
    {
      hide Sound, May, LineIsSet, LineIsGone, SnapshotIsRead, IsOpened, IsInForce;
      EveryStepKeepsSound(Now(), Act(actor, now, world, Discard(id)));
      AcceptedExactlyWhen(Now(), Act(actor, now, world, Discard(id)));
      if Sound(Now()) { AnActDoesWhatItSays(Now(), Act(actor, now, world, Discard(id))); }
      if id >= |versions| {
        return M.NotFound;
      }
      var version := versions[id];
      if version.status != Draft {
        return M.Conflict;
      }
      version := version.(status := Rejected);
      version := version.(rejected := Some(Stamp(actor.user, now)));
      versions := versions[id := version];
      outcome := M.Done;
    }

    method ActivateForecast(actor: Actor, now: Instant, world: World, id: nat) returns (outcome: Outcome)
      modifies this`versions
      ensures outcome == Verdict(old(Now()), Act(actor, now, world, Activate(id)))
      ensures Now() == Apply(old(Now()), Act(actor, now, world, Activate(id)))
      ensures Sound(old(Now())) ==> Sound(Now())
      ensures outcome == M.Done <==> May(old(Now()), Act(actor, now, world, Activate(id)))
      ensures Sound(old(Now())) ==>
                if outcome == M.Done then IsInForce(old(Now()), Now(), id, Stamp(actor.user, now))
                else Now() == old(Now())
    {
      hide Sound, May, LineIsSet, LineIsGone, SnapshotIsRead, IsOpened, IsInForce, Ready;
      EveryStepKeepsSound(Now(), Act(actor, now, world, Activate(id)));
      AcceptedExactlyWhen(Now(), Act(actor, now, world, Activate(id)));
      if Sound(Now()) { AnActDoesWhatItSays(Now(), Act(actor, now, world, Activate(id))); }
      if id >= |versions| {
        return M.NotFound;
      }
      var version := versions[id];
      if version.status != Approved {
        return M.Conflict;
      }
      if version.currency != world.currency {
        return M.Conflict;
      }
      var ready := RequireReady(version, world);
      if !ready {
        return M.Conflict;
      }
      var standing := ActiveOf(versions);
      if standing.Some? {
        var superseded := versions[standing.value].(status := Superseded);
        superseded := superseded.(superseded := Some(now));
        versions := versions[standing.value := superseded];
      }
      version := version.(status := Active);
      version := version.(activated := Some(Stamp(actor.user, now)));
      versions := versions[id := version];
      outcome := M.Done;
    }

    method SetForecastLine(ghost actor: Actor, ghost now: Instant, ghost world: World, id: nat, cell: Cell, amount: int,
            stated: Option<Direction>)
      returns (outcome: Outcome)
      modifies this
      ensures outcome == Verdict(old(Now()), Act(actor, now, world, SetLine(id, cell, amount, stated)))
      ensures Now() == Apply(old(Now()), Act(actor, now, world, SetLine(id, cell, amount, stated)))
      ensures Sound(old(Now())) ==> Sound(Now())
      ensures outcome == M.Done <==> May(old(Now()), Act(actor, now, world, SetLine(id, cell, amount, stated)))
      ensures Sound(old(Now())) ==>
                if outcome == M.Done then LineIsSet(old(Now()), Now(), id, cell, amount)
                else Now() == old(Now())
    {
      hide Sound, May, LineIsSet, LineIsGone, SnapshotIsRead, IsOpened, IsInForce, IsLeap, DaysIn;
      EveryStepKeepsSound(Now(), Act(actor, now, world, SetLine(id, cell, amount, stated)));
      AcceptedExactlyWhen(Now(), Act(actor, now, world, SetLine(id, cell, amount, stated)));
      if Sound(Now()) { AnActDoesWhatItSays(Now(), Act(actor, now, world, SetLine(id, cell, amount, stated))); }
      if id >= |versions| {
        return M.NotFound;
      }
      var version := versions[id];
      if version.status != Draft {
        return M.Conflict;
      }
      var month := MonthOf(cell.month);
      if !(UpTo(version.start, month) && UpTo(month, version.end)) {
        return M.Invalid;
      }
      var direction := DirectionFor(cell.kind, cell.category, stated);
      if direction.None? || !ShapeAllowed(cell) || amount < 0 {
        return M.Invalid;
      }
      var at := Cell(month, cell.kind, cell.category, cell.costCode, cell.phase);
      var existing := PlaceOf(version.lines, at);
      if existing == |version.lines| {
        version := version.(lines := version.lines
          + [Line(nextLine, month, cell.kind, cell.category, direction.value, amount, cell.phase, cell.costCode)]);
      } else {
        var line := version.lines[existing].(direction := direction.value, amount := amount);
        version := version.(lines := version.lines[existing := line]);
      }
      versions := versions[id := version];
      nextLine := nextLine + 1;
      outcome := M.Done;
    }

    method RemoveForecastLine(ghost actor: Actor, ghost now: Instant, ghost world: World, id: nat, line: int)
      returns (outcome: Outcome)
      modifies this`versions
      ensures outcome == Verdict(old(Now()), Act(actor, now, world, RemoveLine(id, line)))
      ensures Now() == Apply(old(Now()), Act(actor, now, world, RemoveLine(id, line)))
      ensures Sound(old(Now())) ==> Sound(Now())
      ensures outcome == M.Done <==> May(old(Now()), Act(actor, now, world, RemoveLine(id, line)))
      ensures Sound(old(Now())) ==>
                if outcome == M.Done then LineIsGone(old(Now()), Now(), id, line)
                else Now() == old(Now())
    {
      hide Sound, May, LineIsSet, LineIsGone, SnapshotIsRead, IsOpened, IsInForce;
      EveryStepKeepsSound(Now(), Act(actor, now, world, RemoveLine(id, line)));
      AcceptedExactlyWhen(Now(), Act(actor, now, world, RemoveLine(id, line)));
      if Sound(Now()) { AnActDoesWhatItSays(Now(), Act(actor, now, world, RemoveLine(id, line))); }
      if id >= |versions| {
        return M.NotFound;
      }
      var version := versions[id];
      if version.status != Draft {
        return M.Conflict;
      }
      var k := PlaceOfLine(version.lines, line);
      if k == |version.lines| {
        return M.NotFound;
      }
      version := version.(lines := version.lines[..k] + version.lines[k + 1..]);
      versions := versions[id := version];
      outcome := M.Done;
    }

    method RefreshCustomerSnapshot(ghost actor: Actor, ghost now: Instant, world: World, id: nat)
      returns (outcome: Outcome)
      modifies this`versions
      ensures outcome == Verdict(old(Now()), Act(actor, now, world, Refresh(id)))
      ensures Now() == Apply(old(Now()), Act(actor, now, world, Refresh(id)))
      ensures Sound(old(Now())) ==> Sound(Now())
      ensures outcome == M.Done <==> May(old(Now()), Act(actor, now, world, Refresh(id)))
      ensures Sound(old(Now())) ==>
                if outcome == M.Done then SnapshotIsRead(old(Now()), Now(), id, world.schedule)
                else Now() == old(Now())
    {
      hide Sound, May, LineIsSet, LineIsGone, SnapshotIsRead, IsOpened, IsInForce;
      EveryStepKeepsSound(Now(), Act(actor, now, world, Refresh(id)));
      AcceptedExactlyWhen(Now(), Act(actor, now, world, Refresh(id)));
      if Sound(Now()) { AnActDoesWhatItSays(Now(), Act(actor, now, world, Refresh(id))); }
      if id >= |versions| {
        return M.NotFound;
      }
      var version := versions[id];
      if version.status == Approved {
        return M.Conflict;
      }
      if version.status != Draft && version.status != Submitted {
        return M.Conflict;
      }
      var snapshot := WriteSnapshot(world.schedule);
      versions := versions[id := version.(snapshot := snapshot)];
      outcome := M.Done;
    }
  }
}
