/** The governed forecast's ladder: one version open at a time, one in force, and what each rung freezes. */
module ForecastLadder {
  import opened Calendar
  import opened Standing
  import opened CashModel
  import opened ForecastMatching
  import opened ForecastRemainders
  import opened ForecastReadiness
  import M = Movements
  import A = Assembly
  import Bridge

  type Actor = M.Actor
  type Outcome = M.Outcome

  datatype Rung = Draft | Submitted | Approved | Active | Superseded | Rejected

  datatype Stamp = Stamp(user: int, time: Instant)

  datatype ForecastVersion = ForecastVersion(
    number: nat, currency: int, asOf: Date, start: Date, end: Date, openingUnrestricted: int, openingRestricted: int,
    source: Option<nat>, pinned: int, createdBy: int, status: Rung,
    submitted: Option<Stamp>, approved: Option<Stamp>, rejected: Option<Stamp>, activated: Option<Stamp>,
        superseded: Option<Instant>,
    lines: seq<Line>, snapshot: seq<SnapshotRow>)

  /** A version's id is its place in the table; `nextLine` is an identity no line has taken. */
  datatype State = State(versions: seq<ForecastVersion>, nextLine: nat)

  /** What the other modules say while the project lock is held. */
  datatype World = World(
    today: Date, currency: int, positions: map<int, map<int, int>>, inForce: Option<int>,
    schedule: seq<ScheduleRow>, governing: set<int>)

  datatype Horizon = Horizon(asOf: Date, start: Date, end: Date, openingUnrestricted: int, openingRestricted: int)

  datatype Cell = Cell(month: Date, kind: SourceKind, category: Category, costCode: Option<int>, phase: Option<int>)

  datatype Step =
    | Create(horizon: Horizon, construction: Option<int>, source: Option<nat>)
    | Submit(id: nat)
    | Approve(id: nat)
    | Reject(id: nat)
    | Discard(id: nat)
    | Activate(id: nat)
    | SetLine(id: nat, cell: Cell, amount: int, stated: Option<Direction>)
    | RemoveLine(id: nat, line: int)
    | Refresh(id: nat)

  datatype Act = Act(actor: Actor, now: Instant, world: World, step: Step)

  predicate IsOpen(v: ForecastVersion) { v.status == Draft || v.status == Submitted || v.status == Approved }

  predicate HasOpen(s: State) { exists i :: 0 <= i < |s.versions| && IsOpen(s.versions[i]) }

  function PositionNamed(world: World, id: Option<int>): Option<int> {
    match id
    case Some(version) => if version in world.positions then Some(version) else None
    case None => if world.inForce.Some? && world.inForce.value in world.positions then world.inForce else None
  }

  /** The pins still govern, nothing the buyers owe is unplaced, and the build schedule reconciles. */
  ghost predicate Ready(v: ForecastVersion, world: World) {
    && !ConstructionIsStale(v, world)
    && PlanVersionsOf(v.snapshot) == world.governing
    && AllPlaced(world.schedule)
    && v.pinned in world.positions && Reconciles(v.lines, world.positions[v.pinned])
  }

  predicate ConstructionIsStale(v: ForecastVersion, world: World) {
    var pinned, current := PositionNamed(world, Some(v.pinned)), PositionNamed(world, None);
    pinned.Some? && current.Some? && current != pinned
  }

  /** Anyone but the submitter, or else the master administrator. */
  predicate MayApprove(actor: Actor, v: ForecastVersion) {
    actor.masterAdmin || v.submitted.None? || v.submitted.value.user != actor.user
  }

  predicate IsInflowFinancing(kind: FinancingKind) {
    kind.EquityContribution? || kind.DebtDrawdown? || kind.GuaranteeCashRelease?
  }

  /** The way a line's cash moves follows from what it is; a stated direction may only agree. */
  function DirectionFor(kind: SourceKind, category: Category, stated: Option<Direction>): Option<Direction> {
    match kind
    case ConstructionPlanKind => Some(Outflow)
    case DevelopmentPlanKind => Some(Outflow)
    case UnsoldCustomerKind => Some(Inflow)
    case FinancingPlanKind =>
      if !category.Financing? then None
      else
        var derived := if IsInflowFinancing(category.financing) then Inflow else Outflow;
        if stated.Some? && stated.value != derived then None else Some(derived)
  }

  predicate ShapeAllowed(cell: Cell) {
    match cell.kind
    case ConstructionPlanKind => cell.category == Construction && cell.costCode.Some?
    case DevelopmentPlanKind => cell.category.Development? && cell.costCode.None?
    case UnsoldCustomerKind => cell.category == CustomerCollection && cell.costCode.None?
    case FinancingPlanKind => cell.category.Financing? && cell.costCode.None?
  }

  function CellOf(line: Line): Cell { Cell(line.period, line.kind, line.category, line.costCode, line.phase) }

  /** The first line of a cell, or where one would be appended. */
  function PlaceOf(lines: seq<Line>, cell: Cell): (k: nat)
    ensures k <= |lines| && (k < |lines| ==> CellOf(lines[k]) == cell)
    ensures forall j :: 0 <= j < k ==> CellOf(lines[j]) != cell
    decreases |lines|
  {
    if lines == [] then 0
    else
      var before := PlaceOf(lines[..|lines| - 1], cell);
      if before < |lines| - 1 then before
      else if CellOf(lines[|lines| - 1]) == cell then |lines| - 1 else |lines|
  }

  function PlaceOfLine(lines: seq<Line>, id: int): (k: nat)
    ensures k <= |lines| && (k < |lines| ==> lines[k].id == id)
    ensures forall j :: 0 <= j < k ==> lines[j].id != id
    decreases |lines|
  {
    if lines == [] then 0
    else
      var before := PlaceOfLine(lines[..|lines| - 1], id);
      if before < |lines| - 1 then before
      else if lines[|lines| - 1].id == id then |lines| - 1 else |lines|
  }

  // ---------------------------------------------------------------- verdicts

  function CreateVerdict(s: State, a: Act, h: Horizon, construction: Option<int>, source: Option<nat>): Outcome {
    if Before(a.world.today, h.asOf) then M.Invalid
    else if HasOpen(s) then M.Conflict
    else if Before(MonthOf(h.end), MonthOf(h.start)) then M.Invalid
    else if MonthOf(h.start) != MonthOf(h.asOf) then M.Invalid
    else if PositionNamed(a.world, construction).None? then M.Conflict
    else if source.Some? && source.value >= |s.versions| then M.NotFound
    else if h.openingUnrestricted < 0 || h.openingRestricted < 0 then M.Invalid
    else M.Done
  }

  function LineVerdict(v: ForecastVersion, cell: Cell, amount: int, stated: Option<Direction>): Outcome {
    var month := MonthOf(cell.month);
    if v.status != Draft then M.Conflict
    else if Before(month, v.start) || Before(v.end, month) then M.Invalid
    else if DirectionFor(cell.kind, cell.category, stated).None? || !ShapeAllowed(cell) || amount < 0 then M.Invalid
    else M.Done
  }

  ghost function Verdict(s: State, a: Act): Outcome {
    match a.step
    case Create(h, construction, source) => CreateVerdict(s, a, h, construction, source)
    case Submit(id) =>
      if id >= |s.versions| then M.NotFound
      else if s.versions[id].status != Draft || !Ready(s.versions[id], a.world) then M.Conflict else M.Done
    case Approve(id) =>
      if id >= |s.versions| then M.NotFound
      else if s.versions[id].status != Submitted then M.Conflict
      else if !MayApprove(a.actor, s.versions[id]) then M.Forbidden
      else if !Ready(s.versions[id], a.world) then M.Conflict else M.Done
    case Reject(id) =>
      if id >= |s.versions| then M.NotFound
      else if s.versions[id].status != Submitted && s.versions[id].status != Approved then M.Conflict
      else if !MayApprove(a.actor, s.versions[id]) then M.Forbidden else M.Done
    case Discard(id) =>
      if id >= |s.versions| then M.NotFound
      else if s.versions[id].status != Draft then M.Conflict else M.Done
    case Activate(id) =>
      if id >= |s.versions| then M.NotFound
      else if s.versions[id].status != Approved || s.versions[id].currency != a.world.currency
          || !Ready(s.versions[id], a.world) then M.Conflict
      else M.Done
    case SetLine(id, cell, amount, stated) =>
      if id >= |s.versions| then M.NotFound else LineVerdict(s.versions[id], cell, amount, stated)
    case RemoveLine(id, line) =>
      if id >= |s.versions| then M.NotFound
      else if s.versions[id].status != Draft then M.Conflict
      else if PlaceOfLine(s.versions[id].lines, line) == |s.versions[id].lines| then M.NotFound else M.Done
    case Refresh(id) =>
      if id >= |s.versions| then M.NotFound
      else if s.versions[id].status != Draft && s.versions[id].status != Submitted then M.Conflict else M.Done
  }

  // ---------------------------------------------------------------- what each step does

  function Opened(s: State, a: Act, h: Horizon, pinned: int, source: Option<nat>): ForecastVersion {
    ForecastVersion(
      HighestNumber(s.versions) + 1, a.world.currency, h.asOf, MonthOf(h.start), MonthOf(h.end),
      h.openingUnrestricted, h.openingRestricted, source, pinned, a.actor.user, Draft,
      None, None, None, None, None, [], SnapshotOf(a.world.schedule))
  }

  function HighestNumber(versions: seq<ForecastVersion>): nat {
    if versions == [] then 0
    else
      var before := HighestNumber(versions[..|versions| - 1]);
      if versions[|versions| - 1].number > before then versions[|versions| - 1].number else before
  }

  /** One figure per cell: a line of the same cell is replaced, and otherwise one is added. */
  function WithLine(v: ForecastVersion, cell: Cell, amount: int, direction: Direction, lineId: nat): ForecastVersion {
    var at := Cell(MonthOf(cell.month), cell.kind, cell.category, cell.costCode, cell.phase);
    var k := PlaceOf(v.lines, at);
    if k < |v.lines| then v.(lines := v.lines[k := v.lines[k].(direction := direction, amount := amount)])
    else
      v.(lines := v.lines
         + [Line(lineId, at.month, cell.kind, cell.category, direction, amount, cell.phase, cell.costCode)])
  }

  function WithoutLine(v: ForecastVersion, line: int): ForecastVersion
    requires PlaceOfLine(v.lines, line) < |v.lines|
  {
    var k := PlaceOfLine(v.lines, line);
    v.(lines := v.lines[..k] + v.lines[k + 1..])
  }

  function Put(s: State, id: nat, v: ForecastVersion): State
    requires id < |s.versions|
  {
    s.(versions := s.versions[id := v])
  }

  /** The first version in force, if any is. */
  function ActiveOf(versions: seq<ForecastVersion>): (r: Option<nat>)
    ensures r.Some? ==> r.value < |versions| && versions[r.value].status == Active
    ensures r.None? ==> forall i :: 0 <= i < |versions| ==> versions[i].status != Active
  {
    if versions == [] then None
    else
      var n := |versions| - 1;
      var before := ActiveOf(versions[..n]);
      assert forall i :: 0 <= i < n ==> versions[i] == versions[..n][i];
      if before.Some? then before
      else if versions[n].status == Active then Some(n) else None
  }

  function SupersedeActive(s: State, now: Instant): State {
    var standing := ActiveOf(s.versions);
    if standing.None? then s
    else Put(s, standing.value, s.versions[standing.value].(status := Superseded, superseded := Some(now)))
  }

  ghost function Apply(s: State, a: Act): State {
    if Verdict(s, a) != M.Done then s
    else
      var stamp := Some(Stamp(a.actor.user, a.now));
      match a.step
      case Create(h, construction, source) =>
        s.(versions := s.versions + [Opened(s, a, h, PositionNamed(a.world, construction).value, source)])
      case Submit(id) => Put(s, id, s.versions[id].(status := Submitted, submitted := stamp))
      case Approve(id) => Put(s, id, s.versions[id].(status := Approved, approved := stamp))
      case Reject(id) => Put(s, id, s.versions[id].(status := Rejected, rejected := stamp))
      case Discard(id) => Put(s, id, s.versions[id].(status := Rejected, rejected := stamp))
      case Activate(id) =>
        Put(SupersedeActive(s, a.now), id, s.versions[id].(status := Active, activated := stamp))
      case SetLine(id, cell, amount, stated) =>
        Put(s, id, WithLine(s.versions[id], cell, amount, DirectionFor(cell.kind, cell.category, stated).value,
                            s.nextLine)).(nextLine := s.nextLine + 1)
      case RemoveLine(id, line) => Put(s, id, WithoutLine(s.versions[id], line))
      case Refresh(id) => Put(s, id, s.versions[id].(snapshot := SnapshotOf(a.world.schedule)))
  }

  const EMPTY: State := State([], 0)

  ghost function Run(acts: seq<Act>): State {
    if acts == [] then EMPTY else Apply(Run(acts[..|acts| - 1]), acts[|acts| - 1])
  }

  // ---------------------------------------------------------------- what each step keeps of a version

  /** What may become of a version: its pins never move, and each rung freezes more of it. */
  ghost predicate Keeps(v: ForecastVersion, v': ForecastVersion) {
    && v'.(status := v.status, submitted := v.submitted, approved := v.approved, rejected := v.rejected,
           activated := v.activated, superseded := v.superseded, lines := v.lines, snapshot := v.snapshot) == v
    && (v.status != Draft ==> v'.lines == v.lines && v'.status != Draft)
    && (v.status != Draft && v.status != Submitted ==>
          v'.snapshot == v.snapshot && v'.status != Draft && v'.status != Submitted)
    && (v.status != Draft && v.status != Submitted && v.status != Approved ==> !IsOpen(v'))
    && (v.status == Rejected ==> v' == v)
    && (v.status == Superseded ==> v' == v)
    && (v.status != Draft ==> v'.submitted == v.submitted)
    && (v.approved.Some? && v.status != Draft && v.status != Submitted ==> v'.approved == v.approved)
    && (v.rejected.Some? && v.status == Rejected ==> v'.rejected == v.rejected)
    && (v.status == Active ==> v'.activated == v.activated && (v' == v || v'.status == Superseded))
  }

  /** The order of the rungs. */
  function Height(r: Rung): nat {
    match r
    case Draft => 0
    case Submitted => 1
    case Approved => 2
    case Active => 3
    case Superseded => 4
    case Rejected => 5
  }

  lemma SupersedingKeeps(s: State, now: Instant, i: nat)
    requires i < |s.versions|
    ensures var s' := SupersedeActive(s, now);
            && |s'.versions| == |s.versions| && s'.nextLine == s.nextLine
            && (s'.versions[i] == s.versions[i]
                || (ActiveOf(s.versions) == Some(i) && s.versions[i].status == Active
                    && s'.versions[i] == s.versions[i].(status := Superseded, superseded := Some(now))))
            && (ActiveOf(s.versions) == Some(i) ==> s'.versions[i].status == Superseded)
  {
  }

  /** Only one version changes at a step, but for the one an activation supersedes. */
  lemma StepTouches(s: State, a: Act, i: nat)
    requires i < |s.versions|
    ensures var s', v := Apply(s, a), s.versions[i];
            && i < |s'.versions|
            && var v' := s'.versions[i];
               var stamp := Some(Stamp(a.actor.user, a.now));
               || v' == v
               || (v.status == Draft && a.step == Submit(i) && Ready(v, a.world)
                   && v' == v.(status := Submitted, submitted := stamp))
               || (v.status == Submitted && a.step == Approve(i) && Ready(v, a.world) && MayApprove(a.actor, v)
                   && v' == v.(status := Approved, approved := stamp))
               || (IsOpen(v) && (v.status == Draft || MayApprove(a.actor, v))
                   && v' == v.(status := Rejected, rejected := stamp))
               || (v.status == Approved && a.step == Activate(i) && Ready(v, a.world)
                   && v' == v.(status := Active, activated := stamp))
               || (v.status == Active && a.step.Activate? && v' == v.(status := Superseded, superseded := Some(a.now)))
               || (v.status == Draft && (a.step.SetLine? || a.step.RemoveLine?) && v' == v.(lines := v'.lines))
               || ((v.status == Draft || v.status == Submitted) && v' == v.(snapshot := SnapshotOf(a.world.schedule)))
  {
    hide Ready, SnapshotOf, IsLeap, DaysIn, PlaceOf, PlaceOfLine, MayApprove, LineVerdict, CreateVerdict, DirectionFor,
         WithLine, WithoutLine, SupersedeActive, Opened;
    SupersedingKeeps(s, a.now, i);
    match a.step
    case Create(_, _, _) =>
    case Submit(_) =>
    case Approve(_) =>
    case Reject(_) =>
    case Discard(_) =>
    case Activate(_) =>
    case SetLine(_, cell, amount, stated) =>
      SettingTouches(s, a, i);
      WithLineKeepsRest(s.versions[i], cell, amount, DirectionFor(cell.kind, cell.category, stated), s.nextLine);
    case RemoveLine(_, _) => RemovingTouches(s, a, i);
    case Refresh(_) =>
  }

  lemma RemovingTouches(s: State, a: Act, i: nat)
    requires i < |s.versions| && a.step.RemoveLine?
    ensures var s', v := Apply(s, a), s.versions[i];
            && i < |s'.versions|
            && (s'.versions[i] == v
                || (i == a.step.id && v.status == Draft && PlaceOfLine(v.lines, a.step.line) < |v.lines|
                    && s'.versions[i] == WithoutLine(v, a.step.line) == v.(lines := s'.versions[i].lines)))
  {
    hide Ready, SnapshotOf, IsLeap, DaysIn, PlaceOf, MayApprove, LineVerdict;
  }

  lemma WithLineKeepsRest(v: ForecastVersion, cell: Cell, amount: int, direction: Option<Direction>, next: nat)
    ensures direction.Some? ==>
              WithLine(v, cell, amount, direction.value, next)
                  == v.(lines := WithLine(v, cell, amount, direction.value, next).lines)
  {
    hide PlaceOf, IsLeap, DaysIn;
  }

  lemma SettingTouches(s: State, a: Act, i: nat)
    requires i < |s.versions| && a.step.SetLine?
    ensures var s', v := Apply(s, a), s.versions[i];
            && i < |s'.versions|
            && (s'.versions[i] == v
                || (i == a.step.id && v.status == Draft
                    && LineVerdict(v, a.step.cell, a.step.amount, a.step.stated) == M.Done
                    && DirectionFor(a.step.cell.kind, a.step.cell.category, a.step.stated).Some?
                    && s'.versions[i]
                          == WithLine(v, a.step.cell, a.step.amount,
                                      DirectionFor(a.step.cell.kind, a.step.cell.category, a.step.stated).value,
                                          s.nextLine)))
  {
    hide Ready, SnapshotOf, IsLeap, DaysIn, PlaceOf, MayApprove, WithLine;
  }

  lemma StepKeepsEachVersion(s: State, a: Act, i: nat)
    requires i < |s.versions|
    ensures var s' := Apply(s, a); i < |s'.versions| && Keeps(s.versions[i], s'.versions[i])
    ensures Height(s.versions[i].status) <= Height(Apply(s, a).versions[i].status)
  {
    hide Apply, Ready, SnapshotOf, PlaceOf, PlaceOfLine, MayApprove, LineVerdict, DirectionFor;
    StepTouches(s, a, i);
  }

  lemma KeepsChains(a: ForecastVersion, b: ForecastVersion, c: ForecastVersion)
    requires Keeps(a, b) && Keeps(b, c)
    ensures Keeps(a, c)
  {
  }

  lemma KeepsItself(v: ForecastVersion)
    ensures Keeps(v, v)
  {
  }

  /** Whatever happens after a moment, each version of that moment is kept as its rung promises. */
  lemma {:induction false} HistoryIsKept(acts: seq<Act>, n: nat, i: nat)
    requires n <= |acts| && i < |Run(acts[..n]).versions|
    ensures i < |Run(acts).versions| && Keeps(Run(acts[..n]).versions[i], Run(acts).versions[i])
    ensures Height(Run(acts[..n]).versions[i].status) <= Height(Run(acts).versions[i].status)
  {
    hide Apply, Keeps, Height;
    if n == |acts| {
      assert acts[..n] == acts;
      KeepsItself(Run(acts).versions[i]);
    } else {
      var m := |acts| - 1;
      assert acts[..m][..n] == acts[..n];
      HistoryIsKept(acts[..m], n, i);
      StepKeepsEachVersion(Run(acts[..m]), acts[m], i);
      KeepsChains(Run(acts[..n]).versions[i], Run(acts[..m]).versions[i], Run(acts).versions[i]);
    }
  }

  // ---------------------------------------------------------------- what holds in every state

  ghost predicate LinesHold(lines: seq<Line>, start: Date, end: Date, next: nat) {
    && (forall j :: 0 <= j < |lines| ==>
          A.ValidLine(lines[j]) && UpTo(start, lines[j].period) && UpTo(lines[j].period, end)
              && 0 <= lines[j].id < next)
    && (forall j, k :: 0 <= j < k < |lines| ==> lines[j].id != lines[k].id && CellOf(lines[j]) != CellOf(lines[k]))
  }

  ghost predicate Stamped(v: ForecastVersion) {
    && (v.status == Draft ==> v.submitted.None?)
    && (v.status == Submitted || v.status == Approved || v.status == Active || v.status == Superseded ==>
          v.submitted.Some?)
    && (v.status == Draft || v.status == Submitted ==> v.approved.None?)
    && (v.status == Approved || v.status == Active || v.status == Superseded ==> v.approved.Some?)
    && (v.activated.Some? <==> v.status == Active || v.status == Superseded)
    && (v.rejected.Some? <==> v.status == Rejected)
    && (v.superseded.Some? <==> v.status == Superseded)
  }

  ghost predicate VersionHolds(v: ForecastVersion, next: nat) {
    && Canonical(v.start) && Canonical(v.end) && UpTo(v.start, v.end) && v.start == MonthOf(v.asOf)
    && v.openingUnrestricted >= 0 && v.openingRestricted >= 0
    && Stamped(v)
    && LinesHold(v.lines, v.start, v.end, next)
  }

  ghost predicate EachHolds(s: State) {
    forall i :: 0 <= i < |s.versions| ==> s.versions[i].number == i + 1 && VersionHolds(s.versions[i], s.nextLine)
  }

  ghost predicate OneOpen(s: State) {
    forall i, j :: 0 <= i < j < |s.versions| ==> !(IsOpen(s.versions[i]) && IsOpen(s.versions[j]))
  }

  ghost predicate OneActive(s: State) {
    forall i, j :: 0 <= i < j < |s.versions| ==> !(s.versions[i].status == Active && s.versions[j].status == Active)
  }

  lemma NewLineHolds(v: ForecastVersion, cell: Cell, amount: int, stated: Option<Direction>, next: nat)
    requires LinesHold(v.lines, v.start, v.end, next) && LineVerdict(v, cell, amount, stated) == M.Done
    ensures LinesHold(WithLine(v, cell, amount, DirectionFor(cell.kind, cell.category, stated).value, next).lines,
                      v.start, v.end, next + 1)
  {
    hide IsLeap, DaysIn;
  }

  lemma FewerLinesHold(v: ForecastVersion, line: int, next: nat)
    requires LinesHold(v.lines, v.start, v.end, next) && PlaceOfLine(v.lines, line) < |v.lines|
    ensures LinesHold(WithoutLine(v, line).lines, v.start, v.end, next)
  {
    hide IsLeap, DaysIn, A.ValidLine, CellOf;
  }

  lemma LinesHoldLater(lines: seq<Line>, start: Date, end: Date, next: nat, later: nat)
    requires LinesHold(lines, start, end, next) && next <= later
    ensures LinesHold(lines, start, end, later)
  {
    hide IsLeap, DaysIn, A.ValidLine, CellOf;
  }

  lemma NextLineGrows(s: State, a: Act)
    ensures s.nextLine <= Apply(s, a).nextLine
    ensures a.step.SetLine? && Apply(s, a) != s ==> Apply(s, a).nextLine == s.nextLine + 1
    ensures |Apply(s, a).versions| == |s.versions| + if a.step.Create? && Verdict(s, a) == M.Done then 1 else 0
  {
    hide Ready, SnapshotOf, IsLeap, DaysIn, PlaceOf, PlaceOfLine, MayApprove, LineVerdict, CreateVerdict, DirectionFor,
         WithLine, WithoutLine, Opened, HasOpen;
  }

  lemma VersionHoldsAfter(s: State, a: Act, i: nat)
    requires i < |s.versions| && VersionHolds(s.versions[i], s.nextLine)
    ensures i < |Apply(s, a).versions| && VersionHolds(Apply(s, a).versions[i], Apply(s, a).nextLine)
    ensures Apply(s, a).versions[i].number == s.versions[i].number
  {
    hide Apply, Verdict, Ready, SnapshotOf, LineVerdict, DirectionFor, MayApprove, IsLeap, DaysIn, LinesHold,
         Reconciles, WithLine, WithoutLine, UpTo;
    StepTouches(s, a, i);
    NextLineGrows(s, a);
    var v := s.versions[i];
    LinesHoldLater(v.lines, v.start, v.end, s.nextLine, Apply(s, a).nextLine);
    LinesHoldAfter(s, a, i);
  }

  lemma LinesHoldAfter(s: State, a: Act, i: nat)
    requires i < |s.versions| && LinesHold(s.versions[i].lines, s.versions[i].start, s.versions[i].end, s.nextLine)
    requires i < |Apply(s, a).versions|
    ensures LinesHold(Apply(s, a).versions[i].lines, s.versions[i].start, s.versions[i].end, Apply(s, a).nextLine)
  {
    hide Apply, Verdict, Ready, SnapshotOf, LineVerdict, DirectionFor, MayApprove, IsLeap, DaysIn, LinesHold,
         Reconciles, WithLine, WithoutLine;
    var v := s.versions[i];
    StepTouches(s, a, i);
    NextLineGrows(s, a);
    LinesHoldLater(v.lines, v.start, v.end, s.nextLine, Apply(s, a).nextLine);
    if Apply(s, a).versions[i] != v && a.step.SetLine? {
      SettingTouches(s, a, i);
      NewLineHolds(v, a.step.cell, a.step.amount, a.step.stated, s.nextLine);
    }
    if Apply(s, a).versions[i] != v && a.step.RemoveLine? {
      RemovingTouches(s, a, i);
      FewerLinesHold(v, a.step.line, s.nextLine);
      LinesHoldLater(WithoutLine(v, a.step.line).lines, v.start, v.end, s.nextLine, Apply(s, a).nextLine);
    }
  }

  lemma HighestIsLast(versions: seq<ForecastVersion>)
    requires forall i :: 0 <= i < |versions| ==> versions[i].number == i + 1
    ensures HighestNumber(versions) == |versions|
  {
  }

  lemma CreatedHolds(s: State, a: Act)
    requires EachHolds(s) && a.step.Create? && Verdict(s, a) == M.Done
    ensures var n, s' := |s.versions|, Apply(s, a);
            |s'.versions| == n + 1 && s'.versions[n].number == n + 1 && VersionHolds(s'.versions[n], s'.nextLine)
            && s'.versions[n].status == Draft && !HasOpen(s)
  {
    hide Ready, SnapshotOf, IsLeap, DaysIn, VersionHolds;
    HighestIsLast(s.versions);
    OpenedHolds(s, a);
  }

  lemma OpenedHolds(s: State, a: Act)
    requires a.step.Create? && Verdict(s, a) == M.Done
    ensures VersionHolds(Opened(s, a, a.step.horizon, PositionNamed(a.world, a.step.construction).value, a.step.source),
                         s.nextLine)
  {
    hide SnapshotOf, IsLeap, DaysIn, Reconciles, HighestNumber;
  }

  lemma EachHoldsAfter(s: State, a: Act)
    requires EachHolds(s)
    ensures EachHolds(Apply(s, a))
  {
    hide Apply, Verdict, VersionHolds;
    NextLineGrows(s, a);
    forall i | 0 <= i < |Apply(s, a).versions|
      ensures Apply(s, a).versions[i].number == i + 1 && VersionHolds(Apply(s, a).versions[i], Apply(s, a).nextLine)
    {
      if i < |s.versions| { VersionHoldsAfter(s, a, i); } else { CreatedHolds(s, a); }
    }
  }

  lemma OneOpenAfter(s: State, a: Act)
    requires OneOpen(s) && EachHolds(s)
    ensures OneOpen(Apply(s, a))
  {
    hide Apply, Verdict, EachHolds;
    NextLineGrows(s, a);
    var s' := Apply(s, a);
    forall i, j | 0 <= i < j < |s'.versions| ensures !(IsOpen(s'.versions[i]) && IsOpen(s'.versions[j])) {
      StepKeepsEachVersion(s, a, i);
      if j < |s.versions| { StepKeepsEachVersion(s, a, j); } else { CreatedHolds(s, a); }
    }
  }

  lemma ActivationSupersedes(s: State, a: Act, i: nat)
    requires OneActive(s) && a.step.Activate? && Verdict(s, a) == M.Done && i < |s.versions| && i != a.step.id
    ensures i < |Apply(s, a).versions| && Apply(s, a).versions[i].status != Active
  {
    hide Ready, IsLeap, DaysIn;
    SupersedingKeeps(s, a.now, i);
  }

  lemma OneActiveAfter(s: State, a: Act)
    requires OneActive(s) && EachHolds(s)
    ensures OneActive(Apply(s, a))
  {
    hide Apply, Verdict, EachHolds, OneActive;
    NextLineGrows(s, a);
    var s' := Apply(s, a);
    if a.step.Activate? && Verdict(s, a) == M.Done {
      forall i | 0 <= i < |s'.versions| && i != a.step.id ensures s'.versions[i].status != Active {
        ActivationSupersedes(s, a, i);
      }
      OneIsApart(s', a.step.id);
    } else {
      forall i | 0 <= i < |s'.versions| && s'.versions[i].status == Active
        ensures i < |s.versions| && s.versions[i].status == Active
      {
        NothingElseActivates(s, a, i);
      }
      ActiveApart(s, s');
    }
  }

  lemma OneIsApart(s: State, id: nat)
    requires forall i :: 0 <= i < |s.versions| && i != id ==> s.versions[i].status != Active
    ensures OneActive(s)
  {
  }

  lemma ActiveApart(s: State, s': State)
    requires OneActive(s)
    requires forall i :: 0 <= i < |s'.versions| && s'.versions[i].status == Active ==>
              i < |s.versions| && s.versions[i].status == Active
    ensures OneActive(s')
  {
  }

  lemma RefusedChangesNothing(s: State, a: Act)
    requires Verdict(s, a) != M.Done
    ensures Apply(s, a) == s
  {
    hide Verdict;
  }

  lemma NothingElseActivates(s: State, a: Act, i: nat)
    requires !(a.step.Activate? && Verdict(s, a) == M.Done) && EachHolds(s)
    requires i < |Apply(s, a).versions| && Apply(s, a).versions[i].status == Active
    ensures i < |s.versions| && s.versions[i].status == Active
  {
    hide Apply, Verdict, EachHolds, Ready, WithLine, WithoutLine, LineVerdict, DirectionFor, MayApprove;
    NextLineGrows(s, a);
    if Verdict(s, a) != M.Done { RefusedChangesNothing(s, a); }
    if i < |s.versions| {
      StepTouches(s, a, i);
    } else {
      CreatedHolds(s, a);
    }
  }

  // ---------------------------------------------------------------- runs

  ghost predicate Sound(s: State) {
    EachHolds(s) && OneOpen(s) && OneActive(s)
  }

  lemma EmptyIsSound()
    ensures Sound(EMPTY)
  {
  }

  lemma EveryStepKeepsSound(s: State, a: Act)
    ensures Sound(s) ==> Sound(Apply(s, a))
  {
    hide Apply, EachHolds, OneOpen, OneActive;
    if Sound(s) {
      EachHoldsAfter(s, a);
      OneOpenAfter(s, a);
      OneActiveAfter(s, a);
    }
  }

  /**
   * On every run: numbers count up without gaps, one version at most is open and one in force, and
   * every version carries the stamps of its rung and lines of one cell each, inside its horizon.
   */
  lemma {:induction false} EveryRunIsSound(acts: seq<Act>)
    ensures Sound(Run(acts))
  {
    hide Apply, EachHolds, OneOpen, OneActive;
    EmptyIsSound();
    if acts != [] {
      var n := |acts| - 1;
      var before := Run(acts[..n]);
      EveryRunIsSound(acts[..n]);
      EveryStepKeepsSound(before, acts[n]);
    }
  }

  lemma StampedInRun(s: State, i: nat)
    requires Sound(s) && i < |s.versions|
    ensures Stamped(s.versions[i])
  {
  }

  // ---------------------------------------------------------------- what was proved at each gate

  /** The act of a run that took version `i` over a gate, as its stamp records it, and what that gate saw. */
  ghost predicate TookOver(acts: seq<Act>, n: nat, v: ForecastVersion, step: Step, stamp: Stamp) {
    && n < |acts| && acts[n].step == step && Verdict(Run(acts[..n]), acts[n]) == M.Done
    && stamp == Stamp(acts[n].actor.user, acts[n].now)
    && v.pinned in acts[n].world.positions && Reconciles(v.lines, acts[n].world.positions[v.pinned])
    && (step.Approve? ==> MayApprove(acts[n].actor, v))
  }

  ghost predicate Passed(acts: seq<Act>, v: ForecastVersion, step: Step, stamp: Option<Stamp>) {
    stamp.Some? ==> exists n :: TookOver(acts, n, v, step, stamp.value)
  }

  ghost predicate GatesPassed(acts: seq<Act>, v: ForecastVersion, i: nat) {
    && Passed(acts, v, Submit(i), v.submitted)
    && Passed(acts, v, Approve(i), v.approved)
    && Passed(acts, v, Activate(i), v.activated)
  }

  lemma PassedStays(acts: seq<Act>, v: ForecastVersion, v': ForecastVersion, step: Step, stamp: Option<Stamp>)
    requires acts != [] && Passed(acts[..|acts| - 1], v, step, stamp)
    requires stamp.Some? ==> v'.pinned == v.pinned && v'.lines == v.lines && v'.submitted == v.submitted
    ensures Passed(acts, v', step, stamp)
  {
    hide Reconciles, Verdict, Run;
    if stamp.Some? {
      var m := |acts| - 1;
      var n: nat :| TookOver(acts[..m], n, v, step, stamp.value);
      assert acts[..m][..n] == acts[..n];
      assert TookOver(acts, n, v', step, stamp.value);
    }
  }

  /** A changed stamp is a gate passed by the act that changed it. */
  lemma StampedByItsGate(s: State, a: Act, i: nat)
    requires i < |s.versions| && Stamped(s.versions[i])
    ensures var v, v' := s.versions[i], Apply(s, a).versions[i];
            var stamp := Some(Stamp(a.actor.user, a.now));
            && v'.pinned == v.pinned
            && (v.status != Draft ==> v'.lines == v.lines && v'.submitted == v.submitted)
            && (v'.submitted != v.submitted ==> v'.lines == v.lines && v'.submitted == stamp && a.step == Submit(i))
            && (v'.approved != v.approved ==>
                  v'.approved == stamp && MayApprove(a.actor, v) && a.step == Approve(i) && v.status == Submitted)
            && (v'.activated != v.activated ==> v'.activated == stamp && a.step == Activate(i) && v.status == Approved)
            && (v'.submitted != v.submitted || v'.approved != v.approved || v'.activated != v.activated ==>
                  Ready(v, a.world) && Verdict(s, a) == M.Done)
  {
    hide Apply, Verdict, Ready, MayApprove, SnapshotOf, IsLeap, DaysIn;
    StepTouches(s, a, i);
    if Verdict(s, a) != M.Done { RefusedChangesNothing(s, a); }
  }

  /**
   * On every run, each stamp a version carries was given by an accepted act whose reading of the
   * pinned construction forecast the version's lines, as they still are, reconcile to exactly.
   */
  lemma {:induction false} EveryGateReconciled(acts: seq<Act>, i: nat)
    requires i < |Run(acts).versions|
    ensures GatesPassed(acts, Run(acts).versions[i], i)
  {
    hide Apply, Verdict, EachHolds, OneOpen, OneActive, Ready, Passed, MayApprove, Stamped;
    if acts != [] {
      var n := |acts| - 1;
      var before := Run(acts[..n]);
      EveryRunIsSound(acts[..n]);
      EveryRunIsSound(acts);
      NextLineGrows(before, acts[n]);
      StampedInRun(Run(acts), i);
      if i < |before.versions| {
        EveryGateReconciled(acts[..n], i);
        StampedInRun(before, i);
        GatesStillPassed(acts, before.versions[i], Run(acts).versions[i], i);
      } else {
        CreatedHolds(before, acts[n]);
        NoGateYet(acts, Run(acts).versions[i], i);
      }
    }
  }

  lemma NoGateYet(acts: seq<Act>, v: ForecastVersion, i: nat)
    requires v.status == Draft && Stamped(v)
    ensures GatesPassed(acts, v, i)
  {
  }

  lemma GatesStillPassed(acts: seq<Act>, v: ForecastVersion, v': ForecastVersion, i: nat)
    requires acts != [] && i < |Run(acts[..|acts| - 1]).versions| && v == Run(acts[..|acts| - 1]).versions[i]
    requires i < |Run(acts).versions| && v' == Run(acts).versions[i]
    requires Stamped(v) && Stamped(v') && GatesPassed(acts[..|acts| - 1], v, i)
    ensures GatesPassed(acts, v', i)
  {
    hide Apply, Verdict, Ready, Passed, MayApprove;
    var n := |acts| - 1;
    StampedByItsGate(Run(acts[..n]), acts[n], i);
    if v'.submitted == v.submitted {
      PassedStays(acts, v, v', Submit(i), v.submitted);
    } else {
      GatePasses(acts, v, v', Submit(i));
    }
    if v'.approved == v.approved {
      PassedStays(acts, v, v', Approve(i), v.approved);
    } else {
      GatePasses(acts, v, v', Approve(i));
    }
    if v'.activated == v.activated {
      PassedStays(acts, v, v', Activate(i), v.activated);
    } else {
      GatePasses(acts, v, v', Activate(i));
    }
  }

  lemma GatePasses(acts: seq<Act>, v: ForecastVersion, v': ForecastVersion, step: Step)
    requires acts != []
    requires var n := |acts| - 1;
             && acts[n].step == step && Verdict(Run(acts[..n]), acts[n]) == M.Done && Ready(v, acts[n].world)
             && v'.lines == v.lines && v'.pinned == v.pinned
             && (step.Approve? ==> v'.submitted == v.submitted && MayApprove(acts[n].actor, v))
    ensures Passed(acts, v', step, Some(Stamp(acts[|acts| - 1].actor.user, acts[|acts| - 1].now)))
  {
    hide Reconciles, Verdict, Run;
    assert TookOver(acts, |acts| - 1, v', step, Stamp(acts[|acts| - 1].actor.user, acts[|acts| - 1].now));
  }

  /** On every run, a version approved by its own submitter was approved by them as master administrator. */
  lemma ApprovalsAreIndependent(acts: seq<Act>, i: nat)
    requires i < |Run(acts).versions|
    requires Run(acts).versions[i].approved.Some? && Run(acts).versions[i].submitted.Some?
    ensures var v := Run(acts).versions[i];
            || v.approved.value.user != v.submitted.value.user
            || exists n ::
                 && 0 <= n < |acts| && acts[n].step == Approve(i) && Verdict(Run(acts[..n]), acts[n]) == M.Done
                 && acts[n].actor == M.Actor(v.submitted.value.user, true)
  {
    hide Run, Verdict, Reconciles;
    EveryGateReconciled(acts, i);
    var v := Run(acts).versions[i];
    var n: nat :| TookOver(acts, n, v, Approve(i), v.approved.value);
  }

  /**
   * Whatever is in force still reconciles to its pin, read at any later time, exactly where that
   * reading has not moved from the one seen by the accepted act that activated it.
   */
  lemma InForceReconcilesExactlyWhen(acts: seq<Act>, i: nat, now: map<int, int>)
    requires i < |Run(acts).versions| && Run(acts).versions[i].activated.Some?
    ensures var v := Run(acts).versions[i];
            exists n: nat ::
              && TookOver(acts, n, v, Activate(i), v.activated.value)
              && (Reconciles(v.lines, now) <==> Unmoved(v.lines, acts[n].world.positions[v.pinned], now))
  {
    hide Run, Verdict, Reconciles, Unmoved;
    EveryGateReconciled(acts, i);
    var v := Run(acts).versions[i];
    var n: nat :| TookOver(acts, n, v, Activate(i), v.activated.value);
    ReadingMayMove(v.lines, acts[n].world.positions[v.pinned], now);
  }

  // ---------------------------------------------------------------- the slot is never lost

  /** The one step that closes an open version: its preparer's while a draft, an approver's after. */
  function Closing(v: ForecastVersion, id: nat): Step { if v.status == Draft then Discard(id) else Reject(id) }

  /** Whatever has happened to the sources, one step by anyone but the submitter frees the open slot. */
  lemma OneStepFreesTheSlot(s: State, id: nat, actor: Actor, now: Instant, world: World)
    requires Sound(s) && id < |s.versions| && IsOpen(s.versions[id])
    requires s.versions[id].status == Draft || MayApprove(actor, s.versions[id])
    ensures var a := Act(actor, now, world, Closing(s.versions[id], id));
            && Verdict(s, a) == M.Done
            && !HasOpen(Apply(s, a))
            && Apply(s, a).versions[id].lines == s.versions[id].lines
                  && Apply(s, a).versions[id].snapshot == s.versions[id].snapshot
            && Apply(s, a).versions[id].approved == s.versions[id].approved
  {
    hide EachHolds, OneActive, Ready;
  }

  /** And once it is free, a well-formed forecast over a costed build is accepted. */
  lemma AFreeSlotTakesANewForecast(s: State, a: Act)
    requires !HasOpen(s) && a.step.Create? && a.step.source.None?
    requires UpTo(a.step.horizon.asOf, a.world.today) && MonthOf(a.step.horizon.start) == MonthOf(a.step.horizon.asOf)
    requires UpTo(MonthOf(a.step.horizon.start), MonthOf(a.step.horizon.end))
    requires a.step.horizon.openingUnrestricted >= 0 && a.step.horizon.openingRestricted >= 0
    requires PositionNamed(a.world, a.step.construction).Some?
    ensures Verdict(s, a) == M.Done && HasOpen(Apply(s, a))
    ensures a.step.construction.None? ==> !ConstructionIsStale(Apply(s, a).versions[|s.versions|], a.world)
  {
    hide SnapshotOf, IsLeap, DaysIn;
    assert IsOpen(Apply(s, a).versions[|s.versions|]);
  }

  // ---------------------------------------------------------------- what the reports may rely on

  function AsModel(v: ForecastVersion): Version {
    Version(v.asOf, v.start, v.end, v.openingUnrestricted, v.openingRestricted)
  }

  /** A version of any run is one that the projections accept, lines and bounds alike. */
  lemma VersionsSuitTheReports(acts: seq<Act>, id: nat)
    requires id < |Run(acts).versions|
    ensures var v := Run(acts).versions[id];
            && Bridge.CanonicalBounds(Some(AsModel(v)))
            && OpeningTotal(Some(AsModel(v))) == v.openingUnrestricted + v.openingRestricted
            && OpeningRestricted(Some(AsModel(v))) == v.openingRestricted
            && OpeningAnchor(Some(AsModel(v))) == Some(v.start)
            && v.openingUnrestricted >= 0 && v.openingRestricted >= 0
            && UpTo(v.start, v.end)
            && DistinctLines(v.lines) && NonNegativeLines(v.lines)
            && (forall j :: 0 <= j < |v.lines| ==> A.ValidLine(v.lines[j]))
            && (forall asOf :: UpTo(v.asOf, asOf) ==> AtOrAfter(MonthOf(asOf), OpeningAnchor(Some(AsModel(v)))))
  {
    hide IsLeap, DaysIn, Reconciles, Apply;
    EveryRunIsSound(acts);
    var v := Run(acts).versions[id];
    forall asOf | UpTo(v.asOf, asOf) ensures UpTo(v.start, MonthOf(asOf)) { MonthsOrderDates(v.asOf, asOf); }
  }
}
