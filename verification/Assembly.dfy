/** Composing the typed sources into the one list of rows every report reads. */
module Assembly {
  import opened Calendar
  import opened Amounts
  import opened Standing
  import opened Sums
  import opened CashModel
  import opened UnappliedOffset
  import FM = ForecastMatching

  datatype CashRow = CashRow(id: int, business: Date, amount: int)

  datatype PaymentRow = PaymentRow(id: int, business: Date, amount: int, byCostCode: map<int, int>, unattributed: int)

  datatype DevelopmentRow = DevelopmentRow(id: int, date: Date, kind: DevelopmentKind, phase: Option<int>, amount: int)

  datatype FinancingRow = FinancingRow(id: int, date: Date, kind: FinancingKind, direction: Direction, amount: int)

  /** A standing restriction with the date of the receipt it holds. */
  datatype HeldRow = HeldRow(id: int, receiptDate: Date, amount: int)

  datatype FreedRow = FreedRow(id: int, date: Date, amount: int)

  datatype Sources = Sources(
    receipts: seq<CashRow>, refunds: seq<CashRow>, payments: seq<PaymentRow>,
    development: seq<DevelopmentRow>, financing: seq<FinancingRow>,
    restrictions: seq<HeldRow>, releases: seq<FreedRow>)

  datatype Plan = Plan(snapshot: seq<Instalment>, lines: seq<FM.Line>, unapplied: map<int, int>,
                       remainders: map<int, int>)

  // ---------------------------------------------------------------- one row each

  const ReceiptRow: CashRow -> SourceRow := (r: CashRow) =>
    SourceRow(ReceiptSource, r.id, MonthOf(r.business), r.business, r.amount, Inflow, CustomerCollection, Actual, false)
  const RefundRow: CashRow -> SourceRow := (r: CashRow) =>
    SourceRow(RefundSource, r.id, MonthOf(r.business), r.business, r.amount, Outflow, CustomerCollection, Actual, false)
  const PaymentOut: PaymentRow -> SourceRow := (r: PaymentRow) =>
    SourceRow(ConstructionPaymentSource, r.id, MonthOf(r.business), r.business, r.amount, Outflow, Construction, Actual,
              false)
  const DevelopmentOut: DevelopmentRow -> SourceRow := (r: DevelopmentRow) =>
    SourceRow(DevelopmentMovementSource, r.id, MonthOf(r.date), r.date, r.amount, Outflow, Development(r.kind), Actual,
              false)
  const FinancingMove: FinancingRow -> SourceRow := (r: FinancingRow) =>
    SourceRow(FinancingMovementSource, r.id, MonthOf(r.date), r.date, r.amount, r.direction, Financing(r.kind), Actual,
              false)
  const HeldCash: HeldRow -> SourceRow := (r: HeldRow) =>
    SourceRow(RestrictionSource, r.id, MonthOf(r.receiptDate), r.receiptDate, r.amount, Inflow, RestrictionHeld, Actual,
              false)
  const FreedCash: FreedRow -> SourceRow := (r: FreedRow) =>
    SourceRow(ReleaseSource, r.id, MonthOf(r.date), r.date, r.amount, Outflow, ReleaseFreed, Actual, false)

  function InstalmentRow(r: Instalment, amount: int, basis: Basis): SourceRow {
    SourceRow(ScheduleSource, r.id, MonthOf(r.chosen), r.chosen, amount, Inflow, CustomerCollection, basis, false)
  }

  function LineRow(line: FM.Line, amount: int): SourceRow {
    SourceRow(ForecastLineSource, line.id, line.period, line.period, amount, line.direction, line.category, Forecast,
              true)
  }

  // ---------------------------------------------------------------- all of them

  function Mapped<T>(s: seq<T>, f: T -> SourceRow): seq<SourceRow> {
    if s == [] then [] else Mapped(s[..|s| - 1], f) + [f(s[|s| - 1])]
  }

  function ActualRows(s: Sources): seq<SourceRow> {
    Mapped(s.receipts, ReceiptRow) + Mapped(s.refunds, RefundRow) + Mapped(s.payments, PaymentOut)
    + Mapped(s.development, DevelopmentOut) + Mapped(s.financing, FinancingMove)
    + Mapped(s.restrictions, HeldCash) + Mapped(s.releases, FreedCash)
  }

  function GetOr(m: map<int, int>, key: int, default: int): int { if key in m then m[key] else default }

  /** Each instalment as the contract states it, and again as what is still expected of it. */
  function ScheduleRows(snapshot: seq<Instalment>, adjusted: map<int, int>): seq<SourceRow> {
    if snapshot == [] then []
    else
      var r := snapshot[|snapshot| - 1];
      var expected := GetOr(adjusted, r.id, r.amount);
      ScheduleRows(snapshot[..|snapshot| - 1], adjusted)
      + [InstalmentRow(r, r.amount, Scheduled)] + (if expected > 0 then [InstalmentRow(r, expected, Forecast)] else [])
  }

  function LineRows(lines: seq<FM.Line>, remainders: map<int, int>): seq<SourceRow> {
    if lines == [] then []
    else
      var line := lines[|lines| - 1];
      var remaining := GetOr(remainders, line.id, line.amount);
      LineRows(lines[..|lines| - 1], remainders) + (if remaining <= 0 then [] else [LineRow(line, remaining)])
  }

  // ---------------------------------------------------------------- what the tables guarantee

  predicate ValidLine(line: FM.Line) {
    && Canonical(line.period) && line.amount >= 0
    && match line.kind
       case ConstructionPlanKind => line.category == Construction && line.costCode.Some? && line.direction == Outflow
       case DevelopmentPlanKind => line.category.Development? && line.costCode.None? && line.direction == Outflow
       case UnsoldCustomerKind => line.category == CustomerCollection && line.costCode.None? && line.direction == Inflow
       case FinancingPlanKind => line.category.Financing? && line.costCode.None?
  }

  ghost predicate ValidSources(s: Sources) {
    && (forall i :: 0 <= i < |s.receipts| ==> s.receipts[i].amount >= 0)
    && (forall i :: 0 <= i < |s.refunds| ==> s.refunds[i].amount >= 0)
    && (forall i :: 0 <= i < |s.payments| ==> s.payments[i].amount >= 0)
    && (forall i :: 0 <= i < |s.development| ==> s.development[i].amount >= 0)
    && (forall i :: 0 <= i < |s.financing| ==> s.financing[i].amount >= 0)
    && (forall i :: 0 <= i < |s.restrictions| ==> s.restrictions[i].amount >= 0)
    && (forall i :: 0 <= i < |s.releases| ==> s.releases[i].amount >= 0)
  }

  ghost predicate ValidPlan(p: Plan) {
    DistinctIds(p.snapshot) && NonNegative(p.snapshot) && forall i :: 0 <= i < |p.lines| ==> ValidLine(p.lines[i])
  }

  lemma {:induction false} MappedWellFormed<T>(s: seq<T>, f: T -> SourceRow)
    requires forall i :: 0 <= i < |s| ==> WellFormed(f(s[i]))
    ensures AllWellFormed(Mapped(s, f))
  {
    if s != [] { MappedWellFormed(s[..|s| - 1], f); }
  }

  lemma WellFormedTogether(a: seq<SourceRow>, b: seq<SourceRow>)
    requires AllWellFormed(a) && AllWellFormed(b)
    ensures AllWellFormed(a + b)
  {
    hide WellFormed;
  }

  lemma EachSourceWellFormed(s: Sources)
    requires ValidSources(s)
    ensures AllWellFormed(Mapped(s.receipts, ReceiptRow)) && AllWellFormed(Mapped(s.refunds, RefundRow))
    ensures AllWellFormed(Mapped(s.payments, PaymentOut)) && AllWellFormed(Mapped(s.development, DevelopmentOut))
    ensures AllWellFormed(Mapped(s.financing, FinancingMove)) && AllWellFormed(Mapped(s.restrictions, HeldCash))
    ensures AllWellFormed(Mapped(s.releases, FreedCash))
  {
    hide AllWellFormed, Mapped, IsLeap, DaysIn;
    MappedWellFormed(s.receipts, ReceiptRow);
    MappedWellFormed(s.refunds, RefundRow);
    MappedWellFormed(s.payments, PaymentOut);
    MappedWellFormed(s.development, DevelopmentOut);
    MappedWellFormed(s.financing, FinancingMove);
    MappedWellFormed(s.restrictions, HeldCash);
    MappedWellFormed(s.releases, FreedCash);
  }

  lemma ActualRowsWellFormed(s: Sources)
    requires ValidSources(s)
    ensures AllWellFormed(ActualRows(s))
  {
    hide AllWellFormed, Mapped, ValidSources;
    EachSourceWellFormed(s);
    var a := Mapped(s.receipts, ReceiptRow) + Mapped(s.refunds, RefundRow);
    WellFormedTogether(Mapped(s.receipts, ReceiptRow), Mapped(s.refunds, RefundRow));
    WellFormedTogether(a, Mapped(s.payments, PaymentOut));
    var b := a + Mapped(s.payments, PaymentOut);
    WellFormedTogether(b, Mapped(s.development, DevelopmentOut));
    var c := b + Mapped(s.development, DevelopmentOut);
    WellFormedTogether(c, Mapped(s.financing, FinancingMove));
    var d := c + Mapped(s.financing, FinancingMove);
    WellFormedTogether(d, Mapped(s.restrictions, HeldCash));
    WellFormedTogether(d + Mapped(s.restrictions, HeldCash), Mapped(s.releases, FreedCash));
  }

  lemma {:induction false} ScheduleRowsWellFormed(snapshot: seq<Instalment>, adjusted: map<int, int>)
    requires forall i :: 0 <= i < |snapshot| ==> snapshot[i].amount >= 0
    ensures AllWellFormed(ScheduleRows(snapshot, adjusted))
  {
    if snapshot != [] { ScheduleRowsWellFormed(snapshot[..|snapshot| - 1], adjusted); }
  }

  lemma {:induction false} LineRowsWellFormed(lines: seq<FM.Line>, remainders: map<int, int>)
    requires forall i :: 0 <= i < |lines| ==> ValidLine(lines[i])
    ensures AllWellFormed(LineRows(lines, remainders))
  {
    if lines != [] { LineRowsWellFormed(lines[..|lines| - 1], remainders); }
  }

  // ---------------------------------------------------------------- what the rows carry, record by record

  function RowsFrom(source: SourceType, id: int): SourceRow -> int {
    (row: SourceRow) => if row.source == source && row.id == id then row.amount else 0
  }

  /** Rows of a source that have happened on a day: its cash, the way it went, in the month of that day. */
  function EntriesOn(source: SourceType, category: Category, direction: Direction, day: Date): SourceRow -> int {
    (row: SourceRow) =>
      if && row.source == source && row.category == category && row.direction == direction
         && row.business == day && row.period == MonthOf(day) && row.basis == Actual && !row.monthGrain
      then row.amount else 0
  }

  /** Instalments of the schedule as a basis states them, each on its own day. */
  function Instalments(id: int, basis: Basis, day: Date): SourceRow -> int {
    (row: SourceRow) =>
      if && row.source == ScheduleSource && row.category == CustomerCollection && row.direction == Inflow
         && row.business == day && row.period == MonthOf(day) && row.basis == basis && !row.monthGrain && row.id == id
      then row.amount else 0
  }

  function PlannedFor(id: int, month: Date, category: Category, direction: Direction): SourceRow -> int {
    (row: SourceRow) =>
      if && row.source == ForecastLineSource && row.category == category && row.direction == direction
         && row.business == month && row.period == month && row.basis == Forecast && row.monthGrain && row.id == id
      then row.amount else 0
  }

  function FromSource(source: SourceType): SourceRow -> int {
    (row: SourceRow) => if row.source == source then row.amount else 0
  }

  function CashOn(day: Date): CashRow -> int { (r: CashRow) => if r.business == day then r.amount else 0 }
  function PaidOn(day: Date): PaymentRow -> int { (r: PaymentRow) => if r.business == day then r.amount else 0 }
  function HeldOn(day: Date): HeldRow -> int { (r: HeldRow) => if r.receiptDate == day then r.amount else 0 }
  function FreedOn(day: Date): FreedRow -> int { (r: FreedRow) => if r.date == day then r.amount else 0 }

  function SpentOn(kind: DevelopmentKind, day: Date): DevelopmentRow -> int {
    (r: DevelopmentRow) => if r.kind == kind && r.date == day then r.amount else 0
  }

  function MovedOn(kind: FinancingKind, direction: Direction, day: Date): FinancingRow -> int {
    (r: FinancingRow) => if r.kind == kind && r.direction == direction && r.date == day then r.amount else 0
  }

  function StatedOn(id: int, day: Date): Instalment -> int {
    (r: Instalment) => if r.id == id && r.chosen == day then r.amount else 0
  }

  /** What the offset leaves of an instalment. */
  function ExpectedOn(id: int, day: Date, adjusted: map<int, int>): Instalment -> int {
    (r: Instalment) => if r.id == id && r.chosen == day && r.id in adjusted then Max0(adjusted[r.id]) else 0
  }

  /** What is left of a line: its remainder, or its amount where it has none. */
  function LeftOf(line: FM.Line, remainders: map<int, int>): int {
    Max0(if line.id in remainders then remainders[line.id] else line.amount)
  }

  function LeftFor(id: int, month: Date, category: Category, direction: Direction, remainders: map<int, int>)
    : FM.Line -> int
  {
    (line: FM.Line) =>
      if line.id == id && line.period == month && line.category == category && line.direction == direction
      then LeftOf(line, remainders) else 0
  }

  function LeftOfLine(id: int, remainders: map<int, int>): FM.Line -> int {
    (line: FM.Line) => if line.id == id then LeftOf(line, remainders) else 0
  }

  /** Of each source, on each day, the rows total the records. */
  ghost predicate CarryTheRecords(rows: seq<SourceRow>, s: Sources) {
    && (forall day: Date {:trigger CashOn(day)} ::
          && Sum(rows, EntriesOn(ReceiptSource, CustomerCollection, Inflow, day)) == Sum(s.receipts, CashOn(day))
          && Sum(rows, EntriesOn(RefundSource, CustomerCollection, Outflow, day)) == Sum(s.refunds, CashOn(day)))
    && (forall day: Date ::
          Sum(rows, EntriesOn(ConstructionPaymentSource, Construction, Outflow, day)) == Sum(s.payments, PaidOn(day)))
    && (forall kind, day: Date ::
          Sum(rows, EntriesOn(DevelopmentMovementSource, Development(kind), Outflow, day))
          == Sum(s.development, SpentOn(kind, day)))
    && (forall kind, direction, day: Date ::
          Sum(rows, EntriesOn(FinancingMovementSource, Financing(kind), direction, day))
          == Sum(s.financing, MovedOn(kind, direction, day)))
    && (forall day: Date ::
          Sum(rows, EntriesOn(RestrictionSource, RestrictionHeld, Inflow, day)) == Sum(s.restrictions, HeldOn(day)))
    && (forall day: Date ::
          Sum(rows, EntriesOn(ReleaseSource, ReleaseFreed, Outflow, day)) == Sum(s.releases, FreedOn(day)))
  }

  /** And no source carries anything else. */
  ghost predicate CarryNoMore(rows: seq<SourceRow>, s: Sources) {
    && Sum(rows, FromSource(ReceiptSource)) == Sum(s.receipts, CashAmount)
    && Sum(rows, FromSource(RefundSource)) == Sum(s.refunds, CashAmount)
    && Sum(rows, FromSource(ConstructionPaymentSource)) == Sum(s.payments, PaymentAmount)
    && Sum(rows, FromSource(DevelopmentMovementSource)) == Sum(s.development, SpentAmount)
    && Sum(rows, FromSource(FinancingMovementSource)) == Sum(s.financing, MovedAmount)
    && Sum(rows, FromSource(RestrictionSource)) == Sum(s.restrictions, HeldAmount)
    && Sum(rows, FromSource(ReleaseSource)) == Sum(s.releases, FreedAmount)
  }

  const CashAmount: CashRow -> int := (r: CashRow) => r.amount
  const PaymentAmount: PaymentRow -> int := (r: PaymentRow) => r.amount
  const SpentAmount: DevelopmentRow -> int := (r: DevelopmentRow) => r.amount
  const MovedAmount: FinancingRow -> int := (r: FinancingRow) => r.amount
  const HeldAmount: HeldRow -> int := (r: HeldRow) => r.amount
  const FreedAmount: FreedRow -> int := (r: FreedRow) => r.amount

  /** Each instalment twice: as it is due, and as what the offset still expects of it. */
  ghost predicate CarryTheSchedule(rows: seq<SourceRow>, snapshot: seq<Instalment>, adjusted: map<int, int>) {
    forall id, day: Date ::
      && Sum(rows, Instalments(id, Scheduled, day)) == Sum(snapshot, StatedOn(id, day))
      && Sum(rows, Instalments(id, Forecast, day)) == Sum(snapshot, ExpectedOn(id, day, adjusted))
  }

  /** Each line as what is left of it, in its month and its category, the way its cash goes, and nowhere else. */
  ghost predicate CarryTheLines(rows: seq<SourceRow>, lines: seq<FM.Line>, remainders: map<int, int>) {
    && (forall id, month: Date, category, direction ::
          Sum(rows, PlannedFor(id, month, category, direction))
          == Sum(lines, LeftFor(id, month, category, direction, remainders)))
    && (forall id :: Sum(rows, RowsFrom(ForecastLineSource, id)) == Sum(lines, LeftOfLine(id, remainders)))
  }

  // ---------------------------------------------------------------- what each loop adds

  lemma {:induction false} MappedTotal<T>(s: seq<T>, f: T -> SourceRow, g: SourceRow -> int, h: T -> int)
    requires forall x :: x in s ==> g(f(x)) == h(x)
    ensures Sum(Mapped(s, f), g) == Sum(s, h)
  {
    if s != [] {
      var n := |s| - 1;
      assert s == s[..n] + [s[n]];
      MappedTotal(s[..n], f, g, h);
      SumSnoc(Mapped(s[..n], f), f(s[n]), g);
    }
  }

  lemma {:induction false} ScheduleTotal(snapshot: seq<Instalment>, adjusted: map<int, int>, g: SourceRow -> int,
          h: Instalment -> int)
    requires forall r :: r in snapshot ==>
               var expected := GetOr(adjusted, r.id, r.amount);
               h(r) == g(InstalmentRow(r, r.amount, Scheduled))
                       + (if expected > 0 then g(InstalmentRow(r, expected, Forecast)) else 0)
    ensures Sum(ScheduleRows(snapshot, adjusted), g) == Sum(snapshot, h)
  {
    if snapshot != [] {
      var n := |snapshot| - 1;
      assert snapshot == snapshot[..n] + [snapshot[n]];
      ScheduleTotal(snapshot[..n], adjusted, g, h);
      var r, before := snapshot[n], ScheduleRows(snapshot[..n], adjusted);
      var scheduled := InstalmentRow(r, r.amount, Scheduled);
      SumSnoc(before, scheduled, g);
      SumSnoc(before + [scheduled], InstalmentRow(r, GetOr(adjusted, r.id, r.amount), Forecast), g);
      assert before + [scheduled] + [] == before + [scheduled];
    }
  }

  lemma {:induction false} LineTotal(lines: seq<FM.Line>, remainders: map<int, int>, g: SourceRow -> int,
          h: FM.Line -> int)
    requires forall line :: line in lines ==>
               var remaining := GetOr(remainders, line.id, line.amount);
               h(line) == if remaining > 0 then g(LineRow(line, remaining)) else 0
    ensures Sum(LineRows(lines, remainders), g) == Sum(lines, h)
  {
    if lines != [] {
      var n := |lines| - 1;
      assert lines == lines[..n] + [lines[n]];
      LineTotal(lines[..n], remainders, g, h);
      var line, before := lines[n], LineRows(lines[..n], remainders);
      SumSnoc(before, LineRow(line, GetOr(remainders, line.id, line.amount)), g);
      assert before + [] == before;
    }
  }

  const NoCash: CashRow -> int := (r: CashRow) => 0
  const NoPayment: PaymentRow -> int := (r: PaymentRow) => 0
  const NothingSpent: DevelopmentRow -> int := (r: DevelopmentRow) => 0
  const NothingMoved: FinancingRow -> int := (r: FinancingRow) => 0
  const NothingHeld: HeldRow -> int := (r: HeldRow) => 0
  const NothingFreed: FreedRow -> int := (r: FreedRow) => 0

  /** What each source is to be counted as. */
  datatype Reading = Reading(
    receipts: CashRow -> int, refunds: CashRow -> int, payments: PaymentRow -> int, development: DevelopmentRow -> int,
    financing: FinancingRow -> int, restrictions: HeldRow -> int, releases: FreedRow -> int)

  const Nothing := Reading(NoCash, NoCash, NoPayment, NothingSpent, NothingMoved, NothingHeld, NothingFreed)

  function ReadAs(s: Sources, reading: Reading): int {
    Sum(s.receipts, reading.receipts) + Sum(s.refunds, reading.refunds) + Sum(s.payments, reading.payments)
    + Sum(s.development, reading.development) + Sum(s.financing, reading.financing)
    + Sum(s.restrictions, reading.restrictions) + Sum(s.releases, reading.releases)
  }

  ghost predicate Reads(g: SourceRow -> int, reading: Reading) {
    && (forall r :: g(ReceiptRow(r)) == reading.receipts(r))
    && (forall r :: g(RefundRow(r)) == reading.refunds(r))
    && (forall r :: g(PaymentOut(r)) == reading.payments(r))
    && (forall r :: g(DevelopmentOut(r)) == reading.development(r))
    && (forall r :: g(FinancingMove(r)) == reading.financing(r))
    && (forall r :: g(HeldCash(r)) == reading.restrictions(r))
    && (forall r :: g(FreedCash(r)) == reading.releases(r))
  }

  lemma ActualTotal(s: Sources, g: SourceRow -> int, reading: Reading)
    requires Reads(g, reading)
    ensures Sum(ActualRows(s), g) == ReadAs(s, reading)
  {
    hide Sum, Mapped;
    MappedTotal(s.receipts, ReceiptRow, g, reading.receipts);
    MappedTotal(s.refunds, RefundRow, g, reading.refunds);
    MappedTotal(s.payments, PaymentOut, g, reading.payments);
    MappedTotal(s.development, DevelopmentOut, g, reading.development);
    MappedTotal(s.financing, FinancingMove, g, reading.financing);
    MappedTotal(s.restrictions, HeldCash, g, reading.restrictions);
    MappedTotal(s.releases, FreedCash, g, reading.releases);
    var a := Mapped(s.receipts, ReceiptRow) + Mapped(s.refunds, RefundRow);
    SumAppend(Mapped(s.receipts, ReceiptRow), Mapped(s.refunds, RefundRow), g);
    SumAppend(a, Mapped(s.payments, PaymentOut), g);
    var b := a + Mapped(s.payments, PaymentOut);
    SumAppend(b, Mapped(s.development, DevelopmentOut), g);
    var c := b + Mapped(s.development, DevelopmentOut);
    SumAppend(c, Mapped(s.financing, FinancingMove), g);
    var d := c + Mapped(s.financing, FinancingMove);
    SumAppend(d, Mapped(s.restrictions, HeldCash), g);
    SumAppend(d + Mapped(s.restrictions, HeldCash), Mapped(s.releases, FreedCash), g);
  }

  lemma NothingReads(s: Sources)
    ensures Sum(s.receipts, NoCash) == 0 && Sum(s.refunds, NoCash) == 0 && Sum(s.payments, NoPayment) == 0
    ensures Sum(s.development, NothingSpent) == 0 && Sum(s.financing, NothingMoved) == 0
    ensures Sum(s.restrictions, NothingHeld) == 0 && Sum(s.releases, NothingFreed) == 0
  {
    hide Sum;
    SumZero(s.receipts, NoCash);
    SumZero(s.refunds, NoCash);
    SumZero(s.payments, NoPayment);
    SumZero(s.development, NothingSpent);
    SumZero(s.financing, NothingMoved);
    SumZero(s.restrictions, NothingHeld);
    SumZero(s.releases, NothingFreed);
  }

  function Composed(s: Sources, snapshot: seq<Instalment>, adjusted: map<int, int>, lines: seq<FM.Line>,
          remainders: map<int, int>): seq<SourceRow>
  {
    ActualRows(s) + ScheduleRows(snapshot, adjusted) + LineRows(lines, remainders)
  }

  const NoInstalment: Instalment -> int := (r: Instalment) => 0
  const NoLine: FM.Line -> int := (line: FM.Line) => 0

  lemma ComposedTotal(s: Sources, snapshot: seq<Instalment>, adjusted: map<int, int>, lines: seq<FM.Line>,
          remainders: map<int, int>, g: SourceRow -> int)
    ensures Sum(Composed(s, snapshot, adjusted, lines, remainders), g)
            == Sum(ActualRows(s), g) + Sum(ScheduleRows(snapshot, adjusted), g) + Sum(LineRows(lines, remainders), g)
  {
    hide Sum, ActualRows, ScheduleRows, LineRows;
    SumAppend(ActualRows(s), ScheduleRows(snapshot, adjusted), g);
    SumAppend(ActualRows(s) + ScheduleRows(snapshot, adjusted), LineRows(lines, remainders), g);
  }

  ghost predicate OnlyActual(g: SourceRow -> int) {
    forall row: SourceRow :: row.source == ScheduleSource || row.source == ForecastLineSource ==> g(row) == 0
  }

  /** A count of what has happened finds only the sources in the rows. */
  ghost predicate OverSources(rows: seq<SourceRow>, s: Sources) {
    forall g: SourceRow -> int | OnlyActual(g) :: Sum(rows, g) == Sum(ActualRows(s), g)
  }

  lemma ComposedOverSources(s: Sources, snapshot: seq<Instalment>, adjusted: map<int, int>, lines: seq<FM.Line>,
          remainders: map<int, int>)
    ensures OverSources(Composed(s, snapshot, adjusted, lines, remainders), s)
  {
    hide Sum, Composed, ActualRows, ScheduleRows, LineRows;
    var rows := Composed(s, snapshot, adjusted, lines, remainders);
    forall g: SourceRow -> int | OnlyActual(g) ensures Sum(rows, g) == Sum(ActualRows(s), g) {
      ComposedTotal(s, snapshot, adjusted, lines, remainders, g);
      ScheduleTotal(snapshot, adjusted, g, NoInstalment);
      SumZero(snapshot, NoInstalment);
      LineTotal(lines, remainders, g, NoLine);
      SumZero(lines, NoLine);
    }
  }

  lemma ReadOff(rows: seq<SourceRow>, s: Sources, g: SourceRow -> int, reading: Reading)
    requires OverSources(rows, s) && Reads(g, reading) && OnlyActual(g)
    ensures Sum(rows, g) == ReadAs(s, reading)
  {
    hide Sum, ActualRows, ReadAs, Reads;
    ActualTotal(s, g, reading);
  }

  lemma ReceiptsAreCarried(rows: seq<SourceRow>, s: Sources, day: Date)
    requires OverSources(rows, s)
    ensures Sum(rows, EntriesOn(ReceiptSource, CustomerCollection, Inflow, day)) == Sum(s.receipts, CashOn(day))
  {
    hide Sum, IsLeap, DaysIn, OverSources;
    NothingReads(s);
    ReadOff(rows, s, EntriesOn(ReceiptSource, CustomerCollection, Inflow, day), Nothing.(receipts := CashOn(day)));
  }

  lemma RefundsAreCarried(rows: seq<SourceRow>, s: Sources, day: Date)
    requires OverSources(rows, s)
    ensures Sum(rows, EntriesOn(RefundSource, CustomerCollection, Outflow, day)) == Sum(s.refunds, CashOn(day))
  {
    hide Sum, IsLeap, DaysIn, OverSources;
    NothingReads(s);
    ReadOff(rows, s, EntriesOn(RefundSource, CustomerCollection, Outflow, day), Nothing.(refunds := CashOn(day)));
  }

  lemma PaymentsAreCarried(rows: seq<SourceRow>, s: Sources, day: Date)
    requires OverSources(rows, s)
    ensures Sum(rows, EntriesOn(ConstructionPaymentSource, Construction, Outflow, day)) == Sum(s.payments, PaidOn(day))
  {
    hide Sum, IsLeap, DaysIn, OverSources;
    NothingReads(s);
    ReadOff(rows, s, EntriesOn(ConstructionPaymentSource, Construction, Outflow, day),
            Nothing.(payments := PaidOn(day)));
  }

  lemma SpendingIsCarried(rows: seq<SourceRow>, s: Sources, kind: DevelopmentKind, day: Date)
    requires OverSources(rows, s)
    ensures Sum(rows, EntriesOn(DevelopmentMovementSource, Development(kind), Outflow, day))
            == Sum(s.development, SpentOn(kind, day))
  {
    hide Sum, IsLeap, DaysIn, OverSources;
    NothingReads(s);
    ReadOff(rows, s, EntriesOn(DevelopmentMovementSource, Development(kind), Outflow, day),
            Nothing.(development := SpentOn(kind, day)));
  }

  lemma FinancingIsCarried(rows: seq<SourceRow>, s: Sources, kind: FinancingKind, direction: Direction, day: Date)
    requires OverSources(rows, s)
    ensures Sum(rows, EntriesOn(FinancingMovementSource, Financing(kind), direction, day))
            == Sum(s.financing, MovedOn(kind, direction, day))
  {
    hide Sum, IsLeap, DaysIn, OverSources;
    NothingReads(s);
    ReadOff(rows, s, EntriesOn(FinancingMovementSource, Financing(kind), direction, day),
            Nothing.(financing := MovedOn(kind, direction, day)));
  }

  lemma EscrowIsCarried(rows: seq<SourceRow>, s: Sources, day: Date)
    requires OverSources(rows, s)
    ensures Sum(rows, EntriesOn(RestrictionSource, RestrictionHeld, Inflow, day)) == Sum(s.restrictions, HeldOn(day))
    ensures Sum(rows, EntriesOn(ReleaseSource, ReleaseFreed, Outflow, day)) == Sum(s.releases, FreedOn(day))
  {
    hide Sum, IsLeap, DaysIn, OverSources;
    NothingReads(s);
    ReadOff(rows, s, EntriesOn(RestrictionSource, RestrictionHeld, Inflow, day),
            Nothing.(restrictions := HeldOn(day)));
    ReadOff(rows, s, EntriesOn(ReleaseSource, ReleaseFreed, Outflow, day), Nothing.(releases := FreedOn(day)));
  }

  lemma RecordsAreCarried(rows: seq<SourceRow>, s: Sources)
    requires OverSources(rows, s)
    ensures CarryTheRecords(rows, s)
  {
    hide Sum, EntriesOn, CashOn, PaidOn, HeldOn, FreedOn, SpentOn, MovedOn, OverSources;
    forall day: Date { ReceiptsAreCarried(rows, s, day); }
    forall day: Date { RefundsAreCarried(rows, s, day); }
    forall day: Date { PaymentsAreCarried(rows, s, day); }
    forall day: Date { EscrowIsCarried(rows, s, day); }
    forall kind, day: Date { SpendingIsCarried(rows, s, kind, day); }
    forall kind, direction, day: Date { FinancingIsCarried(rows, s, kind, direction, day); }
  }

  lemma CustomersAreNoMore(rows: seq<SourceRow>, s: Sources)
    requires OverSources(rows, s)
    ensures Sum(rows, FromSource(ReceiptSource)) == Sum(s.receipts, CashAmount)
    ensures Sum(rows, FromSource(RefundSource)) == Sum(s.refunds, CashAmount)
    ensures Sum(rows, FromSource(ConstructionPaymentSource)) == Sum(s.payments, PaymentAmount)
  {
    hide Sum, IsLeap, DaysIn, OverSources;
    NothingReads(s);
    ReadOff(rows, s, FromSource(ReceiptSource), Nothing.(receipts := CashAmount));
    ReadOff(rows, s, FromSource(RefundSource), Nothing.(refunds := CashAmount));
    ReadOff(rows, s, FromSource(ConstructionPaymentSource), Nothing.(payments := PaymentAmount));
  }

  lemma MovementsAreNoMore(rows: seq<SourceRow>, s: Sources)
    requires OverSources(rows, s)
    ensures Sum(rows, FromSource(DevelopmentMovementSource)) == Sum(s.development, SpentAmount)
    ensures Sum(rows, FromSource(FinancingMovementSource)) == Sum(s.financing, MovedAmount)
  {
    hide Sum, IsLeap, DaysIn, OverSources;
    NothingReads(s);
    ReadOff(rows, s, FromSource(DevelopmentMovementSource), Nothing.(development := SpentAmount));
    ReadOff(rows, s, FromSource(FinancingMovementSource), Nothing.(financing := MovedAmount));
  }

  lemma EscrowIsNoMore(rows: seq<SourceRow>, s: Sources)
    requires OverSources(rows, s)
    ensures Sum(rows, FromSource(RestrictionSource)) == Sum(s.restrictions, HeldAmount)
    ensures Sum(rows, FromSource(ReleaseSource)) == Sum(s.releases, FreedAmount)
  {
    hide Sum, IsLeap, DaysIn, OverSources;
    NothingReads(s);
    ReadOff(rows, s, FromSource(RestrictionSource), Nothing.(restrictions := HeldAmount));
    ReadOff(rows, s, FromSource(ReleaseSource), Nothing.(releases := FreedAmount));
  }

  lemma ScheduleIsCarried(s: Sources, snapshot: seq<Instalment>, adjusted: map<int, int>, lines: seq<FM.Line>,
          remainders: map<int, int>)
    requires forall i :: 0 <= i < |snapshot| ==> snapshot[i].id in adjusted
    ensures CarryTheSchedule(Composed(s, snapshot, adjusted, lines, remainders), snapshot, adjusted)
  {
    hide Sum, Composed, ActualRows, ScheduleRows, LineRows, ReadAs, IsLeap, DaysIn;
    var rows := Composed(s, snapshot, adjusted, lines, remainders);
    forall id, day: Date
      ensures Sum(rows, Instalments(id, Scheduled, day)) == Sum(snapshot, StatedOn(id, day))
      ensures Sum(rows, Instalments(id, Forecast, day)) == Sum(snapshot, ExpectedOn(id, day, adjusted))
    {
      NotFromTheSources(s, lines, remainders, id, Scheduled, day);
      NotFromTheSources(s, lines, remainders, id, Forecast, day);
      ComposedTotal(s, snapshot, adjusted, lines, remainders, Instalments(id, Scheduled, day));
      ComposedTotal(s, snapshot, adjusted, lines, remainders, Instalments(id, Forecast, day));
      ScheduleTotal(snapshot, adjusted, Instalments(id, Scheduled, day), StatedOn(id, day));
      ScheduleTotal(snapshot, adjusted, Instalments(id, Forecast, day), ExpectedOn(id, day, adjusted));
    }
  }

  lemma NotFromTheSources(s: Sources, lines: seq<FM.Line>, remainders: map<int, int>, id: int, basis: Basis, day: Date)
    ensures Sum(ActualRows(s), Instalments(id, basis, day)) == 0
    ensures Sum(LineRows(lines, remainders), Instalments(id, basis, day)) == 0
  {
    hide Sum, ActualRows, LineRows, IsLeap, DaysIn;
    ActualTotal(s, Instalments(id, basis, day), Nothing);
    NothingReads(s);
    LineTotal(lines, remainders, Instalments(id, basis, day), NoLine);
    SumZero(lines, NoLine);
  }

  lemma LinesAreCarried(s: Sources, snapshot: seq<Instalment>, adjusted: map<int, int>, lines: seq<FM.Line>,
          remainders: map<int, int>)
    ensures CarryTheLines(Composed(s, snapshot, adjusted, lines, remainders), lines, remainders)
  {
    hide Sum, Composed, ActualRows, ScheduleRows, LineRows, IsLeap, DaysIn;
    var rows := Composed(s, snapshot, adjusted, lines, remainders);
    NothingReads(s);
    SumZero(snapshot, NoInstalment);
    forall id, month: Date, category, direction
      ensures Sum(rows, PlannedFor(id, month, category, direction))
              == Sum(lines, LeftFor(id, month, category, direction, remainders))
    {
      var g := PlannedFor(id, month, category, direction);
      ComposedTotal(s, snapshot, adjusted, lines, remainders, g);
      ActualTotal(s, g, Nothing);
      ScheduleTotal(snapshot, adjusted, g, NoInstalment);
      LineTotal(lines, remainders, g, LeftFor(id, month, category, direction, remainders));
    }
    forall id ensures Sum(rows, RowsFrom(ForecastLineSource, id)) == Sum(lines, LeftOfLine(id, remainders)) {
      var g := RowsFrom(ForecastLineSource, id);
      ComposedTotal(s, snapshot, adjusted, lines, remainders, g);
      ActualTotal(s, g, Nothing);
      ScheduleTotal(snapshot, adjusted, g, NoInstalment);
      LineTotal(lines, remainders, g, LeftOfLine(id, remainders));
    }
  }

  lemma SourcesAreCarried(rows: seq<SourceRow>, s: Sources)
    requires OverSources(rows, s)
    ensures CarryTheRecords(rows, s) && CarryNoMore(rows, s)
  {
    hide Sum, OverSources, CarryTheRecords, FromSource;
    RecordsAreCarried(rows, s);
    CustomersAreNoMore(rows, s);
    MovementsAreNoMore(rows, s);
    EscrowIsNoMore(rows, s);
  }

  // ---------------------------------------------------------------- the procedure

  /** One loop of the assembly: a row appended for each record of one source. */
  method AppendEach<T>(rows: seq<SourceRow>, s: seq<T>, f: T -> SourceRow) returns (r: seq<SourceRow>)
    ensures r == rows + Mapped(s, f)
  {
    r := rows;
    for i := 0 to |s|
      invariant r == rows + Mapped(s[..i], f)
    {
      assert s[..i + 1][..i] == s[..i];
      r := r + [f(s[i])];
    }
    assert s[..|s|] == s;
  }

  method AppendSchedule(rows: seq<SourceRow>, snapshot: seq<Instalment>, adjusted: map<int, int>)
    returns (r: seq<SourceRow>)
    ensures r == rows + ScheduleRows(snapshot, adjusted)
  {
    r := rows;
    for i := 0 to |snapshot|
      invariant r == rows + ScheduleRows(snapshot[..i], adjusted)
    {
      assert snapshot[..i + 1][..i] == snapshot[..i];
      var row := snapshot[i];
      r := r + [InstalmentRow(row, row.amount, Scheduled)];
      var expected := GetOr(adjusted, row.id, row.amount);
      if expected > 0 {
        r := r + [InstalmentRow(row, expected, Forecast)];
      }
    }
    assert snapshot[..|snapshot|] == snapshot;
  }

  method AppendLines(rows: seq<SourceRow>, lines: seq<FM.Line>, remainders: map<int, int>) returns (r: seq<SourceRow>)
    ensures r == rows + LineRows(lines, remainders)
  {
    r := rows;
    for i := 0 to |lines|
      invariant r == rows + LineRows(lines[..i], remainders)
    {
      assert lines[..i + 1][..i] == lines[..i];
      var remaining := GetOr(remainders, lines[i].id, lines[i].amount);
      if remaining <= 0 {
        continue;
      }
      r := r + [LineRow(lines[i], remaining)];
    }
    assert lines[..|lines|] == lines;
  }

  /** Actual rows always; the schedule and the forecast lines only where a forecast is in force. */
  method AssembleSourceRows(sources: Sources, plan: Option<Plan>) returns (rows: seq<SourceRow>)
    requires ValidSources(sources) && (plan.Some? ==> ValidPlan(plan.value))
    ensures AllWellFormed(rows)
    ensures CarryTheRecords(rows, sources) && CarryNoMore(rows, sources)
    ensures plan.None? ==> rows == ActualRows(sources)
    ensures plan.Some? ==> CarryTheLines(rows, plan.value.lines, plan.value.remainders)
    ensures plan.Some? ==> exists adjusted ::
              && IsOffset(adjusted, plan.value.snapshot, plan.value.unapplied)
              && CarryTheSchedule(rows, plan.value.snapshot, adjusted)
              && rows == Composed(sources, plan.value.snapshot, adjusted, plan.value.lines, plan.value.remainders)
  {
    hide AllWellFormed, IsOffset, Mapped, ScheduleRows, LineRows, CarryTheRecords, CarryNoMore, CarryTheSchedule,
         CarryTheLines;
    rows := AppendEach([], sources.receipts, ReceiptRow);
    rows := AppendEach(rows, sources.refunds, RefundRow);
    rows := AppendEach(rows, sources.payments, PaymentOut);
    rows := AppendEach(rows, sources.development, DevelopmentOut);
    rows := AppendEach(rows, sources.financing, FinancingMove);
    rows := AppendEach(rows, sources.restrictions, HeldCash);
    rows := AppendEach(rows, sources.releases, FreedCash);
    assert rows == ActualRows(sources);
    ActualRowsWellFormed(sources);
    if plan.None? {
      assert OverSources(rows, sources);
      SourcesAreCarried(rows, sources);
      return;
    }
    var adjusted := OffsetUnappliedCash(plan.value.snapshot, plan.value.unapplied);
    ghost var actual := rows;
    rows := AppendSchedule(rows, plan.value.snapshot, adjusted);
    ScheduleRowsWellFormed(plan.value.snapshot, adjusted);
    WellFormedTogether(actual, ScheduleRows(plan.value.snapshot, adjusted));
    ghost var withSchedule := rows;
    rows := AppendLines(rows, plan.value.lines, plan.value.remainders);
    LineRowsWellFormed(plan.value.lines, plan.value.remainders);
    WellFormedTogether(withSchedule, LineRows(plan.value.lines, plan.value.remainders));
    ComposedOverSources(sources, plan.value.snapshot, adjusted, plan.value.lines, plan.value.remainders);
    SourcesAreCarried(rows, sources);
    ScheduleIsCarried(sources, plan.value.snapshot, adjusted, plan.value.lines, plan.value.remainders);
    LinesAreCarried(sources, plan.value.snapshot, adjusted, plan.value.lines, plan.value.remainders);
  }

  lemma {:induction false} OneLineOfItsId(lines: seq<FM.Line>, k: nat, remainders: map<int, int>)
    requires k < |lines| && forall i, j :: 0 <= i < j < |lines| ==> lines[i].id != lines[j].id
    ensures Sum(lines, LeftOfLine(lines[k].id, remainders)) == LeftOf(lines[k], remainders)
    ensures var line := lines[k];
            Sum(lines, LeftFor(line.id, line.period, line.category, line.direction, remainders))
            == LeftOf(line, remainders)
  {
    var n, line := |lines| - 1, lines[k];
    if k == n {
      SumZero(lines[..n], LeftOfLine(line.id, remainders));
      SumZero(lines[..n], LeftFor(line.id, line.period, line.category, line.direction, remainders));
    } else {
      OneLineOfItsId(lines[..n], k, remainders);
    }
  }

  /** Where no two lines share an id, each is carried as what is left of it and no more. */
  lemma EachLineOnce(rows: seq<SourceRow>, lines: seq<FM.Line>, remainders: map<int, int>)
    requires CarryTheLines(rows, lines, remainders)
    requires forall i, j :: 0 <= i < j < |lines| ==> lines[i].id != lines[j].id
    ensures forall line :: line in lines ==>
              var left := if line.id in remainders then remainders[line.id] else line.amount;
              && Sum(rows, RowsFrom(ForecastLineSource, line.id)) == (if left < 0 then 0 else left)
              && Sum(rows, PlannedFor(line.id, line.period, line.category, line.direction))
                 == (if left < 0 then 0 else left)
  {
    hide Sum;
    forall line | line in lines
      ensures Sum(rows, RowsFrom(ForecastLineSource, line.id)) == LeftOf(line, remainders)
      ensures Sum(rows, PlannedFor(line.id, line.period, line.category, line.direction)) == LeftOf(line, remainders)
    {
      var k :| 0 <= k < |lines| && lines[k] == line;
      OneLineOfItsId(lines, k, remainders);
    }
  }

  // ---------------------------------------------------------------- cash arrives once

  const ForecastAmount: SourceRow -> int := (row: SourceRow) => if row.basis == Forecast then row.amount else 0

  function AdjustedAmount(adjusted: map<int, int>): Instalment -> int {
    (row: Instalment) => Get(adjusted, row.id)
  }

  /** The schedule's forward rows carry exactly what the offset leaves of it. */
  lemma {:induction false} ScheduleCarriesTheOffset(snapshot: seq<Instalment>, adjusted: map<int, int>)
    requires forall i :: 0 <= i < |snapshot| ==> snapshot[i].id in adjusted && adjusted[snapshot[i].id] >= 0
    ensures Sum(ScheduleRows(snapshot, adjusted), ForecastAmount) == Sum(snapshot, AdjustedAmount(adjusted))
  {
    if snapshot != [] {
      var n := |snapshot| - 1;
      ScheduleCarriesTheOffset(snapshot[..n], adjusted);
      var r, before := snapshot[n], ScheduleRows(snapshot[..n], adjusted);
      var scheduled := InstalmentRow(r, r.amount, Scheduled);
      SumSnoc(before, scheduled, ForecastAmount);
      SumSnoc(before + [scheduled], InstalmentRow(r, adjusted[r.id], Forecast), ForecastAmount);
      assert before + [scheduled] + [] == before + [scheduled];
    }
  }
}
