/** The rows every cash report is built from, and the one rule that decides which of them are cash. */
module CashModel {
  import opened Calendar
  import opened Standing

  datatype Direction = Inflow | Outflow

  datatype DevelopmentKind =
    | LandAcquisition | LandFees | Design | Consultants | Permits | Utilities | Insurance
    | DeveloperOverhead | Marketing | Commissions | Tax | Handover | Other

  datatype FinancingKind =
    | EquityContribution | DebtDrawdown | GuaranteeCashRelease
    | EquityDistribution | DebtFee | InterestPayment | PrincipalRepayment | GuaranteeCashPosting

  datatype Category =
    | CustomerCollection
    | Construction
    | Development(development: DevelopmentKind)
    | Financing(financing: FinancingKind)
    | RestrictionHeld
    | ReleaseFreed

  datatype Basis = Actual | Forecast | Scheduled

  datatype SourceType =
    | ReceiptSource | RefundSource | ConstructionPaymentSource | DevelopmentMovementSource | FinancingMovementSource
    | RestrictionSource | ReleaseSource | ScheduleSource | ForecastLineSource

  datatype SourceRow = SourceRow(
    source: SourceType, id: int, period: Date, business: Date, amount: int,
    direction: Direction, category: Category, basis: Basis, monthGrain: bool)

  /** The governed forecast in force, as far as a projection reads it. */
  datatype Version = Version(
    asOfDate: Date, startMonth: Date, endMonth: Date, openingUnrestricted: int, openingRestricted: int)

  // ---------------------------------------------------------------- the rule

  predicate CountsAsCash(row: SourceRow, asOf: Date) {
    match row.basis
    case Scheduled => false
    case Actual => true
    case Forecast =>
      if row.monthGrain then UpTo(MonthOf(asOf), row.period) else Before(asOf, row.business)
  }

  /** Where a projection places a row: on its own date, or for a whole month on the first day left to it. */
  function WindowDate(row: SourceRow, asOf: Date): Date {
    if row.monthGrain then Latest(row.period, NextDay(asOf)) else row.business
  }

  /** The first month of the forecast in force, whose opening balance a report starts from. */
  function OpeningAnchor(version: Option<Version>): Option<Date> {
    if version.Some? then Some(version.value.startMonth) else None
  }

  predicate AtOrAfter(month: Date, anchor: Option<Date>) {
    anchor.None? || UpTo(anchor.value, month)
  }

  function OpeningTotal(version: Option<Version>): int {
    if version.Some? then version.value.openingUnrestricted + version.value.openingRestricted else 0
  }

  function OpeningRestricted(version: Option<Version>): int {
    if version.Some? then version.value.openingRestricted else 0
  }

  // ---------------------------------------------------------------- what a row does to a balance

  /** What a row does to cash in the bank. Escrow moves availability and never cash. */
  const CashEffect: SourceRow -> int := (row: SourceRow) =>
    if row.source == RestrictionSource || row.source == ReleaseSource then 0
    else if row.direction == Inflow then row.amount else -row.amount

  /** What a row does to the restricted part of it. */
  const HeldEffect: SourceRow -> int := (row: SourceRow) =>
    if row.source == RestrictionSource then row.amount
    else if row.source == ReleaseSource then -row.amount else 0

  /** What a row does to the part that may be spent. */
  const UsableEffect: SourceRow -> int := (row: SourceRow) => CashEffect(row) - HeldEffect(row)

  // ---------------------------------------------------------------- the shapes the sources produce

  predicate LineShape(category: Category, direction: Direction) {
    match category
    case CustomerCollection => direction == Inflow
    case Construction => direction == Outflow
    case Development(_) => direction == Outflow
    case Financing(_) => true
    case RestrictionHeld => false
    case ReleaseFreed => false
  }

  /** What the assembly of sources guarantees of every row it makes. */
  predicate WellFormed(row: SourceRow) {
    && row.period == MonthOf(row.business)
    && row.amount >= 0
    && (row.monthGrain <==> row.source == ForecastLineSource)
    && match row.source
       case ReceiptSource => row.basis == Actual && row.direction == Inflow && row.category == CustomerCollection
       case RefundSource => row.basis == Actual && row.direction == Outflow && row.category == CustomerCollection
       case ConstructionPaymentSource => row.basis == Actual && row.direction == Outflow && row.category == Construction
       case DevelopmentMovementSource => row.basis == Actual && row.direction == Outflow && row.category.Development?
       case FinancingMovementSource => row.basis == Actual && row.category.Financing?
       case RestrictionSource => row.basis == Actual && row.direction == Inflow && row.category == RestrictionHeld
       case ReleaseSource => row.basis == Actual && row.direction == Outflow && row.category == ReleaseFreed
       case ScheduleSource => row.basis != Actual && row.direction == Inflow && row.category == CustomerCollection
       case ForecastLineSource =>
         row.basis == Forecast && Canonical(row.business) && LineShape(row.category, row.direction)
  }

  ghost predicate AllWellFormed(rows: seq<SourceRow>) {
    forall i :: 0 <= i < |rows| ==> WellFormed(rows[i])
  }

  /**
   * A row of cash is either already in the bank at the cutoff, or projected on a day strictly
   * after it: never both, and never neither.
   */
  lemma CashIsBehindOrAhead(row: SourceRow, asOf: Date)
    requires WellFormed(row) && CountsAsCash(row, asOf)
    ensures (row.basis == Actual && UpTo(row.business, asOf)) <==> !Before(asOf, WindowDate(row, asOf))
  {
    NextDayIsNext(asOf, WindowDate(row, asOf));
  }
}
