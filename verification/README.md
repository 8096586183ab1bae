# A verified model of the cash engine

Reach keeps the cash of a property development: what has been received and paid, what a governed
forecast still expects, what buyer money is held in escrow, and what must be raised to get through.
Several reports are computed from one list of source rows by separate algorithms, and the code
promises that they never disagree. This project models those algorithms, the governed state
machines that feed them, and three smaller algorithms beside them, in Dafny, and proves what they
promise for all inputs, all runs and all interleavings.

Money is an integer number of cents, dates are real calendar dates, and instants carry microseconds.
Halves are rounded up away from zero exactly where the source quantises a quotient.

## How it is laid out

- `Sums`, `Sorting`, `Amounts`, `Calendar`: totals and permutations, Python's stable sort, cents, and dates.
- `CashModel`, `Bridge`, `FundingWindows`, `Agreement`: one row, the month view with its columns and
  balances, the day view with its requirement, and the theorems that join them. The central ones are
  `Agreement.DayAndMonthAgree` and `Agreement.RequirementCoversMonthEnds`.
- `MonthFigures`, `RowRules`: the same views again as plain totals of rows, with dates, sources and
  categories written out, and what one row more does to each.
- `UnappliedOffset`, `ForecastMatching`, `ForecastRemainders`, `UnattributedSpread`,
  `RemainingForecast`, `GrainTotals`, `TenLines`, `Assembly`: what is still expected once cash has
  arrived, and the rows that follow. Matching is proved maximal against every rival plan by a covering argument.
- `Standing`, `Movements`, `Escrow`, `EscrowTable`, `EscrowHistory`, `EscrowBridge`: the lifecycle every
  cash record shares, dated reads against real history, escrow ceilings, and when the bridge can refuse.
- `ForecastReadiness`, `ForecastLadder`, `LadderTable`, `EditedPin`: the governed forecast from draft to active.
- `BatchRead`: the portfolio's batch read beside each project's own.
- `Discounting`, `InternalRate`, `Returns`: present value, the one crossing, the bisection, and equity.
- `ShardAssignment`, `CycleSearch`, `CarryForward`, `BatchClaim`, `Journal`: scheduling of test files,
  three-colour search, the pour of receipts into a new schedule, the single claim of a cutover
  batch, and the log line.

Where the source changes things in place, the model does: arrays in `ShardAssignment`, and classes
in `CycleSearch`, `Movements`, `EscrowTable`, `LadderTable` and `BatchClaim`. Each state machine also has a
pure verdict and step function; the methods of its class are proved to agree with them and to keep
the invariants of every run, and the runs are runs of those functions. What each act asks and does is
then stated again outright, field by field, without those functions.

## Where the code and its words part

- The rate search says that one sign change makes the present value strictly decreasing in the rate.
  It does so exactly when no money goes in after the first period
  (`InternalRate.KeepsFallingExactlyWhen`); what always holds, and is enough, is that the value
  crosses zero once (`InternalRate.EveryOneTurnCrosses`, `InternalRate.TheCrossingIsFoundToAnyScale`,
  and `InternalRate.TheRootIsTheCrossing` where the crossing is an exact root).
- A remainder is not always within its line: the last line of a month takes what rounding leaves, and
  ends above its own amount exactly when the shares before it overran the spread by more than was
  matched to it (`RemainingForecast.RemainderPassesItsLineExactlyWhen`, `TenLines.TheTenthIsLeftAtFive`).
- A release may be dated before the receipt it frees, and the bridge can then refuse a ledger that
  no operation refused (`EscrowBridge.NoOperationRefusesWhatTheBridgeDoes`). It is reported exactly
  when each release is funded at its own month (`EscrowBridge.BridgeOfLedger`).
- What was approved reconciles to its pin as it was read at the gate. A construction forecast that is
  still being edited can be pinned by naming it when none is in force, and what is in force may then
  no longer reconcile (`EditedPin.AnEditedPinNoLongerReconciles`);
  `ForecastLadder.InForceReconcilesExactlyWhen` says when it does.
- The day and the month view agree for every cutoff that is not before the anchor. A report may be
  asked for as at an earlier date, and the day view then counts cash of the months between on top of
  an opening balance that has it already (`Agreement.DayAndMonthAgree` for exactly how much,
  `Agreement.AnEarlyCutoffCanDiffer`).
- One claim for a batch id is guarded by the lock of a project, so it holds exactly when manifests
  that share an id name one project (`BatchClaim.ClaimedOnceExactlyWhen`).
- A bridge asked to start after its anchor opens with the anchor's balance all the same
  (`Agreement.LateStartLosesTheMonthsBetween`).
- On the last day of a month the bridge still counts that month's forecast lines, and the day view
  places them on the next day (`Agreement.OnTheLastDayTheyDifferByTheMonthsForecast`).

## Model

| member | source | states |
|---|---|---|
| ShardAssignment.Assign | scripts/ci_backend_shards.py:98-110 | Refuses exactly a count below one or above the number of files, or a weight below one; otherwise the shards hold every file once, none is empty, each is in path order, and against any other spread of the same files over `m` shards with largest load `M`, `3m * largest load <= (4m - 1) * M` |
| ShardAssignment.PlaceOne | scripts/ci_backend_shards.py:103-106 | The file joins the least-loaded shard (lowest index among equals), in place, and the running loads stay the true loads |
| ShardAssignment.BalancedWithoutAnyFile | scripts/ci_backend_shards.py:101-106 | Any shard without any one of its files weighs no more than any other shard |
| ShardAssignment.ListSchedulingBound | scripts/ci_backend_shards.py:101-106 | `m * load <= (2m - 1) * M` for every shard against every other spread |
| ShardAssignment.LongestProcessingTimeBound | scripts/ci_backend_shards.py:101-106 | `3m * load <= (4m - 1) * M` for every shard against every other spread, because files go heaviest first |
| ShardAssignment.ListingOrderDoesNotMatter | scripts/ci_backend_shards.py:103-103 | The placing order, and so the assignment, is the same however the weights are listed |
| ShardAssignment.HeaviestThenEarliest | scripts/ci_backend_shards.py:103-103 | Every file is placed before the lighter ones, and before those of its own weight whose path reads later |
| ShardAssignment.EachShardReadsInOrder | scripts/ci_backend_shards.py:107-110 | Each shard returned lists its own files with their paths in reading order |
| ShardAssignment.ValidationMeansSpread | scripts/ci_backend_shards.py:113-121 | Validation passes exactly when there are shards, none is empty, and together they are the files, each once |
| CycleSearch.FindCycle | scripts/ci_backend_tests.py:554-590 | A path is returned only if it is a real cycle, each step an edge and no domain met twice before it closes; none is returned exactly when the graph has no cycle of any length |
| CycleSearch.CycleSearch.Walk | scripts/ci_backend_tests.py:570-583 | From an unvisited domain the search either closes a cycle or finishes the domain, leaving the path as it was and everything finished still finished |
| CycleSearch.ClosingTheCycle | scripts/ci_backend_tests.py:575-576 | The tail of the path from the domain met again, closed by it, is a cycle that repeats nothing else |
| CycleSearch.DownstreamOrderExcludesCycles | scripts/ci_backend_tests.py:580-582 | If every domain stands after everything downstream of it, no walk returns to where it began |
| CarryForward.PlanCarryForward | app/modules/collections/ledger.py:481-525 | The plan is the pour of sources, in order, into the schedule, each instalment once where it is first named and with the room last stated for it; refused exactly when the positive cash exceeds the positive room |
| CarryForward.DistinctScheduleIsItself | app/modules/collections/ledger.py:496-497 | A schedule whose instalments all differ is poured into as it stands |
| CarryForward.PourMovesAllItCan | app/modules/collections/ledger.py:481-530 | What the plan moves in total is the lesser of the cash there is and the room there is |
| CarryForward.PourPlacesEveryReceipt | app/modules/collections/ledger.py:490-492 | Where there is room for all of it, each receipt is placed in full, cent for cent |
| CarryForward.PourRespectsCapacity | app/modules/collections/ledger.py:496-517 | No instalment receives more than its capacity, and nothing lands outside the schedule |
| CarryForward.PourFillsInOrder | app/modules/collections/ledger.py:500-517 | A later instalment receives cash only once every earlier one is full |
| CarryForward.PourIsShort | app/modules/collections/ledger.py:500-517 | A plan with lines has at most sources + targets - 1 of them, each of a positive amount |
| Calendar.MonthsBetween | app/modules/cashflow/service.py:216-231 | Refuses a horizon that ends before it starts; otherwise every month from first to last, each once |
| Calendar.MonthsHaveNoGaps | app/modules/cashflow/service.py:216-231 | The run starts and ends where asked and each month is followed by the next calendar month |
| Standing.BoundSeparatesDays | app/core/standing.py:50-59 | An instant is before the bound of a date exactly when it falls on that date or an earlier one |
| Standing.LaterEventsKeepThePast | app/core/standing.py:62-83 | Nothing that can happen to a record at or after a bound changes whether it stood before it |
| Standing.BeforeTheBoundStatusAnswers | app/core/standing.py:62-83 | While the clock is short of a bound, standing before it and being confirmed are the same thing |
| Movements.HistoricalReadIsRealHistory | app/core/standing.py:50-83 | Over every run with a clock that never runs back, a read dated `as_of`, made at any later moment, selects exactly the movements that were confirmed when that date ended |
| Movements.MakerIsNotChecker | app/modules/cashflow/service.py:1268-1306 | On every run, no movement is confirmed by its recorder, except a pre-launch expense by the master administrator, which is marked as such |
| Movements.MovementRegister.RecordMovement | app/modules/cashflow/service.py:1544-1620 | Adds one recorded movement that names its recorder and carries no confirmation, and nothing else |
| Movements.MovementRegister.ConfirmMovement | app/modules/cashflow/service.py:1623-1661 | Not found, conflict and forbidden each exactly when the movement is missing, no longer recorded, or the actor's own with no exception; otherwise that row alone is confirmed, with who and when and whether the exception was used |
| Movements.MovementRegister.ReverseMovement | app/modules/cashflow/service.py:1309-1346 | Accepted exactly for a movement recorded or confirmed; that row alone is withdrawn, still telling when it was confirmed |
| Escrow.EveryRunIsSound | app/modules/cashflow/service.py:1868-2180 | After every interleaving of locked operations: each escrow fits its receipt, a receipt has one standing escrow at most, a standing release has a confirmed escrow, and standing releases total no more than their escrow |
| Escrow.ConfirmingNeverBreaksTheCeiling | app/modules/cashflow/service.py:2126-2135 | On every run the ceiling re-proved at confirmation holds, so that refusal is never the reason |
| Escrow.FreedWithout | app/modules/cashflow/service.py:2018-2031 | Leaving a standing release out of the count takes away exactly its amount |
| EscrowTable.EscrowLedger.RecordRestrictionOn | app/modules/cashflow/service.py:1866-1941 | Holds back part of a confirmed receipt, once, up to its amount; refused otherwise in the order the source refuses |
| EscrowTable.EscrowLedger.ConfirmRestrictionOf | app/modules/cashflow/service.py:1944-1965 | Confirms a recorded escrow by somebody other than its recorder, or the master administrator |
| EscrowTable.EscrowLedger.ReverseRestrictionOf | app/modules/cashflow/service.py:1968-2015 | Withdraws an escrow only when no release stands against it |
| EscrowTable.EscrowLedger.RecordReleaseOf | app/modules/cashflow/service.py:2034-2098 | Records a release of a confirmed escrow only within its ceiling |
| EscrowTable.EscrowLedger.ConfirmReleaseOf | app/modules/cashflow/service.py:2101-2145 | Confirms a recorded release after re-proving the ceiling without itself |
| EscrowTable.EscrowLedger.ReverseReleaseOf | app/modules/cashflow/service.py:2148-2180 | Withdraws a standing release, and refuses a second time |
| EscrowTable.AnOperationDoesWhatItSays | app/modules/cashflow/service.py:1866-2180 | In every sound ledger each operation is accepted exactly on conditions written out row by row, adds or changes that one row as written out, and does nothing when refused |
| EscrowTable.RefusedBecause | app/modules/cashflow/service.py:1866-2180 | Each refusal has its one reason: a name of nothing, one's own record, an amount out of range, and a conflict otherwise |
| EscrowTable.EveryOperationDoesWhatItSays | app/modules/cashflow/service.py:1866-2180 | So it is of each operation of every run |
| EscrowHistory.ThePastIsSettled | app/modules/cashflow/service.py:2395-2411 | Nothing done after a bound changes which receipts, escrows and releases stood before it, or their terms |
| EscrowHistory.AtTheBound | app/modules/cashflow/service.py:2395-2411 | At the bound itself, what stands before it is what is confirmed |
| EscrowHistory.DatedEscrowIsSound | app/modules/cashflow/service.py:2700-2746 | Read as at any date, whatever has happened since, releases are within their escrow and stand only while it does |
| CashModel.CashIsBehindOrAhead | app/modules/cashflow/service.py:2313-2364 | A cash row is already in the bank at the cutoff or projected strictly after it, never both and never neither |
| RowRules.DayEndIsWhatHasLanded | app/modules/cashflow/service.py:2313-2364 | The end of a day after the cutoff is the opening and every row whose own date is after the cutoff and by that day, and every line of a month not over whose first open day has come |
| RowRules.MonthClosesOnItsRows | app/modules/cashflow/service.py:2313-2364 | A month closes on the opening and every actual row, every instalment dated after the cutoff and every line of a month not over, of the months of the bridge up to it |
| RowRules.OneRowMore | app/modules/cashflow/service.py:2313-2364 | What one more row, anywhere in the list, adds to the end of a day and to the close of a month |
| RowRules.AnInstalmentMovesItsOwnDay | app/modules/cashflow/service.py:2351-2364 | An instalment due after the cutoff moves the close of its month, and every day end from its own date on and none before; one due by the cutoff moves nothing |
| RowRules.APlanMovesFromItsFirstOpenDay | app/modules/cashflow/service.py:2351-2364 | A line of a month not before the cutoff's moves every day end from the later of the first of the month and the day after the cutoff, and none before; a line of an earlier month moves nothing |
| RowRules.InHandIsItsRows | app/modules/cashflow/service.py:2999-3067 | Cash in hand, in the bank and to spend, is the opening and the actual rows from the anchor month on dated by the cutoff |
| RowRules.WindowIsItsRows | app/modules/cashflow/service.py:3350-3400 | Each inflow and outflow of a window is the rows that land in it, each once, on the dates written out |
| Bridge.ColumnsAreDisjoint | app/modules/cashflow/service.py:3158-3230 | No row belongs to two columns of the month |
| Bridge.EveryCashRowHasAColumn | app/modules/cashflow/service.py:3158-3230 | Every cash row has a column, escrow rows have none, and each is on the side its cash moved |
| Bridge.ColumnsPartition | app/modules/cashflow/service.py:3158-3236 | Total inflows less total outflows of a month are its signed cash, every row counted once |
| Bridge.BridgeTelescopes | app/modules/cashflow/service.py:3158-3284 | A month closes on the opening balance and every cash row from the start up to it; the restricted and the spendable part likewise, and the gap is what the spendable part is short |
| Bridge.MonthOpensWhereTheLastClosed | app/modules/cashflow/service.py:3279-3284 | Each month opens, in total and in escrow, where the month before it closed |
| Bridge.PositionsFromRows | app/modules/cashflow/service.py:3110-3286 | Refuses exactly a start before the anchor or a reversed horizon; refuses for escrow at the first month that would close negative, and only there; otherwise one position for every month of the horizon, each equal to its closed form |
| MonthFigures.PositionIsItsRows | app/modules/cashflow/service.py:3158-3286 | Of a month's position: each column is the total of the rows of the one source, category and direction it is named for, and the totals, the three balances, the usable inflow, the gap and the state follow from them |
| MonthFigures.ReturnedPositionsAreTheirRows | app/modules/cashflow/service.py:3158-3286 | So it is of each position returned, month by month of the horizon; the first opens on the forecast's opening and each later one where the last closed |
| MonthFigures.TheBridgeStarts | app/modules/cashflow/service.py:3110-3155 | The first month is the one asked for, or the anchor's, or the earliest of the rows, or the cutoff's; refused exactly when one asked for is before the anchor |
| MonthFigures.TheBridgeEnds | app/modules/cashflow/service.py:3110-3155 | The last is the one asked for, or the latest of the forecast's end, the rows and the start |
| Bridge.ReportedBridgeReconciles | app/modules/cashflow/service.py:3690-3718 | Whatever the rows, a reported bridge passes the bridge, usable-split and carry checks |
| Bridge.CashInHandIsWhatHappened | app/modules/cashflow/service.py:2999-3067 | Cash in hand is the anchor balance and the signed cash from the anchor month on that has happened by the cutoff, split by escrow, refused exactly when escrow is overdrawn |
| FundingWindows.AllWindows | app/modules/cashflow/service.py:3316-3402 | Each window asked for opens on the spendable cash in hand and describes its days: its flows, its closing, the worst of all day ends, and the requirement |
| FundingWindows.OneWindow | app/modules/cashflow/service.py:3356-3400 | Walking only the days that move finds the minimum over every day of the window |
| FundingWindows.RequirementIsLeast | app/modules/cashflow/service.py:3388-3398 | The requirement keeps the opening and every day end at or above zero, and nothing smaller does |
| FundingWindows.LongerWindowsNeedNoLess | app/modules/cashflow/service.py:3350-3400 | As a window lengthens its minimum never rises and its requirement never falls |
| FundingWindows.WindowBalances | app/modules/cashflow/service.py:3381-3400 | Closing is opening plus net movement |
| FundingWindows.RowOrderDoesNotMatter | app/modules/cashflow/service.py:3350-3400 | The same rows in another order give the same window |
| Agreement.DefaultStartIsTheAnchor | app/modules/cashflow/service.py:3110-3146 | The start a bridge takes by default leaves out exactly what its opening balance contains |
| Agreement.MonthClosesOnWhatIsInHandAndAhead | app/modules/cashflow/service.py:2313-2364 | From the cutoff month on, wherever the cutoff falls, a month closes on the cash in hand plus exactly the rows of the months of the bridge up to it still ahead of the cutoff, in total, in escrow and spendable |
| Agreement.DayAndMonthAgree | app/modules/cashflow/service.py:3110-3402 | At the last day of any month strictly after the cutoff, projected spendable cash is the closing unrestricted cash of that month in the bridge plus the cash ahead of the cutoff in months before the anchor; so the two are equal for every cutoff that is not before the anchor |
| Agreement.NothingAlreadyOpened | app/modules/cashflow/service.py:2313-2364 | Where the cutoff is not before the anchor there is no such cash |
| Agreement.AnEarlyCutoffCanDiffer | app/modules/cashflow/service.py:234-251 | A cutoff in January, an instalment of February and a forecast opening in March put the day view a hundred cents above the month |
| Agreement.WindowClosesOnTheMonth | app/modules/cashflow/service.py:3316-3402 | A window ending on such a day closes on that figure, and on the month's own for every cutoff that is not before the anchor |
| Agreement.RequirementCoversMonthEnds | app/modules/cashflow/service.py:3316-3402 | The requirement of a window covers the shortfall of that figure at every month end inside it, and so the funding gap of the month for every cutoff that is not before the anchor |
| Agreement.OnTheLastDayTheyDifferByTheMonthsForecast | app/modules/cashflow/service.py:2351-2364 | When the cutoff is the last day of its month, the bridge closes higher or lower than cash in hand by exactly the forecast lines of that month |
| Agreement.TheLastDayCanDiffer | app/modules/cashflow/service.py:2351-2364 | One line of a hundred cents planned for January makes the two differ by a hundred on its last day |
| Agreement.LateStartLosesTheMonthsBetween | app/modules/cashflow/service.py:3145-3155 | A bridge asked to start after the anchor differs, at every month, by exactly the cash of the months between |
| Agreement.ALateStartCanDiffer | app/modules/cashflow/service.py:3145-3155 | A receipt of the anchor month and a start a month later differ by the receipt |
| UnappliedOffset.OffsetUnappliedCash | app/modules/cashflow/service.py:2414-2440 | Every instalment is left with its closed form: its amount less what earlier instalments of its sale have left of the credit |
| UnappliedOffset.OffsetConserves | app/modules/cashflow/service.py:2414-2440 | Per sale the adjusted schedule totals scheduled less the lesser of scheduled and unapplied |
| UnappliedOffset.ExpectedIsWithin | app/modules/cashflow/service.py:2433-2438 | What is still expected of an instalment is between nothing and its amount |
| UnappliedOffset.CoverIsAPrefix | app/modules/cashflow/service.py:2426-2438 | Credit reaches an instalment only when every earlier one of its sale is covered in full |
| UnappliedOffset.DaysIgnoreRowOrder | app/modules/cashflow/service.py:2426-2438 | Two results over one schedule, its rows in any two orders, total the same per sale and date |
| ForecastMatching.TakeTurn | app/modules/cashflow/service.py:2597-2619 | A line takes all it can from the pools it answers to, and nothing else moves, in whatever order its keys are visited |
| ForecastMatching.NothingOffsetsMore | app/modules/cashflow/service.py:2594-2619 | With phase-scoped lines first, no other assignment of actuals to lines at the same grain offsets more cash |
| RemainingForecast.MatchLines | app/modules/cashflow/service.py:2592-2619 | Lines fall by exactly what is taken from the pools; the result is one function of lines and pools and no rival plan offsets more |
| RemainingForecast.AfterTurnsAt | app/modules/cashflow/service.py:2597-2619 | A line is left with its amount less what the closed form says it takes: from its own pool what earlier lines of that pool leave, or from the pools of its category what phase-scoped and earlier general lines leave |
| RemainingForecast.MatchingKeepsWithin | app/modules/cashflow/service.py:2592-2619 | After matching, every line keeps between nothing and its governed amount |
| RemainingForecast.ListingPoolsDifferently | app/modules/cashflow/service.py:2608-2612 | What a line takes does not depend on the order the pools are listed in |
| UnattributedSpread.LinesAfterSpread | app/modules/cashflow/service.py:2638-2647 | No remainder goes negative; only the last line may end above what it had, by at most half a cent for each other line |
| UnattributedSpread.MonthFallsByTheSpread | app/modules/cashflow/service.py:2627-2647 | A month of n open lines falls by at most the spread, and short of it by at most (n - 1) / 2 cents |
| UnattributedSpread.LastLineGrowsExactlyWhen | app/modules/cashflow/service.py:2640-2647 | The last open line ends above what it had exactly when the rounded shares of the others exceed the spread |
| UnattributedSpread.LastLineMayGrow | app/modules/cashflow/service.py:2640-2647 | As ten one-cent lines and a pool of five cents do: the last ends at five |
| RemainingForecast.SpreadMonth | app/modules/cashflow/service.py:2638-2647 | One month in place: every open line falls by its share, the last by what rounding leaves, and no other line moves |
| RemainingForecast.RemainingForecastAmounts | app/modules/cashflow/service.py:2588-2648 | Matching, then every month with a pool spread over its open lines and nothing else touched |
| RemainingForecast.RemaindersAreWithin | app/modules/cashflow/service.py:2588-2648 | Of the result: no remainder is negative, and none exceeds what matching left by more than half a cent for each other open line of its month |
| RemainingForecast.RemainderGrowsExactlyWhen | app/modules/cashflow/service.py:2638-2647 | Of the result: a line ends above what matching left exactly when it is the last open construction line of its month and the rounded shares of the others exceed the spread |
| RemainingForecast.RemainderPassesItsLineExactlyWhen | app/modules/cashflow/service.py:2588-2648 | Of the result: a line ends above its own governed amount exactly when it is that last line and those shares overrun the spread by more than was matched to it |
| TenLines.TheTenthIsLeftAtFive | app/modules/cashflow/service.py:2588-2648 | Ten one-cent construction lines of a month, no matched actuals and a pool of five cents: whatever is returned for them leaves the tenth at five |
| GrainTotals.GrainIsLeftWithTheRest | app/modules/cashflow/service.py:2597-2619 | After matching, the lines that name a pool are left in total with what they were forecast at less what the pool holds, and with nothing once it holds more |
| GrainTotals.CategoryIsLeftWithTheRest | app/modules/cashflow/service.py:2603-2619 | After matching, the lines of a month and category that name no phase are left in total with their forecast less what the phase-scoped lines leave of its pools |
| GrainTotals.CodeKeepsWhatWasNotPaid | app/modules/cashflow/service.py:2463-2464 | Of the map matching returns: the construction lines of a month and cost code are left in total with their forecast less what was paid on that code in that month, and never less than nothing |
| GrainTotals.PhaseKeepsWhatWasNotSpent | app/modules/cashflow/service.py:2465-2466 | The development lines of a month, category and phase, likewise by what was spent on that phase |
| GrainTotals.ProjectKeepsWhatPhasesLeave | app/modules/cashflow/service.py:2603-2619 | The development lines of a month and category that name no phase, by what all its phases have over once their own lines are met |
| GrainTotals.FinancingKeepsWhatHasNotMoved | app/modules/cashflow/service.py:2467-2468 | The financing lines of a month, type and direction, by what has moved of that type that way |
| GrainTotals.UnsoldKeepsItsAmount | app/modules/cashflow/service.py:2469-2469 | A line for unsold stock keeps its whole amount through both phases |
| GrainTotals.OnlyConstructionIsSpread | app/modules/cashflow/service.py:2627-2648 | Cash with no cost code falls on open construction lines of its month alone |
| RemainingForecast.MonthFallsByItsPool | app/modules/cashflow/service.py:2627-2648 | Of the result: a month of n open construction lines falls by at most its spread, and short of it by at most (n - 1) / 2 cents; with none open it does not move |
| RemainingForecast.OneAnswer | app/modules/cashflow/service.py:2627-2648 | The order of months, and pools with nothing in them, never change a remainder |
| Assembly.AssembleSourceRows | app/modules/cashflow/service.py:2775-2982 | Of the rows returned: each of the seven actual sources carries, on each day and for each kind, exactly its records; with a forecast in force each line is carried as what is left of it, in its month, category and direction, and each instalment as due and as what the offset still expects; no source carries anything else |
| Assembly.EachLineOnce | app/modules/cashflow/service.py:2962-2982 | Where no two lines share an id, the rows of a line total its remainder, or its amount where it has none, and never less than nothing |
| Assembly.ScheduleCarriesTheOffset | app/modules/cashflow/service.py:2922-2960 | The forward schedule carries exactly what the offset leaves of it |
| EscrowBridge.AssembledRowsCarryEscrow | app/modules/cashflow/service.py:2880-2916 | Of the assembled rows, the escrow ones are exactly what the ledger holds and frees at the cutoff |
| EscrowBridge.LedgerCovers | app/modules/cashflow/service.py:2700-2746 | Up to any date test that lets a receipt through before its releases, a ledger frees no more than it holds |
| EscrowBridge.EscrowClosesExactlyWhen | app/modules/cashflow/service.py:3239-3245 | For any number of escrows and either kind of opening, every month closes at or above zero exactly when, at the month of each release that counts, all freed since the start is within the opening and all held since the start |
| EscrowBridge.BridgeOfLedger | app/modules/cashflow/service.py:3110-3286 | Over rows of any run of escrow operations the bridge is reported exactly when its horizon is in order and every release in it is funded in that sense |
| EscrowBridge.EscrowNeverClosesNegative | app/modules/cashflow/calculator.py:87-104 | If releases follow their receipts by month and the opening covers what was outstanding, no month closes with negative escrow |
| EscrowBridge.EarlyReleaseIsRefused | app/modules/cashflow/service.py:2070-2082 | On any run, with or without a forecast in force, a release of more than the opening, dated before every receipt held, makes the bridge close its month on negative escrow |
| EscrowBridge.NoOperationRefusesWhatTheBridgeDoes | app/modules/cashflow/service.py:2034-2098 | Six operations, a March receipt escrowed and released as of February, are all accepted, and every bridge that takes February in and opens with less is overdrawn there |
| EscrowBridge.OneEscrowClosesExactlyWhen | app/modules/cashflow/service.py:2070-2082 | With one escrow and no governed opening, every month closes at or above zero exactly when no release is dated in a month before its receipt |
| EscrowBridge.EscrowInHandExactlyWhen | app/modules/cashflow/service.py:3048-3059 | Cash in hand is stated exactly when what has been freed since the anchor, up to the cutoff, is within the opening and what has been held |
| EscrowBridge.EscrowInHandIsNeverOverdrawn | app/modules/cashflow/service.py:3048-3059 | Where releases follow receipts by date, and a forecast in force opens with what earlier escrows still hold, cash in hand is never refused, with a forecast or without |
| BatchRead.PostCutoffActuals | app/modules/cashflow/service.py:2472-2544 | Each pool holds the cash after the cutoff of its own month and cost code, phase and category, or type and direction, and a month with cash on no cost code has a pool of it |
| BatchRead.BatchActuals | app/modules/cashflow/batch.py:284-313 | The same pools, with an entry also for a month whose unattributed cash is nothing |
| BatchRead.BatchAnswersAsTheOwner | app/modules/cashflow/batch.py:284-314 | From either read every forecast line is left with the same remainder |
| BatchRead.PeakDeficit | app/modules/cashflow/calculator.py:148-170 | The first month that reaches the lowest closing, the shortfall there, and a month only if there is one |
| BatchRead.ReadHorizon | app/modules/cashflow/batch.py:57-85 | Of the months from the cutoff's to the end's and no others: the lowest closing and the earliest month that has it, what it is short, and the first month short of anything; unavailable exactly when refused or none is inside |
| BatchRead.HorizonAgreesWithPeak | app/modules/cashflow/batch.py:74-85 | The low point and peak are the minimum and deficit of the calculator, and its deficit month whenever there is one |
| ForecastReadiness.ChosenDate | app/modules/cashflow/service.py:448-472 | A triggered instalment falls on its actual date and an awaiting one on its forecast date; failing those the contractual date, then the forecast, then the actual, and none only if all three are missing |
| ForecastReadiness.SnapshotIsWhole | app/modules/cashflow/service.py:475-516 | With nothing unplaced the snapshot carries every instalment and every cent |
| ForecastReadiness.SnapshotFreezes | app/modules/cashflow/service.py:475-516 | A snapshot holds each instalment of the schedule that can be placed as often as the schedule does, on its own date with its plan, sale and amount, and nothing else |
| ForecastReadiness.ConstructionReconciliation | app/modules/cashflow/service.py:654-736 | All checks pass exactly when every pinned code is covered and totals its remaining cost, and every other code schedules nothing |
| ForecastReadiness.ReconciledTotals | app/modules/cashflow/service.py:634-736 | A schedule that reconciles code by code schedules exactly the whole remaining cost |
| ForecastLadder.EveryRunIsSound | app/modules/cashflow/service.py:321-1226 | On every run: numbers count up without gaps, one version at most is open and one in force, and each carries the stamps of its rung and lines of one cell each inside its horizon |
| ForecastLadder.EveryGateReconciled | app/modules/cashflow/service.py:739-1079 | On every run each stamp of a version was given by an accepted act, and the lines, as they still are, reconcile exactly to the pinned construction forecast as that act read it |
| ForecastLadder.InForceReconcilesExactlyWhen | app/modules/cashflow/service.py:654-736 | What has been put in force was activated by an accepted act, as its stamp says, and reconciles to a later reading of its pin exactly when that reading asks the same of each code as the one that act saw |
| EditedPin.AnEditedPinNoLongerReconciles | app/modules/cashflow/service.py:602-631 | Five accepted acts put in force a forecast that named a construction draft while none was in force; its lines reconcile to the draft as read and not to the draft as edited |
| ForecastLadder.HistoryIsKept | app/modules/cashflow/service.py:519-559 | Between any two moments of a run: pins never move, lines are frozen out of draft, the snapshot is frozen once approved, approval stamps survive withdrawal, and no version climbs back |
| ForecastLadder.ApprovalsAreIndependent | app/modules/cashflow/permissions.py:219-224 | On every run, a version approved by its own submitter was approved, by an accepted act, by that person as master administrator |
| ForecastLadder.OneStepFreesTheSlot | app/modules/cashflow/service.py:905-1024 | Whatever has happened to the sources, one step by the preparer of a draft, or by anybody but the submitter after, frees the open slot and rewrites nothing |
| ForecastLadder.AFreeSlotTakesANewForecast | app/modules/cashflow/service.py:321-435 | With the slot free, a well-formed forecast over a costed build is accepted, and pins what is in force |
| ForecastLadder.VersionsSuitTheReports | app/modules/cashflow/service.py:382-405 | Every version of every run has the bounds, lines and anchor month that the projections rely on |
| LadderTable.Ladder.RequireReady | app/modules/cashflow/service.py:739-814 | Ready exactly when both pins still govern, nothing is unplaced, and the construction schedule reconciles |
| LadderTable.Ladder.CreateForecast | app/modules/cashflow/service.py:321-435 | Accepted exactly on the horizon, free slot, pin and openings written out; adds one numbered draft with those bounds and pins, no line, no stamp and the schedule as read |
| LadderTable.Ladder.SubmitForecast | app/modules/cashflow/service.py:822-847 | Submits a ready draft, stamping who and when |
| LadderTable.Ladder.ApproveForecast | app/modules/cashflow/service.py:850-892 | Approves a ready submitted version by somebody other than its submitter |
| LadderTable.Ladder.RejectForecast | app/modules/cashflow/service.py:905-964 | Closes a submitted or approved version, keeping its approval |
| LadderTable.Ladder.DiscardForecast | app/modules/cashflow/service.py:967-1024 | Closes a draft, keeping what it carried |
| LadderTable.Ladder.ActivateForecast | app/modules/cashflow/service.py:1027-1079 | The approved, ready version is alone in force, what was in force is superseded at the same instant, and nothing else changes |
| LadderTable.Ladder.SetForecastLine | app/modules/cashflow/service.py:1096-1184 | In a draft only, inside its horizon and with a category that suits its kind: afterwards exactly one line of the cell exists, with the amount asked and the direction its kind fixes, and every other line is as it was |
| LadderTable.Ladder.RemoveForecastLine | app/modules/cashflow/service.py:1210-1226 | In a draft only: afterwards no line of that id exists and all the others stand in their order |
| LadderTable.Ladder.RefreshCustomerSnapshot | app/modules/cashflow/service.py:519-559 | Of a draft or submitted version only: the snapshot carries each instalment of the schedule read, and nothing else changes |
| LadderTable.AcceptedExactlyWhen | app/modules/cashflow/service.py:321-1226 | Each act is accepted exactly on conditions written out: pins still governing, an instalment placed, codes scheduled to the cent, rung and actor; the submitter's own approval or rejection is forbidden |
| LadderTable.EveryActDoesWhatItSays | app/modules/cashflow/service.py:321-1226 | Each act of every run, if accepted, does what it says to the version it names and keeps every other, and if refused does nothing |
| BatchClaim.EveryRunIsOrderly | scripts/migration/batch.py:197-237 | In every interleaving, locks are held by one session, each claim is a committed session, and what is durable of a session is all it wrote or nothing |
| BatchClaim.EachBatchIsClaimedOnce | scripts/migration/batch.py:162-193 | In every interleaving each batch id has at most one committed claim, and none while a session is applying it |
| BatchClaim.ClaimedOnceExactlyWhen | scripts/migration/batch.py:162-193 | That holds for every interleaving exactly when the manifests sharing a batch id name the same project |
| BatchClaim.FailureLeavesNothing | scripts/migration/batch.py:231-236 | A rolled-back attempt leaves no claim, no row and a free lock |
| BatchClaim.RetryIsAllowedUnlessApplied | scripts/migration/batch.py:103-193 | With its lock free, a session commits if nothing committed claims its batch, and is refused unchanged if something does |
| BatchClaim.OpeningDecides | scripts/migration/batch.py:174-193 | The duplicate check under the lock decides between a claim and a refusal that still holds the lock |
| BatchClaim.Cutover.Enter | scripts/migration/batch.py:223-229 | Refuses a session with pending work, then an unknown project, and changes nothing else |
| BatchClaim.Cutover.LockProject | scripts/migration/batch.py:174-175 | Takes the project lock, or waits while another session holds it |
| BatchClaim.Cutover.ClaimBatch | scripts/migration/batch.py:177-193 | Refuses exactly a batch already claimed by a committed session |
| BatchClaim.Cutover.Finish | scripts/migration/batch.py:231-237 | Claim and rows become durable together, or a failure leaves tables as they were and frees the lock |
| Discounting.WorthMoreAtLowerRates | app/modules/cashflow/calculator.py:269-283 | A series that goes in and then comes back, worth zero or more at one rate, is worth strictly more at every lower rate |
| InternalRate.KeepsFallingExactlyWhen | app/modules/cashflow/calculator.py:280-282 | The value of a series with one turn is strictly decreasing over all rates above -100% exactly when no flow after the first is negative |
| Discounting.ValueNeedNotKeepFalling | app/modules/cashflow/calculator.py:280-282 | As -1, -1, 1 is not: it is worth more at a rate of 300% than at 100% |
| Discounting.HighRatesCost | app/modules/cashflow/calculator.py:269-283 | At a rate above twice the largest flow, a series that goes in and then comes back is worth less than nothing |
| Discounting.LowRatesPay | app/modules/cashflow/calculator.py:269-283 | At a rate near enough to -100% it is worth a cent or more |
| Discounting.TwoChangesTwoRates | app/modules/cashflow/calculator.py:284-287 | With two sign changes two rates can both satisfy the equation |
| Discounting.FirstAndRest | app/modules/cashflow/calculator.py:193-202 | A series is its first flow and the rest of it a period later |
| InternalRate.OneTurn | app/modules/cashflow/calculator.py:263-266 | One sign change, zeros ignored, means one turn from one side to the other |
| InternalRate.MoreThanOneChangeExactlyWhen | app/modules/cashflow/calculator.py:263-287 | The count of sign changes passes one exactly where three periods, in order, move money one way, the other way and the first way again |
| InternalRate.TheRootIsTheCrossing | app/modules/cashflow/calculator.py:269-283 | An exact root is the only one over all rates above -100%, with one strict sign below it and the other above |
| InternalRate.EveryOneTurnCrosses | app/modules/cashflow/calculator.py:280-283 | Every series with money both ways and one change crosses zero: above it at some rate, below it at a higher one, and on one side only outside the two |
| InternalRate.TheCrossingNarrows | app/modules/cashflow/calculator.py:310-323 | Halving any such interval n times leaves the crossing in one narrower by 2 to the n |
| InternalRate.TheCrossingIsFoundToAnyScale | app/modules/cashflow/calculator.py:310-323 | However fine the scale, the crossing is found on it |
| InternalRate.InternalRateOfReturn | app/modules/cashflow/calculator.py:269-327 | Each of the four refusals exactly when the source gives it; no root in the searched range exactly when the crossing is outside it; otherwise a rate beside a bracket no wider than the tolerance that holds the crossing, after at most 27 halvings |
| InternalRate.AnswersAreNear | app/modules/cashflow/calculator.py:310-327 | The rate is within 0.00000055 of the root: half the tolerance and half a quantum |
| InternalRate.TwentySevenHalvings | app/modules/cashflow/calculator.py:237-246 | Twenty-seven halvings bring the range under the tolerance and twenty-six do not |
| Returns.NetPresentValue | app/modules/cashflow/calculator.py:205-225 | No value at -100% or lower; otherwise within half a cent for each period after the first of the exact value |
| Returns.NoDiscountIsTheTotal | app/modules/cashflow/calculator.py:205-225 | At no discount the value is the total, to the cent |
| Returns.EachPeriodRoundsAlone | app/modules/cashflow/calculator.py:205-225 | A period added at the end adds its own flow, discounted and rounded to the cent by itself |
| Returns.EquityFlowsFor | app/modules/cashflow/service.py:3458-3479 | One figure a month: the equity paid out in it less the equity paid in, of what has moved or is planned for a month not over by the cutoff |
| Returns.SeriesIsTheBridgesEquity | app/modules/cashflow/service.py:3430-3479 | Each month of the series is the equity cash the bridge counts in it, with its sign turned |
| Returns.SeriesTotalsTheEquityNet | app/modules/cashflow/service.py:3522-3540 | The series totals what was distributed less what was contributed |
| Returns.ProjectAndFinancingAreAllTheCash | app/modules/cashflow/service.py:3509-3520 | Project flows and net financing together are all the cash the bridge moved from its first opening to its last closing |
| Returns.FlowsAreTheirRows | app/modules/cashflow/service.py:3509-3520 | A month's project flow is what its customer, refund and cost rows earn, and its net financing what its financing rows raise |
| Journal.RefusedExactlyWhen | scripts/migration/journal.py:77-130 | A line is refused exactly for a key outside the allowlist or a value that is empty, too long or holds a forbidden character |
| Journal.WhatIsWrittenReadsBack | scripts/migration/journal.py:107-130 | Every line written reads back as exactly the fields the record shows |
| Journal.OneLineOneRecord | scripts/migration/journal.py:107-130 | Two records with one line show the same fields and values |
| Journal.NoLineHoldsTheForbidden | scripts/migration/journal.py:71-106 | No line holds a tab, a line break, an @ or a quotation mark, so none forges a second entry |

## Left out

- Bridge.PositionsFromRows: years are unbounded integers, where Python's dates stop at 1 and 9999.
- FundingWindows.AllWindows: window lengths are natural numbers; the source would also accept a negative one.
- RemainingForecast.RemainingForecastAmounts: unattributed pools are taken to be non-negative, as payments are, and pool keys may be visited in any order, since the source's sort of keys compares a phase id with no phase.
- EscrowBridge.BridgeOfLedger: the opening restricted cash of a forecast is taken to be non-negative, as its table requires.
- InternalRate.InternalRateOfReturn: values are exact reals, not the 28-digit decimals of the original; the crossing is proved and found to any scale, but that one exact real number is worth zero is not stated.
- Returns.NetPresentValue: powers and quotients are exact, and rounding enters once a period.
- BatchClaim.EveryRunIsOrderly: a session is one project lock, one read and a list of writes; reads by the body, savepoints and a commit that itself fails are not modelled, nor are hashes and files of the manifest.
- Collections, construction and payment plans: their rows enter as inputs with non-negative amounts and unique ids; VAT, allocations, write-offs and invoice attribution are not modelled.
- Receipt reversal keeps only what escrow needs: its status and stamps.
- Currency relabelling, currency mismatch refusals in batch reads, and exchange rates.
- Corrections of pre-launch expenses, reference numbers, notes, reasons and audit events.
- Roles, scopes and authentication: only "a different user, or the master administrator" is kept.
- HTTP routes, schemas, CSV rendering, SQL text and indexes; a lock is a mutex and a table a sequence.
- Forecast accuracy and variance: one subtraction and one division per row.
- Identifiers are integers, so where the source orders by the text of an id the model orders by the number.
- Discovery and collection of test files, and the selection of tests from changed paths: only the assignment and the cycle search are modelled.
- The aging bands and status views of the collections ledger: single-branch facts.
