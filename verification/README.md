# An account ledger that must agree with its broker

A trading agent keeps its own ledger of one account: an append-only log of
fills, cash adjustments, corrections and order records, from which positions,
lots, settled cash, disposals and realised gain are recomputed by separate
replays. It polls the broker, records what it can explain, quarantines what it
cannot, seeds its opening balance once, and halts if its cash and the broker's
ever differ. Around it stand single-use approval tokens, an audit chain, a
day-trade guard, a paid analysis behind a budget, and a duration format. This
project models that behaviour and proves what it is meant to guarantee.

## How it is organised

- `Money`, `MarketCalendar`, `NyseCalendar`: cent rounding, the three walks over
  trading sessions, settlement instants, and the closure table the system ships.
- `LotSelection`, `Holding`: the broker's FIFO order and the gate on what may be
  sold.
- `LedgerBooks` says what each figure means as a function of the log;
  `AccountLedger` holds the class whose loops and dicts compute it;
  `LedgerFacts` proves what the replays promise each other.
- `LedgerFile` and `LedgerStores`, `Quarantine` and `ExecutionQuarantine`: files
  as sequences of rows, the classes that write and reload them.
- `PollLoop`, `FillSync`, `FillAccounting`, `CashEvents`, `OrderClosing`,
  `AccountWiring`: the polls and the seeding decision.
- `Tally`, `AccountRun`, `AccountInvariant`, `CashAgreement`, `PositionAgreement`,
  `AccountCycle`: the account beside a model broker, every run of it, and the cash
  and position theorems.
- `ApprovalTokens`, `ApprovalRequests`, `ApprovalStores`, `ApprovalBridge`,
  `ApprovalExecution`, `ApprovalRun`, `ApprovalSubmission`, `Earmarks`: an
  approval from request to broker, across crashes.
- `AuditLog`, `DayTrade`, `Costs`, `Extractions`, `Analysis`, `Durations`, and
  `Text`, the white space two of them share.

Objects the system mutates are classes with the same fields; each of their
methods is tied to a function on values (`EntryWritten`, `SyncOne`, `Mint`,
`Execution`, ...), and the theorems over runs are about those functions.

## The main results

**Cash.** `CashAgreement.CashIdentity` gives, for every state any run can reach
once seeded, and every instant, the exact difference between local and broker
settled cash:

    local = broker - Outstanding - LateRejected + Doubled + Repairs

`Outstanding` is what the broker posted since the seed and the ledger lacks;
after a complete cycle it is precisely the pending and rejected events.
`LateRejected` is the proceeds of sales made before the seed, rejected, and
settled after it. `Doubled` is what the raw seeding branch counts twice: the
adjustments already on the ledger when it runs without fills. `Repairs` is the
operator's corrections. A run mixes postings by the broker, the passing of time,
cycles stopped after any row of any file, operator decisions, staged orders,
corrections and restarts; the broker starts from any amount of cash.

**Positions.** `PositionAgreement.PositionIdentity` gives the same for quantities,
symbol by symbol: local is the broker's less the executions since the seed that
are not on the ledger, less what the seed never took over. That last term is
nothing for a symbol whose opening position was written; for any other it is all
the broker held of it before its first execution, and what was rejected before
the seed, for good (`NeverSeededIsForever`).

**Crashes.** A poll stopped anywhere and repeated at a later clock converges to one
uninterrupted pass at that clock, up to when an item was put aside
(`CrashAndRetryConverges`). A request's order reaches the broker at most once
(`SingleSpend`). Deaths fall inside polls, closings, seedings, submissions and
analysis calls, not only between them.

**Where a plain claim is false, the exact condition is proved.** Seeding cash is
right if and only if fills are on record or the earlier adjustments cancel
(`SeedIsRightIff`, `AgreesExactlyWhen`, with `FeeCountedTwice` as the concrete
run). A seeded account is reconciled if and only if its seed is not negative and
every fill settles within the calendar; a negative seed is for good
(`BuildsExactlyWhen`, `NegativeSeedIsForever`). Positions are seeded if and only if
the seeded ledger holds nothing, and then as far as the first start lives
(`PositionsWrittenExactlyWhen`, `PositionsAgreeExactlyWhen`,
`CutFirstStartLosesPositions`). A key is paid for again if and only if a death fell
before the cache row (`PayOnce`, `DeathBeforeCachePaysTwice`). A recorded day trade
keeps every window within the limit if and only if no window holding it is full
(`RecordingIsSafeIff`, `BackwardsEscapes`). A minted token lets the staged order
through its bounds if and only if nothing was really modified
(`OnlyUnmodifiedTokensExecute`). A copy of a token taken before it was spent
contacts the broker exactly if it would have without the spending
(`StaleCopySpendsAgain`, `TwoMintsContactTwice`), so `SingleSpend` is about
submissions that mint and execute in one go, as the operator's command does. An
audit row appended after a crash is loaded back if and only if the crash left
nothing of the row before it, and `AppendsBehindCut` says what is lost for every
cut, a missing line break included. A restart frees the earmark of an unspent token
in every case (`RestartFreesUnspentTokens`).

## Hypotheses

- The model broker posts each execution and activity once under its own id,
  reports all of them faithfully, and never reports an activity created in the
  future. Its settled cash moves at once for a purchase and at settlement for a
  sale, in whole cents. Fills, orders, activities and the account are read against
  one broker state within a cycle. For positions, every cycle is told what the
  broker holds, some first holding and what its executions added and took: each
  position it lists is at the quantity held, and what it does not list is nothing.
- One process writes the stores at a time.
- `Injective(digest)` stands for SHA-256, and `JsonRows(codec)` for what single-line
  JSON objects give: a row decodes to itself, no proper prefix of a row parses,
  and neither does a row, cut or whole, with another behind it on its line. Other
  files are sequences of rows.
- `Chronological(market)` says that Eastern dates follow instants and that a
  session opens on its own date; it is used for the order of settlements only.

## Where the code and its own text differ

The code is what is modelled.

- `agent/execution_quarantine.py:67` says that a load replays rows through the
  write methods; the load (`agent/execution_quarantine.py:293-340`) changes the
  dicts only and writes nothing.
- `agent/approval_execution.py:60-66` and `:474-484` name invalidating an approved
  request as the operator's remedy; `agent/approval_request_store.py:272-276`
  refuses to invalidate any decided request.
- `agent/approval_bridge.py:347-353` says a reconstructed token is always
  unconsumed; it carries whatever the durable snapshot says, spent once recorded.

## Model

| member | source | states |
|---|---|---|
| Money.RoundHalfEven | agent/ledger.py:224-232 | nearest integer, a tie to the even one: the two clauses leave one candidate |
| Money.RoundHalfEvenUnique | agent/ledger.py:224-232 | whatever is nearest with ties to even is what the rounding returns |
| Money.CashNotional | agent/ledger.py:224-232 | the posted amount is within half a cent of qty times price |
| Money.CashNotionalOfWholeCents | agent/ledger.py:224-232 | an amount already in whole cents is posted unchanged |
| MarketCalendar.SettlementDate | agent/market_calendar.py:379-399 | the while loop ends on a real measure and answers or raises what the forward walk does |
| MarketCalendar.NextTradingDay | agent/market_calendar.py:357-376 | succeeds exactly if a later covered session exists; the answer is a session and none lies between |
| MarketCalendar.TrailingSessions | agent/market_calendar.py:333-354 | the backward loop answers or raises what the backward walk does, oldest first |
| MarketCalendar.WalkExact | agent/market_calendar.py:379-399 | a forward walk of n ends on d exactly if d is a session and (a, d] holds n sessions; it fails exactly if the coverage holds fewer |
| MarketCalendar.TrailingExact | agent/market_calendar.py:333-354 | the window is ascending, has n members, and holds exactly the sessions with at most n sessions from them to the query date |
| MarketCalendar.SettlementExact | agent/market_calendar.py:379-399 | the settlement date is the trading day with exactly t sessions after the fill; it is refused exactly if coverage ends first |
| MarketCalendar.SettlementComposes | agent/market_calendar.py:379-399 | settling t sessions and then u more is settling t + u, errors included |
| MarketCalendar.SettlementStrictlyIncreasing | agent/market_calendar.py:379-399 | later fills, and longer cycles, settle strictly later, and settle whenever the later one does |
| MarketCalendar.TrailingUndoesSettlement | agent/market_calendar.py:333-399 | d is where f settles if and only if d is a session and the window of t + 1 sessions ending on d starts at f |
| MarketCalendar.WindowsNest | agent/market_calendar.py:333-354 | a later query's window holds no session up to s that s's own window lacks |
| NyseCalendar.SettlesWithinFourDays | agent/market_calendar.py:164-186 | under the shipped closure table a T+1 fill on any session settles within four days, except on the last session it covers, where the calendar's exception is raised |
| NyseCalendar.GoodFridayFillSettlesOnMonday | agent/market_calendar.py:164-186 | the bound is reached: a fill on 2 April 2026 settles on 6 April |
| NyseCalendar.ClosuresAreCoveredWeekdays | agent/market_calendar.py:164-186 | every closure listed is a weekday inside the covered years, two in a row at least a week apart |
| MarketCalendar.SettlementFollowsFill | agent/market_calendar.py:402-414 | a fill settles strictly after it is made and never before an earlier fill does |
| LotSelection.SortSorts | agent/lot_selection.py:149-168 | the FIFO order is a permutation, ascending in (opened_at, lot_id) |
| LotSelection.OrderedUnique | agent/lot_selection.py:149-168 | two ascending arrangements of lots with distinct keys are the same list |
| LotSelection.SortIgnoresInputOrder | agent/lot_selection.py:149-168 | the disposal order does not depend on the order the lots came in |
| Holding.SellableQty | agent/holding.py:155-190 | the loop's sum is the leading settled and hold-eligible run of the broker's queue; other policies are refused |
| Holding.BlockedQty | agent/holding.py:193-202 | sellable plus blocked is everything open of the symbol |
| Holding.DisposedAllocates | agent/holding.py:155-190 | disposing q units in queue order takes q in all, never more than a lot holds, each lot emptied before the next is touched |
| Holding.FifoGateExact | agent/holding.py:155-202 | for 0 < q <= total open, q fits the sellable quantity if and only if disposing q in broker order touches only released lots |
| Holding.LeadingBounds | agent/holding.py:155-190 | sellable lies between nothing and the total, and never falls as time passes |
| Holding.SellableIgnoresInputOrder | agent/holding.py:155-190 | the gate's answer does not depend on the order the lots came in |
| AccountLedger.Ledger.constructor | agent/ledger.py:492-513 | an empty ledger over the given opening layer |
| AccountLedger.Ledger.RecordFill | agent/ledger.py:613-670 | accepts, replays or refuses exactly as the verdict on the record says, and a refusal changes nothing |
| AccountLedger.Ledger.CheckFill | agent/ledger.py:613-670 | the checks, made through the id dict, are the verdict on the whole log |
| AccountLedger.Ledger.RecordOrderStatus | agent/ledger.py:672-679 | appends, or refuses a foreign account or unknown status and changes nothing |
| AccountLedger.Ledger.RecordCashAdjustment | agent/ledger.py:568-588 | appends once; an identical repeat is silent, a different one is refused |
| AccountLedger.Ledger.RecordOpeningBalanceCorrection | agent/ledger.py:590-611 | appends once; an identical repeat is silent, a different one is refused |
| AccountLedger.Ledger.SettledCash | agent/ledger.py:855-881 | one pass gives opening plus fills, adjustments and corrections, or the calendar's exception |
| AccountLedger.Ledger.UnsettledCash | agent/ledger.py:883-893 | one pass gives the proceeds of sales not settled yet, or the calendar's exception |
| AccountLedger.Ledger.ReplayLog | agent/ledger.py:690-759 | the dict-building loop computes, per lot, what was sold, for how much, and when last |
| AccountLedger.Ledger.Lots | agent/ledger.py:690-759 | one lot per buy, in order, with what remains at its buy price; raises exactly where the calendar does |
| AccountLedger.Ledger.ClosedLots | agent/ledger.py:761-794 | the lots with nothing left, in buy order, with their summed rounded proceeds and unrounded basis |
| AccountLedger.Ledger.Positions | agent/ledger.py:835-853 | the opening layer plus every open lot of this account |
| AccountLedger.Ledger.DisposalRecords | agent/ledger.py:796-833 | the forward replay over dicts gives one record per sale, each against the lots open just before it |
| AccountLedger.Ledger.ForwardReplay | agent/ledger.py:796-833 | the replayed remaining quantities stay those of the log before each sale, so the queue is the broker's |
| AccountLedger.Ledger.OpenOrderIds | agent/ledger.py:895-901 | exactly the orders whose latest record is OPEN |
| AccountLedger.Ledger.LatestOrderRecord | agent/ledger.py:903-914 | the last record of the order by insertion, or none |
| AccountLedger.FromRecords | agent/ledger.py:515-549 | replaying lists through the record methods gives the books those lists replay to, or the first refusal |
| LedgerBooks.RecordingKeepsBooksOk | agent/ledger.py:568-679 | every accepted record keeps the log one in which each entry was acceptable after those before it |
| LedgerBooks.ReplayRebuilds | agent/ledger.py:515-549 | replaying the records of any accepted ledger through the same checks is never refused and rebuilds it exactly |
| LedgerBooks.FillIdsDistinct | agent/ledger.py:613-670 | no fill id is ever on an accepted log twice |
| LedgerBooks.FillShapes | agent/ledger.py:613-670 | every accepted fill is this account's, a BUY or SELL of a positive quantity, a BUY under a known policy |
| LedgerBooks.BuyFound | agent/ledger.py:613-670 | a lot id names the one BUY that opened it |
| LedgerBooks.NeverOverdrawn | agent/ledger.py:613-670 | no lot is ever sold beyond what was bought, and a lot without a BUY has no sales |
| LedgerBooks.AllCame | agent/ledger.py:613-670 | read forward, every sale found its lot opened, of its own symbol, with enough left |
| LedgerFacts.SalesByLot | agent/ledger.py:690-794 | a sum over sales fill by fill equals the same sum reindexed lot by lot |
| LedgerFacts.PositionsConserve | agent/ledger.py:835-853 | per symbol, positions() - lot by lot, clamped, closed lots dropped - is opening plus bought minus sold over the raw log |
| LedgerFacts.QueueOfTheLedger | agent/ledger.py:690-759 | the broker's queue taken from lots(): every lot in it holds something, and together they hold what was bought and not sold |
| LedgerFacts.LedgerGateExact | agent/holding.py:155-202 | x > 0 units of a symbol fit the sellable quantity if and only if the log holds that many and disposing x in broker order touches only released lots |
| LedgerFacts.ClosedLotsAreTheEmptyLots | agent/ledger.py:690-794 | closed_lots() names a buy's lot if and only if lots() shows nothing remaining of it, and lots() calls it closed exactly then |
| LedgerFacts.RealisedGainExplainsCash | agent/ledger.py:761-881 | all closed, all settled, nothing adjusted: settled cash less opening is total realised P&L within half a cent per lot |
| LedgerFacts.CashIsPnlPlusRounding | agent/ledger.py:224-232 | that difference is exactly the rounding of the buys: proceeds cancel, posted against posted |
| LedgerFacts.SettledPlusUnsettled | agent/ledger.py:855-893 | the two cash walks split the sales: settled fills cash plus unsettled proceeds is every buy debited and every sale credited |
| LedgerFacts.DisposalNeverFallsBack | agent/ledger.py:796-833 | at every sale the open set of its symbol is not empty and holds the intended lot, and the broker's lot is at or before it in (opened_at, lot_id) |
| LedgerFacts.DisposalRecordOfSale | agent/ledger.py:796-833 | the record of a sale is found at that sale's place and names the head of the queue before it |
| LedgerFacts.DisposalCount | agent/ledger.py:796-833 | there are as many disposal records as sales |
| LedgerStores.LedgerStore.constructor | agent/ledger_store.py:237-265 | a new store is empty on file and in memory |
| LedgerStores.LedgerStore.WriteFill | agent/ledger_store.py:433-443 | validated before persisted: an accepted new fill is one row and one entry, a replay neither, a refusal changes nothing |
| LedgerStores.LedgerStore.WriteOrderRecord | agent/ledger_store.py:445-448 | an accepted record is one row and one entry; a refusal changes nothing |
| LedgerStores.LedgerStore.WriteCashAdjustment | agent/ledger_store.py:450-464 | an accepted new adjustment is one row and one entry; a repeat or a refusal changes nothing |
| LedgerStores.LedgerStore.WriteOpeningBalanceCorrection | agent/ledger_store.py:466-487 | an accepted new correction is one row and one entry; a repeat or a refusal changes nothing |
| LedgerStores.LedgerStore.WriteOpeningBalance | agent/ledger_store.py:267-302 | seeds once, refuses over fills, repeats silently with the same figure only |
| LedgerStores.LedgerStore.SeedOpeningBalanceFromBroker | agent/ledger_store.py:304-360 | seeds once with the broker's figure less the ledger's own effect so far |
| LedgerStores.LedgerStore.WriteOpeningPositions | agent/ledger_store.py:362-431 | one row per position, refused across accounts, over a non-zero derived holding, or over different positions |
| LedgerStores.LedgerStore.KnownCashAdjustmentIds | agent/ledger_store.py:500-505 | exactly the ids on the record |
| LedgerStores.LedgerStore.ToLedger | agent/ledger_store.py:524-548 | refuses an unseeded store and a negative opening; otherwise nothing recorded is refused or lost, and the rebuilt ledger keeps owner, market and lot-selection policy |
| LedgerStores.Open | agent/ledger_store.py:564-604 | loading row by row through the ledger's checks is the replay of the rows, or its first refusal |
| LedgerStores.LoadRow | agent/ledger_store.py:564-604 | one row of each kind, applied or refused as the replay says |
| LedgerFile.WriteKeepsFaithful | agent/ledger_store.py:267-487 | every accepted write keeps the file one that reloads to the memory, and the narrow baseline read in agreement |
| LedgerFile.ReloadRebuilds | agent/ledger_store.py:267-604 | after any run of accepted and refused writes, reloading never raises and rebuilds exactly the memory |
| LedgerFile.OpeningIsForever | agent/ledger_store.py:267-360 | over any run of writes the first seed's figure, its instant, and every row and fill on file stay |
| LedgerFile.EstablishedAtAppend | agent/ledger_store.py:606-633 | the narrow read finds the first opening row and no later one |
| Quarantine.QuarantineStore.Put | agent/execution_quarantine.py:150-172 | first report wins; a repeat is silent, a foreign account refused |
| Quarantine.QuarantineStore.Resolve | agent/execution_quarantine.py:229-243 | one decision ever: an identical one is silent, a different one refused, an unknown item refused |
| Quarantine.QuarantineStore.PendingCount | agent/execution_quarantine.py:255-265 | the loop's count plus the decisions is the items put aside, and it is nothing exactly when every item has its decision |
| Quarantine.Open | agent/execution_quarantine.py:284-393 | the read-only load gives the replay of the rows, or its first refusal, and writes nothing |
| Quarantine.ReloadRebuilds | agent/execution_quarantine.py:284-393 | after any run of accepted and refused writes, reloading never raises and rebuilds exactly the dicts |
| Quarantine.WriteKeepsFaithful | agent/cash_event_quarantine.py:324-429 | every accepted write keeps the file one that reloads to the dicts, for either store |
| Quarantine.DecisionsAreForever | agent/execution_quarantine.py:150-243 | no later write replaces an item or withdraws or changes a decision |
| Quarantine.RepeatsChangeNothing | agent/execution_quarantine.py:284-393 | rows restated later in any number and order change nothing on load |
| Quarantine.CutKeepsDecisions | agent/execution_quarantine.py:277-393 | a file cut anywhere after its last decision row still loads and holds every decision |
| ExecutionQuarantine.PutExecution | agent/execution_quarantine.py:150-172 | an execution is put aside once, whole; a repeat returns the record of the first report |
| ExecutionQuarantine.AdmitExecution | agent/execution_quarantine.py:174-204 | decides by the one-decision rule: admits only with the field its side needs and no other, leaves it ADMITTED or the store unchanged |
| ExecutionQuarantine.RejectExecution | agent/execution_quarantine.py:206-218 | rejects anything quarantined unless already decided otherwise |
| PollLoop.LaterRetryConverges | agent/fill_sync.py:174-302 | for any poll step that deals with its event for good and treats alike what a later clock cannot tell apart: stop after any prefix, poll again later, and the outcome is one later pass's |
| PollLoop.NothingNew | agent/fill_sync.py:181-185 | a poll over events all dealt with writes nothing |
| FillSync.SyncFills | agent/fill_sync.py:155-302 | the loop over two stores is the pass over the report, stopping at the first exception; it returns what it appended |
| FillSync.SyncExecution | agent/fill_sync.py:181-300 | one execution recorded, put aside or passed over by the code's branches, or refused with both stores unchanged |
| FillSync.StepIsIdempotent | agent/fill_sync.py:181-300 | a step leaves its execution recorded, pending or rejected; that stays so, and repeating it does nothing |
| FillSync.CrashAndRetryConverges | agent/fill_sync.py:174-302 | stopping after any prefix and polling again at any later clock gives the refusal, ledger, ledger file and decisions of one uninterrupted pass then, and its quarantine in memory and on file up to when an item was put aside; at the same instant nothing differs |
| FillSync.RepeatedPollWritesNothing | agent/fill_sync.py:181-185 | the same report, now or later, writes nothing |
| FillAccounting.RunKeepsAccounted | agent/fill_sync.py:155-302 | in any run of polls, decisions, staged orders and restarts: fills are the broker's executions, and a recorded one that was ever put aside is admitted |
| FillAccounting.KnownIsRecordedOnce | agent/fill_sync.py:181-185 | an execution known to the ledger is on it exactly once, under its own qty and price |
| FillAccounting.EveryExecutionIsAccountedFor | agent/fill_sync.py:181-300 | after every returning poll each reported execution is exactly one of recorded once, PENDING, REJECTED; recorded and ever quarantined means ADMITTED |
| OrderClosing.CloseTerminalOrders | agent/fill_sync.py:305-353 | asks about exactly the open orders, in id order, and leaves what the pass over them leaves |
| OrderClosing.ClosesExactlyTheConfirmed | agent/fill_sync.py:305-353 | afterwards an order is open if and only if it was open and the broker did not confirm it finished; nothing else changed |
| OrderClosing.SecondPassWritesNothing | agent/fill_sync.py:328-334 | a second call finds nothing to close |
| CashEvents.SyncCashEvents | agent/cash_events.py:231-317 | the loop over two stores is the pass over the report, stopping at the first exception; it returns what it appended |
| CashEvents.SyncActivity | agent/cash_events.py:247-315 | one activity applied, put aside or passed over by the code's branches, the auto-admission guarded by the baseline |
| CashEvents.ReasonOrRule | agent/cash_events.py:200-228 | a fee has a disqualifying reason exactly if the automatic rule does not take it |
| CashEvents.DecideCashEvent | scripts/run_agent.py:907-962 | an admission inside the baseline or without a posting instant is refused before the store is asked; otherwise the store decides |
| CashEvents.StepIsIdempotent | agent/cash_events.py:247-315 | a step leaves its activity applied, pending or rejected; that stays so, and repeating it does nothing |
| CashEvents.CrashAndRetryConverges | agent/cash_events.py:247-317 | stopping after any prefix and polling again at any other clock gives the refusal, ledger, ledger file and decisions of one uninterrupted pass then, and its quarantine up to when an item was put aside; at the same instant nothing differs |
| CashEvents.RepeatedPollWritesNothing | agent/cash_events.py:250-251 | the same report, at any instant, writes nothing |
| AccountWiring.BuildAccountReconciliation | agent/account_wiring.py:159-270 | refuses any foreign part; seeds as the three-way rule says; then reports the ledger's own figures or the first failure |
| AccountWiring.SeedStore | agent/account_wiring.py:198-256 | cash first, then positions over nothing, nothing while an execution is pending |
| AccountWiring.SeedCash | agent/account_wiring.py:215-234 | the backdating branch over fills, the raw branch otherwise |
| AccountWiring.PositionsSeededWhenDue | agent/account_wiring.py:237-256 | positions are written in the one call that seeds cash, and exactly if the seeded ledger answers that it holds nothing and every position is this account's |
| AccountWiring.CutIsABeginning | agent/ledger_store.py:424-431 | a seeding that dies among its position rows has written a beginning of what the whole one writes, and all of it once every row is out |
| AccountWiring.ReadsExactlyWhen | agent/ledger_store.py:524-548 | a seeded ledger is read if and only if its opening is not negative and every fill settles within the calendar; otherwise which of the two is raised |
| AccountWiring.SeedingFrame | agent/account_wiring.py:198-256 | seeding changes the opening layer alone, and a seeded store not at all |
| AccountWiring.SeedIsRightIff | agent/account_wiring.py:215-234 | the ledger shows the broker's figure after seeding if and only if fills are on record or adjustments and corrections add up to nothing |
| AccountCycle.RunCycle | agent/run_loop.py:412-443 | fill poll, order closing, cash poll and reconciliation on the stores leave exactly what the run model's cycle leaves; it answers if and only if every stage does, each failing exactly where the model does |
| AccountInvariant.FillsAreCounted | agent/ledger.py:855-881 | the ledger's fold over fills is the broker's sum over the executions on the ledger, at any instant |
| AccountInvariant.AdjustmentsAreCounted | agent/ledger.py:855-881 | the fold over adjustments is the sum over the activities on the ledger |
| AccountInvariant.PolledIsFrozen | agent/account_wiring.py:198-234 | with everything polled and nothing pending, what is off the ledger is rejected, or inside the baseline, for good |
| AccountInvariant.SeedFigureIsRight | agent/ledger_store.py:304-360 | the figure either branch writes, in terms of what the broker had posted |
| AccountInvariant.CycleKeeps | agent/run_loop.py:412-443 | a cycle cut anywhere, in either poll, among the closings, between the seeds or among the position rows, keeps the whole account sound |
| AccountInvariant.OrdersAfterACycle | agent/run_loop.py:412-443 | a cycle that gets through its polls leaves open exactly the orders that were open and that the broker did not confirm finished |
| AccountInvariant.CashDecidedKeeps | agent/cash_event_quarantine.py:458-513 | no operator decision thaws an event the baseline already reflects |
| AccountInvariant.RestartChangesNothing | agent/ledger_store.py:564-604 | reloading all three files gives back the state in memory |
| AccountInvariant.RunIsSound | agent/run_loop.py:412-443 | every run of postings, cycles cut anywhere, decisions, corrections and restarts keeps the account sound |
| CashAgreement.CashIdentity | agent/ledger.py:855-881 | in every seeded state, at every instant: local settled cash is the broker's less what is outstanding and late-settled, plus what was doubled and repaired |
| CashAgreement.CashAfterACycle | agent/run_loop.py:412-443 | after any cycle through both polls every posted event is on the ledger or withheld, and the gap is the pending and rejected events since the seed, up to three named terms |
| CashAgreement.AgreesExactlyWhen | agent/account_wiring.py:215-234 | with nothing withheld or late, local equals broker if and only if the seed was backdated over fills or the adjustments before it cancel |
| CashAgreement.SeedsOverNothingPending | agent/account_wiring.py:214-234 | in a run, seeding happens in a cycle with nothing pending, every execution posted by then recorded or rejected |
| CashAgreement.SeedIsForever | agent/account_wiring.py:198-234 | no event changes the seed or the opening balance |
| CashAgreement.NothingOldComesBack | agent/cash_event_quarantine.py:458-513 | however the run goes on, an event from before the seed is on the ledger exactly if it was then: nothing is counted twice later |
| CashAgreement.BuildsExactlyWhen | agent/account_wiring.py:159-270 | in any run a seeded account's reconciliation is built, with the cash of the identity, if and only if the seed is not negative and every fill settles within the calendar |
| CashAgreement.NegativeSeedIsForever | agent/ledger_store.py:524-548 | once a negative opening is seeded, no reconciliation is built again, whatever happens |
| CashAgreement.NegativeFigureIsSeeded | agent/account_wiring.py:215-234 | the concrete family: a first start beside a broker figure of minus one seeds it, and every continuation is refused |
| PositionAgreement.QtyIsCounted | agent/ledger.py:835-853 | bought less sold on the ledger is the broker's sum over the executions on the ledger |
| PositionAgreement.StepKeepsPositions | agent/account_wiring.py:198-256 | whatever happens, deaths among the position rows included, an opening position is what the broker held at the seed, over fills that came to nothing |
| PositionAgreement.PositionIdentity | agent/ledger.py:835-853 | in every seeded state, symbol by symbol: local quantity is the broker's less the executions since the seed not on the ledger, less what the seed never took over of that symbol |
| PositionAgreement.PositionsAfterACycle | agent/run_loop.py:412-443 | after any cycle through its polls the difference is the pending and rejected executions since the seed and what the seed never took over |
| PositionAgreement.PositionsAgreeExactlyWhen | agent/account_wiring.py:237-256 | with nothing outstanding, local equals broker in a symbol if and only if its opening position was written, or what was held before and what was rejected before the seed cancel |
| PositionAgreement.PositionsWrittenExactlyWhen | agent/account_wiring.py:198-256 | the cycle that seeds cash writes the broker's positions in order, as far as it lives, if and only if the seeded ledger answers that it holds nothing |
| PositionAgreement.WholeStartTakesAllOver | agent/account_wiring.py:237-256 | a first start that is due and gets through its position rows leaves nothing of any symbol behind |
| PositionAgreement.NeverSeededIsForever | agent/account_wiring.py:198-256 | what the seed did not take over of a symbol stays the same in every later state |
| PositionAgreement.OpeningPositionsAreForever | agent/ledger_store.py:362-431 | no event after the seed writes, changes or drops opening positions |
| PositionAgreement.CutFirstStartLosesPositions | agent/account_wiring.py:198-256 | the concrete runs: a first start that dies after k of two position rows leaves the others off the ledger for good |
| CashAgreement.FeeCountedTwice | agent/cash_events.py:285-299 | the concrete run: a fee auto-admitted before any baseline makes local cash five cents low |
| ApprovalTokens.ApprovalToken.Consume | agent/approval.py:108-140 | the four guards in order, then spent; a refusal changes nothing |
| ApprovalTokens.ApprovalService.Approve | agent/approval.py:266-349 | a token id is issued once; a new token is added last and no other touched |
| ApprovalTokens.ApprovalService.TokenForRequest | agent/approval.py:351-366 | the first token of the request, or none if there is none |
| ApprovalTokens.ApprovalService.SweepExpired | agent/approval.py:368-383 | exactly the unspent, unswept, expired tokens are retired, and they are what is returned, in issuance order |
| ApprovalStores.ApprovalRequestStore.Create | agent/approval_request_store.py:160-178 | one request and one row, or refused for a used id |
| ApprovalStores.ApprovalRequestStore.Decide | agent/approval_request_store.py:180-204 | one decision per request, never over an invalidation, counted and on file |
| ApprovalStores.ApprovalRequestStore.RecordTokenMinted | agent/approval_request_store.py:206-234 | only on an approved request, and only once |
| ApprovalStores.ApprovalRequestStore.RecordTokenConsumed | agent/approval_request_store.py:236-267 | only over a recorded mint, replacing it |
| ApprovalStores.ApprovalRequestStore.Invalidate | agent/approval_request_store.py:269-283 | never a decided request; a repeat writes nothing |
| ApprovalStores.ApprovalRequestStore.Pending | agent/approval_request_store.py:298-309 | exactly the undecided, uninvalidated, unexpired requests of the account, in insertion order |
| ApprovalStores.ApprovalRequestStore.CountDecidedOn | agent/approval_request_store.py:311-312 | the stored count is a recount of the requests' own decision instants |
| ApprovalStores.ApprovalRequestStore.OutstandingEarmarks | agent/approval_request_store.py:314-355 | with a service, every request's earmark at most once: awaiting or held by its live token |
| ApprovalStores.Open | agent/approval_request_store.py:372-388 | loading gives the replay of the event rows |
| ApprovalStores.EarmarksCountOnce | agent/approval_request_store.py:340-355 | the two sums never count one request twice |
| ApprovalRequests.RunIsSound | agent/approval_request_store.py:160-388 | after any run of writes: replay equals the live dicts, no request both decided and invalidated, a token only on an approved one, the daily count a recount |
| ApprovalRequests.WriteKeepsSound | agent/approval_request_store.py:160-283 | each accepted write keeps all of that |
| ApprovalRequests.DecisionIsForever | agent/approval_request_store.py:180-283 | no write changes a decision, an invalidation or a proposal, or takes a token back |
| ApprovalBridge.MintApprovalToken | agent/approval_bridge.py:368-492 | live token, else durable one, else a new one after every guard in order, recorded before it is returned |
| ApprovalBridge.MintIsRecorded | agent/approval_bridge.py:466-492 | a new token is unspent, named after its request, and durable at once |
| ApprovalBridge.ModifiedIsWithinBounds | agent/approval_bridge.py:269-305 | what a mint authorizes is within bounds of what was approved |
| ApprovalBridge.OnlyUnmodifiedTokensExecute | agent/approval_execution.py:788-796 | the staged order passes against a minted token if and only if the mint changed size and limit by no more than the tolerance |
| ApprovalExecution.ExecuteApprovedRequest | agent/approval_execution.py:677-890 | every guard in the code's order; store, token and broker line end as the outcome says |
| ApprovalExecution.Submit | agent/broker/base.py:544-629 | checks, then the token is spent, then the spending recorded, then the broker contacted, each stopping the rest |
| ApprovalExecution.ContactMeansEveryGuardPassed | agent/approval_execution.py:719-890 | a contact means every guard held, the token was live, and its spending is the last row on file |
| ApprovalSubmission.SubmitApproved | scripts/run_agent.py:1065-1110 | minting and executing on the objects leaves exactly the run model's submission |
| ApprovalRun.MintKeeps | agent/approval_bridge.py:368-492 | whatever its source, a minted token agrees with the durable record |
| ApprovalRun.SentKeeps | agent/broker/base.py:605-629 | a submission, dying anywhere, leaves what was contacted durably spent |
| ApprovalRun.SingleSpend | agent/approval_execution.py:803-818 | over any run with crashes and restarts the broker is contacted at most once per request, and then the file already says consumed |
| ApprovalRun.StaleCopySpendsAgain | agent/approval_bridge.py:421-425 | under any later conditions a copy minted before the spending contacts the broker exactly if it would have without the spending; the spent token never does |
| ApprovalRun.TwoMintsContactTwice | agent/approval_bridge.py:421-425 | after a restart two mints before any execution hand out two copies; once the first has reached the broker the second does exactly if it would have in its place |
| Earmarks.HandoffKeepsTheTotal | agent/approval_request_store.py:314-355 | whatever lies between decision, mint and reading: deciding releases exactly the request's earmark, minting restores the total until either expires, and the token alone holds it after that |
| Earmarks.SpendingReleases | agent/approval_request_store.py:349-354 | an order that reaches the broker with the service's token lowers the total by its own request's share, at every instant |
| Earmarks.SweepingReleasesNothingElse | agent/approval.py:368-383 | the sweep retires only what already holds nothing |
| Earmarks.RestartFreesUnspentTokens | agent/approval_request_store.py:328-355 | a restart drops an approved order's earmark from the total while the mint still hands out its unspent token |
| Earmarks.ExpiryReleases | agent/approval_request_store.py:298-355 | time alone releases a share exactly at the expiry of what holds it |
| AuditLog.LastHashDetermines | agent/audit.py:175-182 | two verifying logs of one length and one last hash are equal row by row |
| AuditLog.EveryRunVerifies | agent/audit.py:228-332 | every run of appends and reloads verifies, and a reload loses nothing |
| AuditLog.CutInsideLastRow | agent/audit.py:264-315 | cut after any character of the last row, the file loads exactly the complete rows, which verify, and reports the cut text; lacking its line break alone the row loads |
| AuditLog.AppendsBehindCut | agent/audit.py:228-315 | for every cut of the last row, its missing line break included, and every list of rows appended behind it: what the next load gives, drops or refuses |
| AuditLog.AppendIsKeptIff | agent/audit.py:228-315 | a row appended after a crash is loaded back beside what the restarted process had if and only if the crash left nothing of the row before it |
| AuditLog.WholeFileLoads | agent/audit.py:264-315 | an uncut file loads whole |
| AuditLog.Log.Append | agent/audit.py:228-262 | refuses what JSON lacks before touching anything; otherwise one numbered, chained row on file and in memory, on any log; the next load has it if every row before it is ended, and drops it with the row before it if the last line break is missing |
| AuditLog.Log.Verify | agent/audit.py:317-332 | answers exactly whether the chain holds |
| AuditLog.Open | agent/audit.py:264-315 | the load loop: rows, one tolerated last line, or an error |
| DayTrade.DayTradeGuard.Count | agent/daytrade.py:70-75 | trips in the real trailing five sessions, or the calendar's exception |
| DayTrade.DayTradeGuard.Check | agent/daytrade.py:80-88 | passes exactly if not binding or one more trade fits |
| DayTrade.DayTradeGuard.Reconcile | agent/daytrade.py:90-119 | agrees exactly if the account is ours and the broker's figure, an omitted one read as zero, is the local count |
| DayTrade.RecordingIsSafeIff | agent/daytrade.py:67-88 | with every window within the limit, recording a trip keeps it so if and only if no window holding its session is full |
| DayTrade.InOrderHasRoom | agent/daytrade.py:67-88 | a passing check at the latest session recorded is such a case |
| DayTrade.WindowsStayWithinLimit | agent/daytrade.py:67-88 | trips recorded after passing binding checks, in session order, never exceed the limit in any trailing window |
| DayTrade.BackwardsEscapes | agent/daytrade.py:67-88 | recorded out of order, two trips pass checks with a limit of one and share a window |
| Analysis.RunAnalysis | agent/analysis.py:167-257 | cache, budget, model, record, parse, cache: both stores and the answer end as the code's order says |
| Analysis.SurvivingIsRunAnalysis | agent/analysis.py:167-257 | a process that lives leaves what run_analysis leaves |
| Analysis.PayOnce | agent/analysis.py:187-257 | over any run with deaths anywhere: a readable call pays for its key again if and only if a death kept an earlier one from the cache; day counts and month sums are those of the recorded calls, the month below the hard stop but for the last one's excess |
| Analysis.WithoutDeathsPaidOnce | agent/analysis.py:187-257 | with no death, no key is paid for twice |
| Analysis.PaysUnlessSettled | agent/analysis.py:187-231 | a request within the budget and answered pays if and only if every readable call of its key so far died before the cache |
| Analysis.RecordedCallKeeps | agent/analysis.py:210-231 | one admitted call keeps the month's bound and the day's count |
| Analysis.RunIsKept | agent/analysis.py:167-257 | any run with deaths and restarts keeps cache, files and figures in agreement with the calls made |
| Analysis.HardStopIsFinal | agent/cost.py:139-157 | once a month has reached the hard stop, no run makes another call in it |
| Analysis.DeathBeforeCachePaysTwice | agent/analysis.py:231-254 | the concrete run: a death between record and cache pays one key twice |
| Analysis.RestartChangesNothing | agent/cost.py:111-132 | both files give back what was in memory |
| Costs.CostLedger.Record | agent/cost.py:89-93 | one entry in memory and on file |
| Costs.CostLedger.SpentInMonth | agent/cost.py:134-137 | the sum over the month's entries |
| Costs.CostLedger.AnalysesToday | agent/cost.py:159-185 | the count of the day's paid analyses |
| Costs.CostLedger.WouldExceedHardStop | agent/cost.py:150-157 | month to date plus the estimate against the stop |
| Costs.Open | agent/cost.py:111-132 | every row of every month is loaded |
| Extractions.ExtractionCacheStore.Put | agent/extraction_store.py:100-110 | the same map the plain cache holds, and a file that still replays to it |
| Extractions.ExtractionCache.Get | agent/analysis_cache.py:95-108 | answers with the outcome put last under that key |
| Extractions.DurableAnswersAsPlain | agent/extraction_store.py:87-110 | given the same puts, the durable store and the store its file loads into hold what the plain cache holds |
| Extractions.FileAnswers | agent/extraction_store.py:112-151 | any run of puts leaves a file that loads, answering every key with the outcome put last |
| Extractions.Open | agent/extraction_store.py:125-151 | last write wins on replay; an unknown status stops the load |
| Durations.ReadExactlyTheGrammar | agent/durations.py:9-15 | a text is read as a duration if and only if it is that well-formed duration's own text |
| Durations.ReadIsSound | agent/durations.py:22-39 | what is read is well formed and spells the input |
| Durations.ReadIsComplete | agent/durations.py:9-15 | every well-formed duration is read back from its text |
| Durations.StripTrims | agent/durations.py:25 | Unicode white space around the text is ignored and nothing else is |
| Durations.PointMovesPlaces | agent/durations.py:9-30 | a fraction weighs its digits down by their number of places |
| Durations.DecimalReads | agent/durations.py:42-54 | decimal printing and reading undo each other |
| Durations.ParseUndoesFormat | agent/durations.py:22-54 | reading what was printed gives the whole seconds back, zero for what is not positive |
| Durations.WholeSecondsRoundTrip | agent/durations.py:22-54 | exact for every non-negative whole number of seconds |

## Left out

- Decimal precision: amounts are exact rationals, with the ledger's one rounding modelled in full; the 28-digit context of Decimal and the binary floats of prices, limits and costs are not.
- Timestamps: all are timezone-aware instants; a naive fill time counts as a missing one, and other naive inputs are not represented.
- Letter case: sides and symbols are already in one case; `upper()` is not modelled.
- Eastern time: the date of an instant and the opening of a session are parameters, so daylight saving, early closes and closing times are not modelled.
- Registries: holding policies are a fixed map per account, and lot-selection policies a value; registering them is not modelled, nor are cooldowns, early-exit requests and the exit checks of `agent/holding.py`.
- Torn rows: a crash leaves whole rows in the ledger and quarantine files; only the audit log is modelled character by character.
- Files: fsync, locking, encodings and JSON text are not modelled beyond the stated hypotheses, nor are rows older versions wrote with missing keys.
- Lines of the audit file end at a newline only; the other separators `splitlines` knows are escaped in JSON text and cannot occur in a row.
- Audit rows written by the polls, the bridge and the operator commands are not part of the stores' states.
- Quarantine reasons are a short enumeration instead of prose.
- Concurrent processes with stale in-memory copies of one store are excluded by the single-writer hypothesis.
- `Execution.cum_qty`, broker order details beyond account and status, and the reconciliation checks that read the built figures are not modelled; `BuildAccountReconciliation` ends at the figures.
- Staging, sizing, tax and capability policy: a staged order is a value with a signature, its verification a parameter, and gate 4 a truth value.
- ApprovalRun.SingleSpend: is about contacts with the broker, not about what the broker then does, because a contact that fails ambiguously is one contact.
- `ApprovalService.approve` without a request, `rubber_stamp_risk` and `can_request` are not modelled beyond the price-band fallback; an I/O failure while a mint or a consumption is being recorded is not modelled.
- The clock is read twice within one execution, by the executor and by the adapter; the model reads it once. The adapter's second signature check, with the key the executor attached, is the first one again.
- Order fingerprints are a parameter; submission compares a token's fingerprint with itself, so nothing rests on their rounding.
- Analysis.RunAnalysis: prompt building and citation checks are the size of a prompt and a parsing function, because neither affects what is paid or cached. The cache passed in is the durable one; the plain map has the same contract.
- Durations.ReadExactlyTheGrammar: digits are ASCII, and the seconds of a fraction are exact where the code rounds to microseconds, because both lie in Python's own number reading.
- HTTP, dashboards, launchd, collectors, the mode machine, configuration bounds, earnings proximity, rate limiting and the failure sentinel: independent or shallow next to what is here.
