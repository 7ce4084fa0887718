# Verification of the futures bot

A Dafny model of the stateful parts of a funding-rate shorting bot, with proofs of
what those parts promise over every call, every interleaving or every run.

| file | models |
|---|---|
| `PositionSpec.dfy`, `PositionManager.dfy` | the lock-holding handlers of the position manager, once as functions on a state and once as methods over mutable fields, proved equal |
| `Lifecycle.dfy` | runs of one symbol: entry, stub, fill events, 1s checks, protection sweep |
| `OpenOrders.dfy`, `ExitPnl.dfy`, `ClosedOnce.dfy`, `ProtectionRetry.dfy`, `StopLoss.dfy`, `ForceCloses.dfy`, `OrderSizes.dfy` | what holds over those runs |
| `Breakeven.dfy`, `HandlerLaws.dfy` | when single handlers act and what they do, in prices, quantities and times |
| `LiveSymbol.dfy` | the position manager object driven through a run |
| `QueueSpec.dfy`, `QueueRuns.dfy`, `Deliveries.dfy`, `Removals.dfy`, `Offers.dfy`, `IntentQueue.dfy` | the intent queue as steps at lock granularity, its invariants, and the queue object whose methods are those steps |
| `Windows.dfy` | funding windows and when an intent may fire |
| `Rsi.dfy`, `RsiLaws.dfy`, `Divergence.dfy` | Wilder RSI in both forms and what its value says, the divergence search |
| `Scorer.dfy`, `ScorerLaws.dfy` | the composite score, its order-independence and bounds |
| `ExecutionEngine.dfy`, `EntryGuard.dfy`, `PositionLimit.dfy` | entries as overlapping calls without a lock, what they need, and the position limit |
| `RateLimiter.dfy`, `Klines.dfy`, `Stores.dfy`, `Reconciler.dfy`, `LotSize.dfy` | token bucket, candle paging and outcome replay, bounded stores, startup reconciliation, lot rounding |

Conventions. Prices, quantities and percentages are `real`, times are `int`
nanoseconds (`Klines.dfy`: milliseconds). An executor call fails exactly when its
number is in a set `failing`, so "whatever fails" is a statement about every such set
and "all calls succeed" is `failing == {}`. Order and trade ids are naturals, 0 being
the empty string or the nil id; a queued intent's identity is its `id`. Map iteration
order and the unstable library sort are left arbitrary. Clocks, LLM answers, market
prices, exchange reads and what other goroutines do are arguments.

## Where the code and its documentation part

The model follows the code. Proved consequences:

- A TP2 fill handled before TP1's leaves the stop and TP1 resting
  (`OpenOrders.FillLeavesOrdersMatchedIff`); an entry confirmed over a position with
  orders orphans those (`OpenOrders.EntryLeavesOrdersMatchedIff`).
- A pending-protection record survives the repair and the close of its position; the
  next retry then places a second stop and TP1
  (`ProtectionRetry.RetryLeavesOrdersMatchedIff`, `StaleRecordDuplicatesOrders`). After
  the last round it is dropped even when the emergency order fails
  (`ProtectionRetry.EmergencyCloseSentIff`).
- A breakeven-stop close subtracts the funding fee twice
  (`ExitPnl.BreakevenStopPersistsNetPnlIff`); force and manual closes report the last
  price as the average (`ExitPnl.ReportedCloseIsAverageIff`).
- A close can be persisted again exactly when the engine's stub write is still due or
  the entry's pending record still there (`ClosedOnce.ClosedAgainIff`); both occur
  (`ClosedOnce.TradesCanCloseTwice`).
- When the breakeven stop cannot be placed after TP1, the rest of the position has
  neither a stop nor a protection record until it closes
  (`StopLoss.TP1StopDecidesForGood`).
- A force-close check stores nothing in the position, so the next one may send a second
  order; the first one's fill is then persisted as MANUAL
  (`ForceCloses.ForceFillLabelIff`, `FirstFillRelabelled`).
- A claim during a tick's execution call can deliver an intent twice or exceed the
  AFTER cap (`Deliveries.CapAndUniquenessCanFail`). A cancelled, replaced or cleared
  intent is still executed exactly when a running tick has it in its copy
  (`Removals.RemovedDeliveredIff`); as that tick's execution calls may outlast its
  window, cancelling does not ensure what queue.go:323-325 wants, that the intent
  "cannot survive to fire in a later window".
- `max_positions` is exceeded: the guard compares with `>` and counts no call under
  way. The count stays within the limit plus the number of overlapping entries, and
  reaches that bound (`PositionLimit.PositionsWithinOverlap`, `OverlapIsCached`). The
  bot has two callers of `execute`, the scheduler's tick and AfterTrigger.
- `NextWindowBounds` skips the open window at a settlement instant
  (`Windows.BoundsAreActiveIff`). LAST_MINUTE starts six minutes before settlement,
  not five as docs/summary.md says.
- A second timeframe with a medium divergence lowers the score, the `medium_multitf`
  tier of docs/rsi_divergence_design.md being absent
  (`ScorerLaws.ExtraDivergenceLowersIff`).
- `MaxRPM` bounds the average rate only (`RateLimiter.BurstsAllowTwiceTheRate`).
- Rehydration takes a resting LIMIT or MARKET order for the stop and then places none
  (`Reconciler.Reconciler.RehydratePosition`); the protection check never recognises
  the bot's own orders (`Reconciler.RecognisedIff`); a repair whose take-profit fails
  leaves its new stop uncached (`Reconciler.Reconciler.ReplaceMissingOrders`).

## Model

| member | source | states |
|---|---|---|
| OpenOrders.OpenOrdersAlwaysMatch | internal/execution/position_manager.go:582-784 | over every orderly run with succeeding executor calls the exchange's resting orders are exactly those the cached position names, one stop whenever there is any order, and none without a position; sweep repairs, moved stops, closes, fills ahead of the stub write and up to nine minutes of clock skew included |
| OpenOrders.FillLeavesOrdersMatchedIff | internal/execution/position_manager.go:978-987 | from any matching state, the fill of a resting order leaves the right orders exactly when it is not TP2 ahead of TP1 |
| OpenOrders.EntryLeavesOrdersMatchedIff | internal/execution/position_manager.go:582-784 | from any matching state, confirming an entry leaves the right orders exactly when no order rested before |
| OpenOrders.EarlyTP2LeavesStop | internal/execution/position_manager.go:978-987 | TP2 before TP1 closes the position and leaves its stop and TP1 resting |
| OpenOrders.CheckCases | internal/execution/position_manager.go:130-237 | a check without force close only refreshes tracking fields or moves the stop to breakeven, the latter not before ten minutes |
| OpenOrders.FinalizeOrders | internal/execution/position_manager.go:582-784 | opening a position from a matching state leaves matching orders |
| OpenOrders.EmergencyOrders | internal/execution/position_manager.go:1575-1703 | so does emergency protection of a stub |
| OpenOrders.BreakevenOrders | internal/execution/position_manager.go:187-224 | so does replacing the stop at breakeven |
| OpenOrders.TP1Orders | internal/execution/position_manager.go:883-934 | so does TP1's fill, with or without a TP2 order |
| OpenOrders.FillOrders | internal/execution/position_manager.go:502-533 | so does every other order's fill |
| OpenOrders.RecordExpired | internal/execution/position_manager.go:193-195 | when a stop may move to breakeven, the entry's pending record is gone |
| ExitPnl.EveryExitIsPlanned | internal/execution/position_manager.go:978-1042 | if orders fill at their own price and no fee is charged, every result of every run has the value, and where fixed the label, of its close reason: minus the stop, zero, TP1's share, both shares, or the whole at TP1 without TP2, rounded to 8 decimals |
| ExitPnl.NoExitLosesMoreThanTheStop | internal/execution/position_manager.go:593-600 | hence no run loses more than SlPct per cent of an entry's notional beyond rounding |
| ExitPnl.IntendedTrade | internal/execution/position_manager.go:582-987 | the run entry, stub, fill, TP1, TP2 is one of these and persists one win worth both take-profits |
| ExitPnl.ClosePathsPersistNetPnl | internal/execution/position_manager.go:537-567 | TP2, force-close, manual and pre-TP1 stop closes append one result: the leg-by-leg gain rounded to 8 decimals less the fee once, within half a unit of the exact net |
| ExitPnl.BreakevenStopPersistsNetPnlIff | internal/execution/position_manager.go:990-1002 | the breakeven-stop path subtracts the fee twice, so its result is net exactly when the fee is zero |
| ExitPnl.ReportedCloseIsAverageIff | internal/execution/position_manager.go:1044-1056 | the close price persisted by manual and force closes reproduces the gain exactly when TP1 took no share or filled at that price |
| ExitPnl.GrossIsLegs | internal/execution/position_manager.go:1376-1383 | the gain at the averaged close price is the sum of the two legs' gains |
| ClosedOnce.EachTradeClosedAtMostOnce | internal/execution/position_manager.go:1058-1094 | over every run in which each close finds the trade's stub written and its pending record used or expired, whatever order events, lost or repeated fill events, sweeps and executor failures occur, each trade id reaches UpdateResult at most once and is never cached again |
| ClosedOnce.ClosedAgainIff | internal/execution/position_manager.go:1058-1094 | the condition is exact, close by close: some later run persists the closed trade again exactly when its stub write is due or its pending record is unexpired |
| ClosedOnce.OutForGood | internal/execution/position_manager.go:480-511 | a minted trade that is uncached, with no stub due and no record, never reaches UpdateResult in any run |
| ClosedOnce.EventHandles | internal/execution/position_manager.go:130-570 | every event leaves results and trade alone, or appends the cached trade's result and uncaches it, or caches a trade from its record |
| ClosedOnce.CloseBeforeStubClosesTwice | internal/execution/engine.go:217-221 | explicitly: closing a trade whose stub is still to be written, the late stub write and one more close persist it twice |
| ClosedOnce.CloseBeforeFillClosesTwice | internal/execution/position_manager.go:480-511 | explicitly: closing a trade whose entry record is still there, its fill event and one more close persist it twice |
| ClosedOnce.TradesCanCloseTwice | internal/execution/engine.go:185-229 | both kinds of state are reached from every fresh start in two well-timed steps, with the stub write first or the fill event first |
| ClosedOnce.CloseUpdateKeeps | internal/execution/position_manager.go:502-567 | an order event appends the cached trade's result and uncaches it, or leaves results and trade alone |
| ClosedOnce.RetryKeeps | internal/execution/position_manager.go:789-880 | protection retries persist nothing and keep the cached trade |
| ClosedOnce.SweepKeeps | internal/execution/position_manager.go:1537-1566 | the sweep persists nothing and caches no other trade |
| ProtectionRetry.RecordIsSettledOnce | internal/execution/position_manager.go:789-880 | over every run in which no other step rewrites the record, whatever fills, sweeps, closes and failures come between the retries: at most the remaining rounds, one stop, one TP1; a gone record means all placed, or one emergency close after the last round |
| ProtectionRetry.RecordIsSettled | internal/execution/position_manager.go:789-810 | over every such run with more checks at the retry interval than rounds left, the record is gone |
| ProtectionRetry.TallyCountsOrders | internal/execution/position_manager.go:819-866 | a counted placement rests at the exchange as the record asked, under the cached position's id; an uncounted one does not |
| ProtectionRetry.EmergencyCloseSentIff | internal/execution/position_manager.go:794-810 | the last call drops the record in any case; a force close is under way exactly when its market order was accepted, else position and orders stay as they were |
| ProtectionRetry.RetryLeavesOrdersMatchedIff | internal/execution/position_manager.go:819-866 | from any matching state, a succeeding round leaves the right orders exactly when TP1 has not filled and the record asks for just what the position lacks |
| ProtectionRetry.StaleRecordDuplicatesOrders | internal/execution/position_manager.go:1537-1566 | such records occur: after one failed stop and the sweep's repair the orders match, and the next retry breaks that |
| ProtectionRetry.CloseKeepsRecord | internal/execution/position_manager.go:1058-1094 | no closing event removes the record |
| StopLoss.TP1StopDecidesForGood | internal/execution/position_manager.go:896-958 | after TP1's fill, in every later state while the position is cached and not force closed, whatever else fails, it has neither stop nor record exactly when the old stop's cancel succeeded and the new stop's placement failed |
| StopLoss.BareReached | internal/execution/position_manager.go:911-925 | that state is reached from a fresh start with one failing call |
| StopLoss.BreakevenBareIff | internal/execution/position_manager.go:187-215 | a check before TP1 leaves a matching position so exactly when it is due to move the stop, cancels the old and cannot place the new |
| StopLoss.BreakevenRepairedIff | internal/execution/position_manager.go:187-215 | a later check repairs that exactly when it is due again and the placement succeeds |
| Breakeven.StopMovesIff | internal/execution/position_manager.go:187-224 | a check of a matching short without record, force close or failing call moves the stop to the entry price less the paid fee share exactly when it had not moved, TP1 has not filled, ten minutes have passed and the gain is more than the activation level plus the fee; else no order is touched |
| Breakeven.LosingShortKeepsStop | internal/execution/position_manager.go:193-194 | with a level of zero or more, a check at or above the entry price touches no order |
| OrderSizes.TakeProfitsSized | internal/execution/position_manager.go:598-670 | over every orderly run with succeeding calls TP1 rests with TP1SizePct of the position and TP2 with the rest; a take-profit without TP2 covers all |
| OrderSizes.QuantityIsWhatRests | internal/execution/position_manager.go:888-958 | if orders fill whole, the cached quantity is what the resting take-profits buy back |
| ForceCloses.ForceFillLabelIff | internal/execution/position_manager.go:534-567 | after any run, the fill of a force close is persisted as FORCE_CLOSE exactly when its id was stored and no check of the run sent another, else as MANUAL |
| ForceCloses.StoredIff | internal/execution/position_manager.go:424-447 | until its fill is reported a force close's id stays stored exactly as long as no check sends another, and no position comes to name it |
| ForceCloses.FirstFillRelabelled | internal/execution/position_manager.go:174-190 | two checks deciding to force close at the same price make the first order's fill a MANUAL close |
| ForceCloses.ForceCloseSentIff | internal/execution/position_manager.go:170-186 | a check sends a force close exactly when the feature is on, TP1 is open, the position is old enough, its loss is beyond the gate, the last asking is long enough ago for that loss, and the engine decides so |
| HandlerLaws.EntryOpensIff | internal/execution/position_manager.go:480-511 | an entry fill opens a position exactly when filled at a price with its record there: at that price and quantity, the exchange's time, three resting orders |
| HandlerLaws.UnnamedFillClosesIff | internal/execution/position_manager.go:533-567 | a fill of an order the position does not name closes it exactly when reduce-only, touching no order |
| HandlerLaws.LabelsFollowGain | internal/execution/position_manager.go:541-555 | the outcome and reason of every kind of close, by the rounded leg-by-leg gain less the fee |
| HandlerLaws.SweepActsIff | internal/execution/position_manager.go:1537-1566 | the sweep touches exactly positions with a trade id, neither stop nor take-profit, older than the grace period |
| HandlerLaws.SweepProtectsLive | internal/execution/position_manager.go:1575-1703 | without a record it drops the position the exchange does not have, else protects the reported entry price and quantity with one stop and one take-profit over all of it |
| HandlerLaws.RetryActsIff | internal/execution/position_manager.go:789-797 | a retry makes a call exactly when five seconds have passed |
| HandlerLaws.RoundPlaces | internal/execution/position_manager.go:819-866 | a succeeding round places the stop, TP1 and TP2 the record asks for, in price and quantity |
| HandlerLaws.FailedEntryAsksForItsOrders | internal/execution/position_manager.go:611-655 | an entry whose placement fails stays uncached and leaves a record of the very orders it would have placed |
| HandlerLaws.CheckTracksRange | internal/execution/position_manager.go:158-166 | a check widens the tracked high and low to the price |
| HandlerLaws.AskingIsStored | internal/execution/position_manager.go:170-190 | a check that asks the force-stop engine stores when, and counts it; no other check does |
| HandlerLaws.ForceCloseCancelsNamed | internal/execution/position_manager.go:424-468 | a succeeding force close cancels every order the position names and no other |
| HandlerLaws.SweepRecordsMissing | internal/execution/position_manager.go:1575-1703 | a sweep protection failing in part leaves a record of exactly the missing orders |
| HandlerLaws.SweepOpensStub | internal/execution/position_manager.go:1537-1566 | the sweep of a stub whose record is there opens the position at the engine's price and quantity |
| HandlerLaws.LostRecordStillProtected | internal/execution/engine.go:203-229 | an entry whose record is lost before its fill still gets a stop and a take-profit over the ordered quantity |
| PositionManagement.PositionManager.FinalizeSLTP | internal/execution/position_manager.go:582-784 | the opening step of runs, both failure paths included; keeps OpenOrders' invariant; opens as HandlerLaws.EntryOpensIff says, with the order sizes of OrderSizes.TakeProfitsSized |
| PositionManagement.PositionManager.RetryProtection | internal/execution/position_manager.go:789-880 | the retry of ProtectionRetry's runs; persists nothing and keeps the cached trade |
| PositionManagement.PositionManager.Check | internal/execution/position_manager.go:130-237 | the check step of runs; persists nothing and keeps the cached trade whatever fails; moves the stop exactly as Breakeven.StopMovesIff and force closes exactly as ForceCloses.ForceCloseSentIff say |
| PositionManagement.PositionManager.HandleUserDataEvent | internal/execution/position_manager.go:471-570 | the order-event step of runs; a non-entry event either appends the cached trade's one result and uncaches it, or leaves results and trade alone |
| PositionManagement.PositionManager.HandleTP1Fill | internal/execution/position_manager.go:883-934 | the step of OpenOrders.TP1Orders: with or without TP2 |
| PositionManagement.PositionManager.HandleTP2Fill | internal/execution/position_manager.go:978-987 | appends one result worth the leg-by-leg gain, rounded, less the fee once |
| PositionManagement.PositionManager.HandleTrailingSLFill | internal/execution/position_manager.go:990-1002 | appends one result worth the leg-by-leg gain, rounded, less the fee twice |
| PositionManagement.PositionManager.HandleHardSLFill | internal/execution/position_manager.go:1018-1042 | before TP1, appends one result worth the rounded gain less the fee once |
| PositionManagement.PositionManager.RecordManualClose | internal/execution/position_manager.go:1044-1056 | appends one result worth the leg-by-leg gain, rounded, less the fee once |
| PositionManagement.PositionManager.ConfirmForceClose | internal/execution/position_manager.go:535-561 | appends one result worth the leg-by-leg gain, rounded, less the fee once |
| PositionManagement.PositionManager.PersistClose | internal/execution/position_manager.go:1058-1094 | one result for a trade id, the fee subtracted, the position uncached |
| PositionManagement.PositionManager.ForceClose | internal/execution/position_manager.go:424-468 | a force close is under way exactly when the market order was accepted; otherwise no order is touched |
| PositionManagement.PositionManager.EmergencyProtect | internal/execution/position_manager.go:1575-1703 | for every answer of the live read; keeps OpenOrders' invariant over a stub |
| PositionManagement.PositionManager.RepairUnprotectedPosition | internal/execution/position_manager.go:1537-1566 | the sweep step of runs, both tiers; persists nothing and keeps the cached trade |
| LiveSymbol.Live.Deliver | internal/execution/position_manager.go:130-570 | one event handled by the object is one step of a run |
| LiveSymbol.Live.Play | internal/execution/position_manager.go:130-570 | the object driven through any run ends in the run's state, its orders matching after orderly runs and no trade persisted twice after well-timed ones |
| LotSize.RoundDownLosesUnderAStep | internal/execution/live_executor.go:233-238 | rounding loses less than a step, never gains, and is idempotent |
| LotSize.TakeProfitsCoverFill | internal/execution/position_manager.go:599-662 | the take-profits an entry leaves at the exchange are TP1's share and the rest; rounded, they never exceed a fill of whole lots and leave nothing exactly when the share is whole lots, else exactly one lot |
| Rounding.Round8Within | internal/execution/position_manager.go:984-985 | 8-decimal rounding moves a value by at most half a unit and is odd |
| ExecutionEngine.EntryEngine.Execute | internal/execution/engine.go:108-238 | one call, other goroutines acting between its accesses, is a run of its guard, record, order and stub-write (or record-removal) steps with theirs in between; it goes past the guard only with the kill switch read as off and every limit kept, enters only with an order sent, and is skipped rather than failed exactly when only a limit stood in the way |
| ExecutionEngine.FillWinsRace | internal/execution/engine.go:225-229 | once the order is sent, whether its fill is handled before, between or after the stub write and any other call's steps, the handler's position is the one cached |
| ExecutionEngine.FinalisedStays | internal/storage/redis.go:90-98 | a position the fill handler cached is replaced by no stub write |
| ExecutionEngine.RecordAwaitsFillIff | internal/execution/engine.go:166-203 | over any run from its accepted order on, an entry's record stays, unchanged, exactly until its fill is handled or it expires |
| ExecutionEngine.OrdersSized | internal/execution/engine.go:142-162 | over any run each order's notional is leverage times margin, the margin being the sizing share of the balance, at most 500, and available |
| EntryGuard.OrderCanFollowIff | internal/execution/engine.go:118-140 | a call passes its guard, and can go on to send an order, exactly when the kill switch was read as off, the positions were read and number at most MaxPositions, the symbol is free and the losses are unread or within their limit; else it changes nothing |
| EntryGuard.OrdersAreGuarded | internal/execution/engine.go:118-121 | over every run each order sent belongs to a call of the run whose guard read the kill switch as off, or to one under way at its start |
| EntryGuard.RecordsMatchOrders | internal/execution/engine.go:166-229 | over every run, the record of an entry whose order went out and a stub are for the symbol and quantity ordered |
| PositionLimit.PositionsWithinOverlap | internal/execution/engine.go:122-136 | over every run the number of positions, and of symbols claimed, stays within MaxPositions plus the greatest number of entries due at a time |
| PositionLimit.OverlapIsCached | internal/execution/engine.go:122-229 | the bound is met: k overlapping calls for new symbols can all be cached from any count up to MaxPositions |
| PositionLimit.LimitCanBeExceededIff | internal/execution/engine.go:126-129 | what is under way can exceed the limit exactly when more than MaxPositions symbols are cached, under call or awaiting a fill |
| PositionLimit.AdmissionEndangersLimitIff | internal/execution/engine.go:126-129 | admitting a call makes that possible exactly when MaxPositions symbols are claimed already and its own is a new one |
| PositionLimit.StepClaims | internal/execution/engine.go:122-229 | of all steps only an admission claims a symbol |
| ExecutionEngine.OthersKeepCall | internal/execution/engine.go:108-229 | no step of other goroutines changes how far a call is |
| QueueRuns.QueueAlwaysWellFormed | internal/intent/queue.go:49-143 | after every history of queue operations interleaved at lock granularity, inside ticks too, the queue is sorted by confidence, all pending, one intent per symbol, and holds nothing already handed out |
| QueueRuns.PermutationKeeps | internal/intent/queue.go:280-284 | any sort of a queue with one intent per symbol is one |
| QueueRuns.EnqueueKeeps | internal/intent/queue.go:49-78 | enqueueing keeps the invariant however equal confidences are left |
| Deliveries.EveryTickBestFirst | internal/intent/queue.go:97-143 | a tick delivers a prefix of its eligible intents in confidence order, all but the last skipped, and stops only at one not skipped or at the end |
| Deliveries.CapsHold | internal/intent/queue.go:193-237 | between clears at most 2 FRONTRUN, 2 LAST_MINUTE and 1 AFTER deliveries are not skipped, ticks and claims together, if no claim falls in an AFTER tick's gap |
| Deliveries.ClaimInAfterTickBreaksCap | internal/intent/queue.go:149-165 | from every state with such a claim, some continuation ends in two AFTER deliveries |
| Deliveries.NoIntentDeliveredTwice | internal/intent/queue.go:97-165 | no intent is handed out twice if no claim takes one a running tick still has in its copy |
| Deliveries.ClaimFromTickDeliversTwice | internal/intent/queue.go:149-165 | from every state with such a claim, some continuation delivers that intent a second time |
| Deliveries.CapAndUniquenessCanFail | internal/execution/after_trigger.go:173-185 | both excluded claims occur: histories from the empty queue end with two AFTER deliveries and with an intent handed out twice |
| Offers.TickOffersIff | internal/intent/queue.go:97-127 | a tick offers an intent exactly when it is queued, unexpired, ready for the window, the window has room this cycle and, for FRONTRUN, the fire window is reached; it executes the best of them |
| Offers.ClaimTakesBestIff | internal/intent/queue.go:149-165 | a claim takes the best AFTER-ready intent exactly when no AFTER delivery of the cycle was counted |
| Offers.CapsReached | internal/intent/queue.go:193-221 | every sequence of deliveries within 2 FRONTRUN, 2 LAST_MINUTE and 1 AFTER is reached by a history of one cycle |
| Offers.EnqueueReplaces | internal/intent/queue.go:49-78 | enqueueing replaces the symbol's intent and touches no other |
| Offers.CancelRemoves | internal/intent/queue.go:326-338 | cancelling removes the symbol's intent and no other |
| Removals.RemovedDeliveredIff | internal/intent/queue.go:323-350 | an intent cancelled, replaced, cleared or expired is handed out later exactly when a running tick has it in its copy beyond the one being executed |
| Removals.CancelledBetweenTicksIsFinal | internal/intent/queue.go:326-338 | cancelled while no tick runs, it is never handed out in any later history |
| IntentQueueImpl.IntentQueue.Enqueue | internal/intent/queue.go:49-78 | is one enqueue step |
| IntentQueueImpl.IntentQueue.Claim | internal/intent/queue.go:149-165 | is one claim step and returns the intent claimed |
| IntentQueueImpl.IntentQueue.CancelBySymbol | internal/intent/queue.go:326-338 | is one cancel step |
| IntentQueueImpl.IntentQueue.ClearAfterSettlement | internal/intent/queue.go:341-350 | is one clear step |
| IntentQueueImpl.IntentQueue.KeepOnly | internal/intent/queue.go:254-277 | the in-place filter loop computes the filtered queue |
| IntentQueueImpl.IntentQueue.BestEligible | internal/intent/queue.go:243-251 | collects exactly the pending ready intents in order |
| IntentQueueImpl.IntentQueue.Tick | internal/intent/queue.go:81-94 | is a history that begins with this tick, which offers exactly what Offers.TickOffersIff says, contains only its returns and others' operations, and ends with the lock free |
| IntentQueueImpl.SortByConfidence | internal/intent/queue.go:280-284 | a ranked permutation |
| IntentQueueImpl.SchedulerTick | internal/scheduler/scheduler.go:52-64 | drives the queue by one clear or one tick of the current window |
| IntentQueueImpl.ScheduledTickFiresOnTime | internal/scheduler/scheduler.go:52-64 | a scheduled tick takes up exactly the queued, unexpired intents of a kind that may fire then, while the window has room: within its span before a settlement or the minute after, never at the instant |
| IntentQueueImpl.ScheduledWindow | internal/scheduler/window.go:45-60 | under which window a scheduled tick ticks the queue, and when it clears it instead, for every time |
| Windows.NextFundingTime | internal/scheduler/window.go:28-42 | the scan computes the closed form modulo 4h: the settlement just passed during the hour after it, else the next one |
| Windows.NextWindowBounds | internal/scheduler/window.go:72-81 | terminates with a close not passed, around the active settlement or, at an instant, the following one |
| Windows.BoundsAreActiveIff | internal/scheduler/window.go:63-71 | the settlement returned is the least whose close has not passed exactly when now is not a settlement instant |
| Windows.FiringTimes | internal/scheduler/window.go:45-60 | for each target mode, the exact offsets from the settlement grid at which an intent may fire |
| Rsi.RSI | internal/indicator/rsi.go:10-46 | Wilder's RSI of all candles, with the laws of RsiLaws; an error for too few |
| Rsi.ComputeRSISeries | internal/indicator/rsi_divergence.go:246-310 | entry k is what RSI returns for the candles up to period + k and lies in [0, 100] |
| Rsi.AveragesOfPrefix | internal/indicator/rsi.go:30-38 | the smoothed averages after n changes depend only on those candles |
| Rsi.Index | internal/indicator/rsi.go:40-45 | lies in [0, 100]; which way is RsiLaws' matter |
| RsiLaws.OneSided | internal/indicator/rsi.go:17-45 | 100 without a falling close; without a rising one 0 exactly when a fall counts (with period 1 only the last does), else 100 |
| RsiLaws.HigherCloseNotLower | internal/indicator/rsi.go:30-45 | raising the last close never lowers the value |
| RsiLaws.ReflectionComplements | internal/indicator/rsi.go:17-45 | reflecting every close gives 100 less the value when a rise and a fall count |
| RsiLaws.LastChangeWeighs | internal/indicator/rsi.go:30-38 | the last change enters its average with weight 1 / period |
| RsiLaws.SteadyAverage | internal/indicator/rsi.go:30-38 | the weights sum to one: a recurring change is its own average |
| RsiLaws.UnchangedCloseKeepsIff | internal/indicator/rsi.go:30-45 | a further unchanged close keeps the value, exactly unless the period is 1 and the value was below 100 |
| Divergence.DetectRSIDivergence | internal/indicator/rsi_divergence.go:31-176 | nil exactly when candles are too few or no pair of swings qualifies, else the strength of the qualifying pair of greatest score, first scanned among equals |
| Divergence.ScorePair | internal/indicator/rsi_divergence.go:81-170 | one pair: better exactly when it qualifies and scores higher; the series indexes are always in range |
| Divergence.ClassifyIsPairRank | internal/indicator/rsi_divergence.go:136-162 | the strength is one rank for each of strong price move, strong RSI drop, overbought, capped |
| Divergence.QualifyingPairsApart | internal/indicator/rsi_divergence.go:197-244 | qualifying swings are more than MinSwingDistance candles apart |
| Divergence.SwingIff | internal/indicator/rsi_divergence.go:197-244 | what stands out as a swing high, in prices |
| Divergence.QualifiesIff | internal/indicator/rsi_divergence.go:67-116 | two swings make a pair exactly when the later, among the last 16 candles, has the higher price and the lower RSI peak, the earlier peak at least 50 |
| Divergence.ScoreIs | internal/indicator/rsi_divergence.go:118-134 | a pair's score is its price gain in per cent plus the RSI points lost |
| Divergence.PeakIsNearest | internal/indicator/rsi_divergence.go:67-116 | a swing's RSI peak is the greatest 14-period RSI ending within three candles of it |
| Divergence.StrengthIff | internal/indicator/rsi_divergence.go:136-162 | strong exactly when two of a price gain of one per cent, an RSI loss of six points and a peak of 75 hold, weak when none does |
| Divergence.FindSwingHighs | internal/indicator/rsi_divergence.go:197-244 | the ascending list of exactly the swing highs |
| Divergence.LocalRSIPeak | internal/indicator/rsi_divergence.go:178-195 | the greatest entry within the radius, clipped to the series |
| Divergence.SeriesPeak | internal/indicator/rsi_divergence.go:81-116 | the peak around a series entry is the peak of the RSIs ending near that candle |
| Scorer.Score | internal/scoring/scorer.go:58-120 | the composite of all categories and the tier it reaches |
| Scorer.EvalInterpolatedLoop | internal/scoring/scorer.go:140-171 | the first matching tier, ramped from the tier one order below |
| Scorer.EvalThresholdLoop | internal/scoring/scorer.go:123-137 | the multiplier of the first matching tier, else zero |
| Scorer.ScoreCandlePatterns | internal/scoring/scorer.go:235-329 | the candle score whatever order the timeframe map is walked in |
| Scorer.RsidivCondition | internal/scoring/scorer.go:353-387 | decided by how many timeframes have a strong, or at best a medium divergence |
| Scorer.StrongestDecides | internal/scoring/scorer.go:358-373 | the per-timeframe maximum determines those counts |
| Scorer.BullishSignalScore | internal/scoring/scorer.go:461-482 | sums each signal's pattern weight, halved and rounded up at medium and one at weak strength, whatever their order |
| Scorer.MapScoreToConfidence | internal/scoring/scorer.go:447-459 | the tier of greatest MinScore reached, or SKIP with size 0 if none |
| Scorer.CandleScoreOfPermutation | internal/scoring/scorer.go:235-329 | does not depend on the order of the signals |
| Scorer.DivConditionOfPermutation | internal/scoring/scorer.go:353-387 | does not depend on the order of the divergences |
| Scorer.SetSumWithout | internal/scoring/scorer.go:300-310 | the normaliser does not depend on the order of the timeframes |
| ScorerLaws.CompositeOfReordered | internal/scoring/scorer.go:58-120 | the composite is unchanged by any permutation of the three signal lists |
| ScorerLaws.TierOfPermutation | internal/scoring/scorer.go:447-459 | permuting tiers of distinct MinScore does not change the result |
| ScorerLaws.TiersDetermineResultIff | internal/scoring/scorer.go:447-459 | the list determines every result exactly when tiers of equal MinScore agree |
| ScorerLaws.CompositeBounds | internal/scoring/scorer.go:93-107 | with weights not negative and multipliers in [0, 1], from minus the candle weight to the sum of weights |
| ScorerLaws.ExtraDivergenceLowersIff | internal/scoring/scorer.go:333-351 | one more divergence lowers the multiplier exactly when it makes a second timeframe medium and none is strong |
| ScorerLaws.InterpolatedUnit | internal/scoring/scorer.go:140-171 | ramped multipliers stay in [0, 1] |
| ScorerLaws.ReadingsMoveOwnCategory | internal/scoring/scorer.go:66-92 | changing one reading moves the pre-penalty sum by its category's multiplier difference times that category's weight, nothing else |
| ScorerLaws.SignalsMoveOwnCategory | internal/scoring/scorer.go:66-107 | likewise BTC context, divergences, patterns and bullish signals |
| ScorerLaws.MomentumTakesShare | internal/scoring/scorer.go:430-445 | bullish momentum takes a fifth of a positive sum, weak bearish momentum a tenth of the rest |
| ScorerLaws.FirstTierDecides | internal/scoring/scorer.go:123-171 | the first tier containing a value gives its multiplier, ramped linearly from that of the tier one order below |
| ScorerLaws.BullishPenaltyGrows | internal/scoring/scorer.go:403-428 | the bullish penalty is a quarter, half and all of the candle weight from scores 8, 12 and 16 and never shrinks |
| ScorerLaws.OneSignalScores | internal/scoring/scorer.go:235-329 | what one candle signal scores |
| ScorerLaws.BtcTierDecides | internal/scoring/scorer.go:174-199 | BTC context scores by the first tier of the case that applies, 0.7 without one |
| ScorerLaws.LastWeightCounts | internal/scoring/scorer.go:209-233 | of several weights for one timeframe, strength or bonus the last listed counts |
| RateLimiter.Limiter.Allow | internal/llm/client.go:193-213 | the new bucket and the answer for every clock reading |
| RateLimiter.AllowedSinceCreation | internal/llm/client.go:178-213 | tokens stay within the bucket and calls allowed since creation are at most the bucket plus what elapsed time earned |
| RateLimiter.AllowedInAnyInterval | internal/llm/client.go:193-213 | after any earlier calls, an interval of length L allows fewer than maxRPM + 1 + what L earns |
| RateLimiter.BurstsAllowTwiceTheRate | internal/llm/client.go:177-191 | for every rate, two full bursts a minute apart are allowed |
| RateLimiter.EarnedIsAllowed | internal/llm/client.go:193-213 | a call a minute over maxRPM or more after the last fill is always allowed |
| RateLimiter.SpacedCallsAllAllowed | internal/llm/client.go:178-213 | calls no closer than that are all allowed, however many |
| Klines.GetHistoricalKlines | internal/exchange/binance_client.go:350-408 | terminates with every candle of the range once and in order, or an error exactly when one of its requests failed |
| Klines.RangeIs | internal/exchange/binance_client.go:350-408 | a range is ascending and holds exactly the candles opening within it |
| Klines.RangeAfterPage | internal/exchange/binance_client.go:397-404 | asking again after the n-th candle yields exactly the rest |
| Klines.PriceOutcome | internal/exchange/binance_client.go:465-485 | the first candle reaching either level decides, TP first within one candle; else the last close |
| Klines.GetPriceOutcome | internal/exchange/binance_client.go:459-486 | that outcome over the candles of the period, an error when a request failed |
| Klines.OutcomeBounded | internal/exchange/binance_client.go:456-486 | the outcome lies in [-slPct, tpPct] |
| Stores.CandleStore.Update | internal/market/candle_store.go:25-45 | the stored series is the last 200 of the log of all updates since the purge |
| Stores.CandleStore.Purge | internal/market/candle_store.go:48-54 | removes the symbol's known timeframes and nothing else |
| Stores.CandleStore.Get | internal/market/candle_store.go:56-70 | for limits up to 200, the answer of the unbounded log |
| Stores.TrimmedUpdate | internal/market/candle_store.go:31-44 | trimming before an update is not seen after it |
| Stores.LogHasNoRepeats | internal/market/candle_store.go:31-38 | no two neighbouring candles share an open time and the last is the newest update |
| Stores.OIHistory.Add | internal/indicator/oi_delta.go:28-39 | the stored snapshots are the last maxSize of the history |
| Stores.OIHistory.Delta | internal/indicator/oi_delta.go:49-74 | when it succeeds it equals the delta over the untrimmed history |
| Stores.DeltaNeverWrong | internal/indicator/oi_delta.go:61-74 | the trimmed history answers as the full one exactly when it kept the reference snapshot, else it fails |
| Stores.DeltaIs | internal/indicator/oi_delta.go:49-74 | the delta is the change from the newest snapshot before the cutoff to the newest of all, in per cent of the former |
| Reconciler.Reconciler.Reconcile | internal/execution/reconciler.go:27-126 | whatever placements fail and in any map order: the cached symbols become those held on the exchange that were cached or are short; kept positions change only order ids, re-placed exactly where unrecognised when placements succeed; one MANUAL result for exactly the removed positions with a trade id |
| Reconciler.Reconciler.RehydratePosition | internal/execution/reconciler.go:130-250 | an unknown short is cached with prices from its entry, anything else refused; stop and take-profit are the last resting orders taken for them, else placed, else empty; a LIMIT or MARKET order counts as the stop |
| Reconciler.Reconciler.ReplaceMissingOrders | internal/execution/reconciler.go:308-367 | exactly what is placed, what is cancelled (orders live under their stored number) and what is cached; after a failed placement the cache is as before, a stop already placed included |
| Reconciler.Reconciler.CleanupStale | internal/execution/reconciler.go:110-120 | removes exactly the cached symbols not held and persists one MANUAL result for each that has a trade id |
| Reconciler.Reconciler.CleanupStalePosition | internal/execution/reconciler.go:370-392 | removes one position and persists its result if it has a trade id |
| Reconciler.RecognisedIff | internal/execution/reconciler.go:260-305 | an order is recognised exactly when the stored id is the number of a live order whose price has not drifted; a client id never is |
| Reconciler.DriftedIff | internal/execution/reconciler.go:253-255 | a live price has drifted exactly when it differs from the cached one by more than a thousandth |
| Reconciler.RehydratedSides | internal/execution/reconciler.go:146-149 | a rehydrated short has its stop above and its take-profit below the entry |
| Reconciler.TakenIff | internal/execution/reconciler.go:152-167 | a reduce-only buy is taken for the stop exactly when STOP_MARKET, MARKET or LIMIT, for the take-profit when TAKE_PROFIT |
| Reconciler.ScanLiveOrders | internal/execution/reconciler.go:152-167 | which live orders are taken for stop and take-profit |
| Reconciler.BookHolds | internal/execution/reconciler.go:59-65 | the position index holds exactly the symbols with a non-zero amount |

## Left out

- Paper mode, the unlocked pre-settlement, settlement-fee and funding-avoidance routines, and TP widening: they act on copies read outside the lock; fee fields of a position are therefore arbitrary where a single close is described and unset over runs.
- A fill reported later than other handlers have acted: an order's fill at the exchange and the handling of its event are one step, and the pending-entry read is inside the entry step.
- Two entries of one symbol in `Lifecycle` runs: overlapping calls of the engine are modelled in `ExecutionEngine`, and what a second entry does to a position's orders is EntryLeavesOrdersMatchedIff.
- Rounding of order prices to ticks and decimal formatting of quantities: in `ExitPnl` an order rests at the price requested.
- Long positions: the bot opens shorts only, so the buy-side branch of the hard-stop handler has no counterpart.
- Executor calls that report failure but took effect, cache call failures, memory recording, loss counter, cooldown, notifications, ROI percentages.
- EveryExitIsPlanned: positions whose orders fill at other prices or ahead of TP1 are described per close by ClosePathsPersistNetPnl and FillLeavesOrdersMatchedIff instead.
- OpenOrdersAlwaysMatch: does not cover runs with failing placements, force closes or manual closes; for failing placements see RecordIsSettledOnce and RetryLeavesOrdersMatchedIff, and a manual close cancels nothing.
- The claim path after ClaimAfterIntent (strategy execution) and the frontrun interval, which the code no longer applies.
- Where an entry's balance comes from, cache or account: the balance read is an argument of the sizing step.
- Two clock reads within one scheduler tick: SchedulerTick reads once.
- The scan trigger at the end of a scheduler tick and its lock.
- Parsing of multi-timeframe bonus labels into numbers: the model's weight list carries the number.
- IEEE rounding and NaN; a zero entry price divides to minus infinity in the breakeven and force-stop conditions, elsewhere divisors are required to be non-zero.
- Candle patterns, ATR, volume and BTC context indicators, risk engine, LLM prompts, storage, streams, dashboard.
