# HyperQ execution engine: verified model

The engine trades perpetual futures. A model scores symbols, TrendProcessor turns
the best signal into an order, the Executor places it as a maker order first and a
market order second, RiskGuard and Sentinel watch the open positions and close
them, and the Reconciler merges what the exchange reports into the local book.
These tasks share one position map and compete for a two-word lock on each record.
This project models that logic in Dafny 4.11 and proves what it guarantees, over
all inputs, all reply patterns of the exchange and all interleavings.

`dafny verify dfyconfig.toml` checks everything.

## Modules

- `CloseProtocol`, `CloseExclusion`, `CloseHazards`, `CloseRefinement`: the close
  lock as a state machine over the steps of all tasks; the ledger that holds in
  every interleaving; which steps keep the lock exclusive, as an if and only if;
  how each other step leads to two closes, and runs from start-up that take such
  steps; and the proof that what the tasks' own code does to the book (visits and
  whole passes, decisions, ends of opens and closes) is a run of the protocol.
- `Models`, `RiskGuard`, `GuardPaths`, `Sentinel`, `TrendProcessor`, `Reconciler`:
  the position records and the tasks that work on them, as classes and methods
  that change them in place, each proved equal to a function of the old state;
  the main results are about those functions over whole histories.
- `Executor`, `CloseSafety`: two-phase execution. A `World` says for each call what
  the exchange really does and, separately, what it answers, so a call may fail
  although it took effect.
- `Orders`: from the tasks' decisions to the side and size of the orders placed.
- `Exposure`: the lock protocol and the exchange together, with the true exposure of
  every symbol.
- `WsProtocol`, `RateLimiter`: request/response correlation across reconnects, and
  the token bucket with its 429 pause.
- `Smoothing`, `Rsi`, `StochRsi`, `Adx`, `AdxReadings`, `Bands`: the indicator loops and the bounds they obey.
- `Inference`: choice of the best signal, pin-bar veto and flip rule.
- `Series`, `Reals`: sums, means and the algebra the proofs need.

Numbers are exact reals and clocks are naturals that never run backwards.
`u8` leverage is a bounded integer. Nanoseconds stand for `Instant`, milliseconds
for wall-clock time.

## What the proofs show about the code

- The lock excludes exactly as long as no lock is broken and no record dropped or
  replaced while its close is under way, and no record adopted while its symbol is being
  opened (`StepExact`, `RunExact`, `HarmBreaks`). That is so if Sentinel's check and
  unlock are one step, no scan of Sentinel's finds a close past
  `closing_timeout_ms`, and the Reconciler leaves alone the symbols being closed or
  opened (`MutualExclusion`); whatever else the Reconciler does, and whether the
  engine runs dry, does not matter. RiskGuard and Sentinel lock first and execute
  one after another (src/risk_guard.rs:178-180), and a maker phase alone takes 3.5
  seconds, so the time bound is the condition a maintainer should watch.
- Only the executor's early return in a dry run leaves a lock without its close
  (`StrayExact`); it stays until Sentinel breaks it or the Reconciler drops or replaces
  the record (`StrayStays`, `SuppressedIsForced`). A dry run that suppresses no order
  leaves no such lock, and no second close ever comes of one (`MutualExclusion`).
- The maker order is cancelled, but what it filled is known only if the status
  call succeeds. When it does not, the whole quantity is bought again:
  `TwiceHappens`. `OverbuysIff` and `RecordedExactIff`: with honest market replies
  an unseen maker fill is all that can make an open buy too much, or the book differ
  from the exchange.
- A close removes its record with up to a thousandth of its quantity unfilled, and
  what is left has no record. Over a run that adds up: `ExposureFollowsBook`,
  `DustAdds`. An open whose market order fills although its call failed leaves an
  exposure nobody records: `AbortedOpenLeavesIff`.
- The repository's README.md presents (lines 9 and 46) the momentum flip as the headline feature.
  `NoFlipIsEverSent`: any bar that would flip a signal has vetoed it already.
  Momentum trades come only from TrendProcessor's override.
- README.md:11 calls all stop-loss orders instantaneous market closes. The reason
  string of Sentinel's stop lacks the words the executor looks for, so that stop
  waits for a maker fill first: `AtrStopWaitsForMaker`.
- src/risk_guard.rs:24 says "every 5s"; the cycle runs every 100 ms
  (src/main.rs:349-356). The phases do not depend on the period.
- src/features.rs:265 speaks of the population standard deviation; the code, which
  the model follows, divides by `period - 1`. `cci_pandas_ta_buggy` computes the
  correct formula, as its comment says.
- The ADX is smoothed from the very first index of a DX series whose first `period`
  values are zero, so it starts from zero and cannot reach 100: `AdxCeiling`.
- A position adopted with an entry price of zero makes RiskGuard divide by zero:
  `TradeableIff`.
- A request whose waiter was dropped by a reconnect is sent all the same:
  `OrphanedSend`.

## Model

| member | source | states |
|---|---|---|
| CloseProtocol.BudgetInvInductive | src/models.rs:81-101 | Every step of every task, in dry run or not and at either grain of Sentinel's check, keeps the lock ledger: per record, locks taken are at most releases plus one, and generations of records are distinct |
| CloseProtocol.LockBudget | src/models.rs:81-101 | Over every run from start-up: the closes under way of a record are at most the locks ever taken on it, which are at most one more than its `is_closing := false` stores |
| CloseExclusion.StepExact | src/sentinel.rs:53-60 | From any state in which each close owns its lock and no two close the same position, a step of any task keeps that so iff it is harmless: no lock broken and no record dropped or replaced while a close of it is under way, no record adopted for the symbol being opened |
| CloseExclusion.RunExact | src/models.rs:81-101 | Over every run from start-up, dry or not, at either grain of Sentinel's check: the closes own their locks throughout iff every step is harmless |
| CloseExclusion.LateIff | src/sentinel.rs:53-60 | With an atomic check Sentinel can break the lock of a close under way iff it is scanning and some close has outlived its lock |
| CloseExclusion.StrayExact | src/executor.rs:55-58 | When every lock has its close, a step keeps that so iff it is not the executor's early return in a dry run |
| CloseExclusion.StrayStays | src/executor.rs:55-58 | A lock so left behind goes only when Sentinel breaks it or the Reconciler drops or replaces its record |
| CloseExclusion.MutualExclusion | src/sentinel.rs:53-60 | If the check is atomic, Sentinel's scans find every close on time, and the Reconciler drops or replaces no record being closed and adopts no symbol being opened, then over every run, dry or not, at most one close per position is queued or executing and owns its lock; every lock has its close throughout iff no close was suppressed, and then Sentinel never breaks a lock |
| CloseExclusion.EndsHitTheirOwnRecord | src/executor.rs:353-394 | Over every such run the record a close will remove or unlock is the record it was ordered for, and an open under way never overwrites a record |
| CloseHazards.HarmBreaks | src/models.rs:81-101 | The converse, from any state: a harmful step with Sentinel free to act can be followed by at most four more steps that put two closes of one position under way |
| CloseHazards.LateBreaks | src/sentinel.rs:53-60 | In particular, from any state with a late close that Sentinel is free to find, breaking its lock and locking again makes two closes |
| CloseHazards.LateCloseOverlaps | src/risk_guard.rs:178-180 | And such a state is reached from start-up: a close queued behind a slow one outlives its lock and is ordered a second time |
| CloseHazards.StaleReadBreaksNewerLock | src/sentinel.rs:55-58 | Without an atomic check, from start-up, every close on time: a lock time read before a release and a new lock breaks the new lock, and two closes are under way |
| CloseHazards.SuppressedIsForced | src/executor.rs:55-58 | From any state with Sentinel scanning, after a suppressed close and the timeout Sentinel breaks the lock |
| CloseHazards.DryRunLeavesLockToTimeout | src/executor.rs:55-58 | An instance from start-up, with no close ever late |
| CloseHazards.ReconcilerBreaksOwnership | src/reconciler.rs:73-79 | With the Reconciler, a record can be dropped and recreated under a close, whose end then removes the new record from under a newer close |
| CloseRefinement.LockRun | src/models.rs:81-96 | Locking a free record is exactly the protocol's swap followed by its stamp |
| CloseRefinement.GuardTickIsARun | src/risk_guard.rs:29-176 | RiskGuard's tick of one record, phases and all, is a run of the protocol: nothing, or one lock with one order queued behind it |
| CloseRefinement.SentinelVisitIsARun | src/sentinel.rs:48-145 | Sentinel's visit of one record is a run of the protocol, at either grain of its timeout check: nothing, one broken lock, one lock with its order, or, dry, a lock taken and given back |
| CloseRefinement.GuardCycleIsARun | src/risk_guard.rs:26-181 | A whole cycle, in any walking order and however long the visits take, is one run of the protocol: records tick, orders queue in walking order, and RiskGuard turns to executing them from the front |
| CloseRefinement.SentinelPassIsARun | src/sentinel.rs:45-150 | The same for a whole pass of Sentinel, dry or not, at either grain |
| CloseRefinement.DecisionIsARun | src/trend_processor.rs:71-217 | A reversal is the protocol's swap and stamp with one order queued, an open claims the free symbol, every other decision leaves book, queues and claim alone |
| CloseRefinement.CloseEndIsAStep | src/executor.rs:55-394 | Whatever the exchange answers, the executor's last act on the book at the end of a close is the protocol's success or failure step, and in a dry run its suppression |
| CloseRefinement.OpenEndIsAStep | src/executor.rs:191-243 | What an open makes of the book is a new, unlocked generation if something was recorded and nothing otherwise |
| CloseRefinement.MergeIsARun | src/reconciler.rs:31-71 | Merging a remote entry never touches a lock; taking a position over is a look-up followed by an insertion, two steps |
| CloseRefinement.ReconcilePassIsARun | src/reconciler.rs:26-81 | A whole pass of the Reconciler is one run of the protocol |
| CloseRefinement.DropIsAStep | src/reconciler.rs:73-79 | Dropping a zombie is the protocol's removal step |
| Models.MockPosition.constructor | src/models.rs:48-79 | A new record is unlocked, with all tracking at zero |
| Models.MockPosition.TryLockForClose | src/models.rs:81-96 | Succeeds exactly on an unlocked record, then sets flag and time and nothing else; otherwise changes nothing |
| Models.MockPosition.UnlockClose | src/models.rs:98-101 | Clears flag and time, whoever holds the lock, and nothing else |
| RiskGuard.TrackRoe | src/risk_guard.rs:52-61 | The whole record after absorbing one ROE reading |
| RiskGuard.RunPhases | src/risk_guard.rs:65-175 | The six phases with their flag amount to one memoryless comparison: close iff the ROE is under the floor of the best ROE or the flow cut fires, with the reason and the new flag stated |
| RiskGuard.CloseIfFree | src/risk_guard.rs:68-75 | An order is queued exactly when the lock was won |
| RiskGuard.PriceIsMidpoint | src/risk_guard.rs:35-50 | There is a price iff the stream has quoted: the middle of the REST quote if the stream's is over five seconds old and REST answers, else of the stream's, between bid and ask |
| RiskGuard.GuardOne | src/risk_guard.rs:52-175 | Tracking and phases together: whole new record and order as functions of the old record and the price |
| RiskGuard.TickOne | src/risk_guard.rs:29-175 | The price choice in front (stale stream, REST fallback, no quote), and the flag invariant kept |
| RiskGuard.UpdateRoeCycle | src/risk_guard.rs:26-176 | The map is walked in some order; the new book is the old one with the ticks taken, and the queue holds the orders in that order |
| RiskGuard.CycleIs | src/risk_guard.rs:26-176 | Whatever that order, every record takes exactly its own tick and there is one order for each record locked in this cycle, no symbol twice |
| GuardPaths.PathTracking | src/risk_guard.rs:52-61 | After any history of ticks, drift corrections, locks and unlocks: MFE and MAE are the extremes of zero and all ROE readings, the smoothed ROE is their 0.25/0.75 geometric sum, and MAE <= EMA <= peak EMA <= MFE |
| GuardPaths.RunRatchets | src/risk_guard.rs:59-61 | Over any history MFE, peak EMA and the stop floor never fall and MAE never rises |
| GuardPaths.FloorMonotone | src/risk_guard.rs:122-157 | The stop floor is a non-decreasing function of the best ROE, across all its bands |
| GuardPaths.StopIsMemoryless | src/risk_guard.rs:65-175 | After any history the next priced tick closes an unlocked record iff its ROE is below the floor of the best ROE ever read, or the flow cut fires; for reversion and momentum trades |
| GuardPaths.AlertIffBestAboveTen | src/risk_guard.rs:139-142 | After any history the alert flag is set iff the trade is a reversion trade and some reading exceeded 10 |
| GuardPaths.ProfitIsProtected | src/risk_guard.rs:122-135 | A reversion trade that once read above 8 is closed by the first priced tick below 1.5 that finds it unlocked |
| GuardPaths.GivesBackIff | src/risk_guard.rs:100-175 | What a position may give back of its best ROE: 15 points for a momentum trade above 10; 40, 25 or 15 percent for a reversion trade above 10, 20 or 40, and down to 1.5 above 8; closed iff more |
| GuardPaths.RoeIsReturnOnMargin | src/risk_guard.rs:52-53 | The ROE is the profit in percent of the margin, for long and short positions |
| GuardPaths.DeepLossIsCut | src/risk_guard.rs:65-77 | A loss of more than 12% of margin is closed by the next priced tick iff the record is free, whatever its history and kind; and only that is a hard stop |
| GuardPaths.FreshProfitIsLeft | src/risk_guard.rs:52-176 | A position without a history that does not lose is left alone |
| GuardPaths.PriceRoundTrip | src/sentinel.rs:139-140 | Price to ROE to price is the identity |
| GuardPaths.HistoryKeepsPrice | src/reconciler.rs:46-58 | Locking, unlocking, amount corrections on the same side, ticks without a price and Sentinel's note, in any number and order, keep what the rebuilt price depends on |
| GuardPaths.RebuiltPriceIsTickPrice | src/sentinel.rs:139-140 | The price rebuilt from the stored ROE is the price of RiskGuard's last priced tick, whatever has happened since that changed neither entry price, leverage nor side |
| Sentinel.Decide | src/sentinel.rs:64-129 | Which of stop, time barrier and funding defence fires first, and the one-time note of an overdue winner |
| Sentinel.CheckOne | src/sentinel.rs:53-145 | One visit: forced unlock, or decision and lock; whole new record and order |
| Sentinel.CheckPositions | src/sentinel.rs:45-145 | The map is walked in some order, each record visited at the time the walk reaches it; new book and queue accordingly |
| Sentinel.PassIs | src/sentinel.rs:45-145 | Whatever that order, every record gets exactly its own visit and there is one order for each record locked, no symbol twice |
| Sentinel.StopLevelRange | src/sentinel.rs:68-84 | For any volatility, leverage and regime the stop lies in [-12, -4.9], and in [-12, -7] outside a choppy market |
| Sentinel.StopIsTwoVolatilities | src/sentinel.rs:68-84 | The stop is the ROE after a move against the position of twice the entry volatility, held between -12 and -7, times 0.7 in a choppy market |
| Sentinel.ClosedIff | src/sentinel.rs:86-145 | A free record is closed iff its ROE is below the stop, it is overdue at a ROE of 3 or less, or it is about to pay more than 0.05% of funding within ten minutes |
| Sentinel.OverdueIff | src/sentinel.rs:91-98 | Overdue is held longer than the hours of its tier, to the millisecond |
| Sentinel.DeepLossAlwaysCloses | src/sentinel.rs:86-145 | A stored ROE below -12 yields an order iff the record is unlocked and the engine not dry |
| Sentinel.NeverLooserThanGuard | src/sentinel.rs:68-88 | As long as RiskGuard's floor is still -12, for reversion and momentum trades, every ROE below it is below Sentinel's stop as well |
| Sentinel.LocksAreRespected | src/sentinel.rs:53-145 | A locked record changes only by timing out; an order and a fresh lock come together, never one alone |
| Sentinel.StopExpectsTickPrice | src/sentinel.rs:131-141 | Sentinel's order expects the very price RiskGuard's last priced tick saw, if neither entry price, leverage nor side has changed since |
| Executor.Engine.FillOpen | src/executor.rs:132-206 | The orders an open places, what they really fill and what it is recorded with, for every pattern of replies including calls that failed but took effect |
| Executor.Engine.Remember | src/executor.rs:240-243 | The inserted record: signed amount, fill price, fresh tracking |
| Executor.Engine.ExecuteOpen | src/executor.rs:54-244 | The book after an open differs exactly by that record, and not at all when dry, refused or unfilled |
| Executor.OpenConservation | src/executor.rs:136-206 | Recorded minus really filled is seen minus really filled by the maker, for every reply pattern with an honest market reply |
| Executor.RecordedExactIff | src/executor.rs:136-206 | So the recorded amount equals the sum of both fills iff the whole maker fill was seen |
| Executor.RecordedPriceIsVwap | src/executor.rs:178-204 | With both fills seen, amount is their total and price their volume-weighted average, between the two fill prices |
| Executor.AtMostTwice | src/executor.rs:136-206 | Whatever the replies, total fills of one open are within [0, 2 * qty] |
| Executor.AtMostTwiceRounded | src/ws_api.rs:171-172 | The same for quantities off the five-decimal grid, plus one grid step |
| Executor.OverbuysIff | src/executor.rs:136-206 | An open buys more than it was asked to iff the maker order filled more than the executor saw and the market order then went through |
| Executor.TwiceHappens | src/executor.rs:158-178 | For every quantity the bound is reached: the maker fills, its status call fails, the market fills again |
| Executor.OpenBlocksRepeat | src/executor.rs:76-87 | Once an open is recorded the same order is refused, so the recorded amount has the order's side |
| Executor.RefusedIff | src/executor.rs:76-117 | An open is refused iff its symbol is held on its side, it would pay more than 0.05% of funding within two hours, or the quote is wider than 0.15% |
| Executor.RecordIsPaidFor | src/executor.rs:178-243 | The record's amount at its entry price is what both fills cost at their own prices, on the order's side |
| Executor.MakersWaitIff | src/executor.rs:143-160 | Opens rest up to a spread of 0.25%, closes other than a hard stop up to 0.30%; a fill without a reported price counts at its limit |
| Executor.SilentFillIff | src/executor.rs:191-206 | An open that records nothing has filled exactly what its market order filled although it reported an error |
| Executor.NoFallThrough | src/executor.rs:201-206 | The branch marked unreachable is unreachable for a positive quantity |
| Executor.Engine.FillClose | src/executor.rs:251-394 | The orders a close places with their reduce-only flag, what they really fill, and whether the record goes |
| Executor.Engine.ExecuteClose | src/executor.rs:245-395 | The book after a close: record removed, or unlocked, or untouched when dry |
| Executor.Engine.Forget | src/executor.rs:353-394 | Removes exactly the one record |
| Executor.Engine.Release | src/executor.rs:355-360 | Unlocks exactly the one record, if it is still there |
| CloseSafety.ReducesIff | src/ws_api.rs:194-196 | Of any set of orders on the exchange: no sequence of fills ever grows the exposure or changes its sign iff every order that can fill at all is marked reduce-only |
| CloseSafety.ClosesOnlyReduce | src/executor.rs:284-311 | So it is for the orders that any number of closes place, overlapping, stale or misinformed, filled piece by piece in any interleaving; and each fill comes off the exposure in full |
| CloseSafety.OpensAreNotTame | src/executor.rs:149 | It is not so for an open's orders, which are not marked |
| CloseSafety.OpenMoves | src/executor.rs:133-178 | Whatever is filled of an open's orders, in whatever pieces, moves the exposure by exactly that much in the open's direction |
| CloseSafety.OpenMovesAtMostTwice | src/executor.rs:143-178 | By at most twice the quantity, whatever the replies and fills, from the sizes of the orders sent |
| CloseSafety.OpenMovesTwice | src/executor.rs:143-178 | Twice is reached, long or short, for every quantity |
| CloseSafety.MakersRest | src/executor.rs:145-149 | Maker orders of opens and closes rest at the touch of their own side and cross no spread |
| CloseSafety.CloseAsksExactly | src/executor.rs:251-311 | A close's orders are on the reducing side for no more than its quantity, and the market is asked for exactly what the maker was not seen to fill |
| CloseSafety.CloseFilledTotal | src/executor.rs:284-311 | What a close fills of its orders is all it fills |
| Orders.GuardOrderTakesAway | src/risk_guard.rs:66-75 | RiskGuard's orders take their record's position away at the tick's price; a loss of more than 12% of margin, and nothing else, goes to the market at once as one order |
| Orders.SentinelOrderTakesAway | src/sentinel.rs:131-141 | So do Sentinel's |
| Orders.ReversalTurnsWithSignal | src/trend_processor.rs:74-98 | A reversal takes the held position away, and every order placed for it is on the side of the signal |
| Orders.DecidedOpenMoves | src/trend_processor.rs:114-217 | From signal to exchange: an open moves the exposure of the signal's symbol in the direction decided, by at most twice its quantity, and is recorded as a position of that direction with the signal's tier, regime and volatility |
| CloseSafety.RemovedMeansClosed | src/executor.rs:284-394 | In any such run, once one close has finished in a way that removes its record, at most 0.1% of its quantity is open at that moment and ever after, even if its status under-reported; nothing at all if it went to the market |
| CloseSafety.TruthfulCloseRemovesIff | src/executor.rs:308-394 | With truthful replies the record goes iff at most 0.1% is left |
| CloseSafety.TruthfulWorlds | src/executor.rs:308-361 | Both outcomes occur for every order: a market fill removes the record, a market failure keeps it |
| CloseSafety.HardStopSkipsMaker | src/executor.rs:266-311 | RiskGuard's hard stop places one order, a reduce-only market order for the whole quantity |
| CloseSafety.AtrStopWaitsForMaker | src/executor.rs:266-284 | Sentinel's stop does not: it rests as a maker order whenever the spread allows, and some book always does |
| Exposure.PlayKeeps | src/executor.rs:74-394 | Every harmless step with honest replies keeps, symbol by symbol: a recorded exposure between flat and its recorded amount, one without a record near flat, and every close under way ordered for enough, give or take the dust of earlier closes |
| Exposure.FinishedWithin | src/executor.rs:308-394 | A close that removes its record leaves at most the dust there was and a thousandth of its own quantity, even if its status under-reported and the recorded amount was corrected meanwhile |
| Exposure.RunsProject | src/executor.rs:74-394 | Whatever happens on the market, every joint run is a run of the lock protocol |
| Exposure.ExposureFollowsBook | src/executor.rs:74-394 | Over every orderly run with honest replies, all tasks and symbols together: a symbol without a record has at most 0.1% of all that was ever closed of it open, and a recorded one lies between flat and its recorded amount, give or take as much |
| Exposure.OpensFromFlat | src/executor.rs:132-243 | Such runs exist: any order on the grid can be opened at the market from flat, exposure and recorded amount being its signed quantity |
| Exposure.DustAdds | src/executor.rs:308-309 | The total, not the last quantity, is what counts: on top of any dust from before, a close of any quantity whose maker order fills all but a thousandth or less leaves the rest of its own |
| Exposure.AbortedOpenLeavesIff | src/executor.rs:191-195 | An open that records nothing leaves the exposure alone iff its failed market order did not fill after all |
| WsProtocol.StepKeepsInv | src/ws_api.rs:110-162 | Every step of requests, reader and reconnect loop keeps the protocol invariant, id by id |
| WsProtocol.IdsAreFresh | src/ws_api.rs:111-133 | In every reachable state an insertion meets no entry under its id |
| WsProtocol.OneInFlight | src/ws_api.rs:135-162 | At most one request is sent and unanswered |
| WsProtocol.AnswersMatch | src/ws_api.rs:65-75 | A request is answered only by a response with its own id |
| WsProtocol.AnswersAreFinal | src/ws_api.rs:70-72 | A delivered response is never replaced and a finished request never changes its answer |
| WsProtocol.AnsweredIff | src/ws_api.rs:65-75 | Over every run: a request is finished with response r iff its wait ended by receiving and r is the first response with its id that found its entry; finished without one iff it was refused, timed out or given up |
| WsProtocol.DeliveredReaches | src/ws_api.rs:146-157 | A response delivered to a waiting request reaches it: receiving is possible, and nothing else can end the wait |
| WsProtocol.WaitEnds | src/ws_api.rs:146-161 | A sent request can always finish, with its answer in one step or by timing out in two, and releases the mutex |
| WsProtocol.AnswerArrives | src/ws_api.rs:110-157 | Any response can be received, from start-up on |
| WsProtocol.FinishedLeaveNothing | src/ws_api.rs:135-162 | A finished request leaves no entry behind |
| WsProtocol.ClearDropsNoSentRequest | src/ws_api.rs:84-87 | When the table is cleared no request is sent and waiting; only unsent ones are dropped |
| WsProtocol.SentWaiterLives | src/ws_api.rs:132-146 | A sent, unanswered request can still be answered iff no clear dropped its waiter |
| WsProtocol.SentWaiterLivesIff | src/ws_api.rs:84-137 | On the run itself: it can iff the table was not cleared between the request's insertion and its sending |
| WsProtocol.OrphanedSend | src/ws_api.rs:132-137 | Such a dropped waiter's order can be sent all the same, after the reconnect |
| RateLimiter.Limiter.constructor | src/rest_api.rs:41-48 | A new bucket is full, refilling at a sixtieth of the per-minute rate each second |
| RateLimiter.Limiter.Consume | src/rest_api.rs:50-66 | The bucket and the answer after one request; tokens stay in [0, capacity] |
| RateLimiter.Consumed | src/rest_api.rs:50-66 | Keeps tokens in [0, capacity] and the clock in order |
| RateLimiter.ConsumedLevel | src/rest_api.rs:50-66 | A request is granted iff the refilled level covers it, and the level falls by exactly what was granted, whether or not the refill was stored |
| RateLimiter.LevelAdvances | src/rest_api.rs:51-58 | The level at one time determines every later level |
| RateLimiter.SameLevelSameDecisions | src/rest_api.rs:50-66 | Two buckets equal in level at some time answer every later request sequence alike |
| RateLimiter.RefusalIsInvisible | src/rest_api.rs:60-65 | A refused request changes no later decision |
| RateLimiter.GrantsArePaid | src/rest_api.rs:50-66 | Weight granted in a window is at most the level at its start plus the inflow |
| RateLimiter.WindowBound | src/rest_api.rs:50-66 | After any earlier requests, weight granted between two times is at most capacity plus rate times their distance |
| RateLimiter.ConfiguredMinuteBound | src/rest_api.rs:101 | With 1200 tokens at 1200 a minute: at most 2400 in any sixty seconds |
| RateLimiter.RestGate.CheckLimitAndPause | src/rest_api.rs:106-126 | Pause, exhaustion or grant, with the whole new state |
| RateLimiter.RestGate.HandleResponse | src/rest_api.rs:128-142 | A 429, and nothing else, starts a pause |
| RateLimiter.PausedIffRecent429 | src/rest_api.rs:106-135 | Over every history the gate is paused iff some 429 is less than sixty seconds old |
| RateLimiter.PauseDecision | src/rest_api.rs:106-126 | An ordinary request is turned away by the pause exactly then, a close order never, and it costs no tokens |
| RateLimiter.AcceptedIff | src/rest_api.rs:120-125 | Unless the pause turns it away, a request is accepted iff the level covers its weight, and pays for it; otherwise it is refused and pays nothing |
| Smoothing.EmaSeries | src/features.rs:184-198 | The loop fills in the recurrence at every index, zero prefix included |
| Smoothing.RmaSeries | src/features.rs:354-365 | The same for Wilder's average |
| Smoothing.AtrSeries | src/features.rs:285-306 | The two ATR loops fill in the smoothed true range, seeded one bar late |
| Smoothing.EmaClosedForm | src/features.rs:184-198 | The EMA is a weighted sum of everything seen, with non-negative weights totalling one |
| Smoothing.EmaBounds | src/features.rs:184-198 | The EMA stays between the least and greatest value seen |
| Smoothing.EmaForgets | src/features.rs:194-196 | Two EMAs fed alike after m keep exactly (1-k)^(i-m) of their gap at m |
| Smoothing.EmaByTheBook | src/features.rs:189-196 | Each step weighs the new value 2 and the old average period - 1 in period + 1; the start is the mean |
| Smoothing.RmaByTheBook | src/features.rs:358-363 | Wilder's step weighs them 1 and period - 1 in period; the start is the mean |
| Smoothing.TrueRangeIsHull | src/features.rs:290-297 | The true range is how far the bar reaches together with the close before it |
| Smoothing.AtrIsRma | src/features.rs:285-306 | The ATR is the RMA of the true ranges without the first bar, one index later, zero-padded prefix included |
| Rsi.RsiSeries | src/features.rs:206-232 | The loop computes Wilder's averages of gains and losses at every index |
| Rsi.RsiRange | src/features.rs:206-232 | RSI lies in [0, 100] on every input |
| Rsi.Complement | src/features.rs:224 | Where both averages move, the RSI is gains as a share of all movement |
| Rsi.RsiIs100Iff | src/features.rs:224-229 | RSI is 100 iff the data it remembers never fell: data[0..=i] for every period above 1, the last step alone for period 1 |
| Rsi.RsiMirror | src/features.rs:206-232 | Negating the series gives 100 - RSI iff something it remembers moved |
| Rsi.AverageZeroIff | src/features.rs:219-228 | A Wilder average of non-negative data vanishes iff all the data it remembers does |
| StochRsi.StochasticRsi | src/features.rs:235-263 | %K and %D of the last bar, with both early returns |
| StochRsi.LinesInRange | src/features.rs:235-263 | Both lines stay in [0, 100] on every input |
| StochRsi.KIs100Iff | src/features.rs:242-254 | %K is 100 iff each bar it averages has its RSI at the top of a window that is not flat |
| StochRsi.KMirrorIff | src/features.rs:235-254 | Negating the closes gives 100 - %K iff none of the averaged windows is flat, as long as each started RSI value those windows look at remembers some movement |
| Adx.RmaDiv | src/features.rs:367-370 | Smoothed movement over ATR, zero where the ATR is zero |
| Adx.AdxSeries | src/features.rs:309-352 | The four readings in terms of the smoothed series, with the early return |
| Adx.DxLoop | src/features.rs:330-336 | The imbalance of the two indicators at every index |
| Adx.MovementWithinRange | src/features.rs:316-323 | The two movements of one bar never exceed its true range |
| Adx.SeedsMeet | src/features.rs:300-303 | One blend brings the earlier movement seed under the later ATR seed |
| Adx.DirectionalBound | src/features.rs:309-327 | From index period on, smoothed plus- and minus-movement total at most the ATR, although their seeds are one bar apart |
| Adx.IndicatorsWithinOne | src/features.rs:325-327 | At every index both indicators are non-negative and total at most one |
| Adx.ReadingRange | src/features.rs:309-352 | For low <= close <= high: DMP + DMN <= 100, and ADX and ADXR lie in [0, 100] |
| Adx.MirrorSwapsDirection | src/features.rs:309-352 | Turning the market upside down swaps DMP and DMN and leaves ADX and ADXR alone |
| AdxReadings.DirectionIff | src/features.rs:316-327 | DMP is positive iff some bar made a dominant new high, DMN iff some bar made a dominant new low |
| AdxReadings.ReadingsMeaning | src/features.rs:329-343 | DMP and DMN are the smoothed movements in percent of the ATR, DX their difference in percent of their sum |
| AdxReadings.AdxrIsMeanOfTwo | src/features.rs:345-349 | The ADXR is the mean of the ADX now and the ADX of the bars without the last two |
| AdxReadings.AdxSeedIsZero | src/features.rs:329-339 | The DX series starts with the ATR's zero prefix, so the ADX is seeded with zero |
| AdxReadings.AdxCeiling | src/features.rs:338-341 | The ADX of n bars is at most 100 * (1 - (1-1/period)^(n-period)), with equality iff every DX since the prefix is 100 |
| AdxReadings.DxFullIff | src/features.rs:329-336 | A DX is 100 iff the bars so far moved one way and never the other |
| AdxReadings.CeilingIffOneWay | src/features.rs:309-341 | So the ceiling is reached iff the market rose by index period and never fell, or fell by then and never rose |
| Bands.SumSquared | src/features.rs:272 | Cauchy-Schwarz for the window sums |
| Bands.LastDeviationBound | src/features.rs:269-272 | n * dev^2 <= (n-1) * scatter for the last value of any window |
| Bands.LastDeviationBoundTight | src/features.rs:269-272 | Equality at every window length, so the bound cannot be improved |
| Bands.LastCloseBound | src/features.rs:269-279 | n * (close-mean)^2 <= (n-1)^2 * sample variance |
| Bands.PositionBound | src/features.rs:274-280 | 4 * mult^2 * n * (bbp-1/2)^2 <= (n-1)^2 whenever the bands are distinct |
| Bands.PositionBoundAtTwo | src/features.rs:274-280 | The factor is 16 at multiplier 2 |
| Bands.BandsMeaning | src/features.rs:269-280 | Bands level with the mean, mult standard deviations away; position is the fraction of the way up at which the close lies; width is in percent of the mean |
| Bands.CciMeaning | src/features.rs:382-391 | CCI is the last deviation in units of c times the mean absolute deviation, positive iff the last price is above the mean of a window that is not flat |
| Bands.CciMirror | src/features.rs:375-392 | Turning the market upside down negates the CCI |
| Bands.LastDeviationAtMostHalf | src/features.rs:386-387 | One deviation is at most half of the total absolute deviation |
| Bands.CciBound | src/features.rs:375-392 | The absolute CCI is at most period / (2c) on every input |
| Reconciler.Reconcile | src/reconciler.rs:26-81 | One pass over the book equals merging all entries and dropping the rest; a failed call changes nothing |
| Reconciler.MergeEntry | src/reconciler.rs:32-70 | One entry: correction in place, adoption, or nothing |
| Reconciler.CorrectRecord | src/reconciler.rs:43-58 | Which of entry price, amount and leverage are overwritten |
| Reconciler.AdoptEntry | src/reconciler.rs:59-68 | A position unknown locally enters as a fresh record |
| Reconciler.DropZombies | src/reconciler.rs:73-79 | Exactly the symbols the exchange knows remain |
| Reconciler.KeysConverge | src/reconciler.rs:26-81 | Afterwards local keys are exactly the remote symbols with non-zero amount, for any remote list |
| Reconciler.DecisiveWins | src/reconciler.rs:31-71 | The last live entry of a symbol decides what its record agrees with |
| Reconciler.AmountsAndPricesAgree | src/reconciler.rs:46-58 | Amounts agree within EPSILON, leverage exactly, positive remote entry prices within 0.1% |
| Reconciler.SurvivorsUntouched | src/reconciler.rs:43-58 | A surviving record keeps lock, tracking, flags and origin |
| Reconciler.SecondPassIsIdle | src/reconciler.rs:26-81 | For a list without duplicate symbols a second pass changes nothing |
| Reconciler.AmountsAgreeIff | src/reconciler.rs:31-71 | Every live entry's amount agrees after a pass iff no symbol is listed twice, for lists whose entries of one symbol differ by more than two EPSILON |
| Reconciler.HedgedLegsCollapse | src/reconciler.rs:43-58 | For instance, of a long and a short leg only the last is kept |
| Reconciler.TradeableIff | src/reconciler.rs:59-68 | Every record can be ticked by RiskGuard afterwards iff no position is adopted with a zero entry price |
| Reconciler.AdoptedIsReversion | src/reconciler.rs:59-68 | A position taken over has the reported amount, is free and without a past, and is stopped by the reversion floor whatever happens to it |
| Inference.SelectBest | src/inference.rs:93-198 | In terms of the predictions: the signal chosen is that of the first of the likeliest ones for symbols not held with the two probabilities 0.20 or more apart, in the likelier direction with its probability and all else as predicted; there is none iff there is no such prediction; those for held symbols are sent on in order, likewise |
| Inference.Screen | src/inference.rs:205-259 | Veto and flip in the source's order; a failed fetch vetoes |
| Inference.Cycle | src/inference.rs:93-260 | Everything one cycle sends |
| Inference.BodyForcesVeto | src/inference.rs:212-236 | On a well-formed 5m bar a body beyond 1.5% against the signal always trips the 0.8% pin-bar veto |
| Inference.NoFlipIsEverSent | src/inference.rs:205-259 | So what is sent is the chosen signal unchanged, and it is withheld iff the fetch failed or the bar is a pin bar |
| Inference.FlipNeedsBrokenBar | src/inference.rs:220-243 | With positive prices a flip needs a bar whose open lies outside its own bounds |
| Inference.FlipFollowsFlow | src/inference.rs:220-243 | A flip goes the way of the order flow, near the extreme it runs to |
| Inference.BrokenBarFlips | src/inference.rs:220-227 | And such a bar does flip |
| Inference.NeverMomentumTier | src/inference.rs:86-91 | No signal of the momentum tier is ever sent |
| TrendProcessor.ProcessSignal | src/trend_processor.rs:63-218 | Decision and new book as functions of signal, book, ticker and balance; only a reversal touches the book, and only its lock |
| TrendProcessor.ReverseIfOpposed | src/trend_processor.rs:71-99 | Reversal exit: lock won and order made exactly when opposed, probable enough and unlocked |
| TrendProcessor.ConsiderOpen | src/trend_processor.rs:106-217 | Cap, override, threshold, sizing and dry run together |
| TrendProcessor.Classify | src/trend_processor.rs:114-144 | The regime override in the source's two branches is one symmetric condition |
| TrendProcessor.DecisionsRespectTheBook | src/trend_processor.rs:71-112 | An open respects the cap and never concerns a held symbol; a close comes iff opposed, probable enough and unlocked, and leaves the record locked |
| TrendProcessor.ReversedIff | src/trend_processor.rs:71-99 | A held symbol is closed iff its record is free, the signal reaches its tier's threshold, and it is a short signal for a long position or the reverse |
| TrendProcessor.OpenedIff | src/trend_processor.rs:101-217 | A position is opened iff its symbol is not held, there is room, the engine is live, and the signal reaches its tier's threshold or is overridden |
| TrendProcessor.OverrideFollowsTrend | src/trend_processor.rs:123-144 | The override fires only beyond 15% in 24 hours near the extreme on that side, and then the trend's way is opened; otherwise the signal's |
| TrendProcessor.OpenCarries | src/trend_processor.rs:202-211 | An open is for the signal's symbol and price, with its tier, regime and volatility |
| TrendProcessor.MarginIsAllocated | src/trend_processor.rs:162-180 | The allocated share of the balance is put in as margin, with 6 as the least notional, 50 for an unknown balance and a fifth for fixed sizing |
| TrendProcessor.DefenceLowers | src/trend_processor.rs:153-160 | Defence acts in a choppy market only, never raises the leverage and never takes it below 1 |
| TrendProcessor.MomentumOnlyByOverride | src/trend_processor.rs:116-144 | For a signal not of the momentum tier, the trade is a momentum trade iff the override fires, iff it goes against the signal |
| TrendProcessor.ReversalExpectsTickPrice | src/trend_processor.rs:79-85 | A reversal expects the very price RiskGuard's last priced tick saw, if neither entry price, leverage nor side has changed since |
| TrendProcessor.AllocationRange | src/trend_processor.rs:162-168 | With ordered bounds and threshold < 1 the allocation stays in [min, max], is monotone in probability and meets both ends |
| TrendProcessor.RoundingMovesNotional | src/trend_processor.rs:190-199 | Rounding moves the notional by at most 5 up to a price of 1000, and by at most 0.0005 of the price above |
| TrendProcessor.QuantityIsPositive | src/trend_processor.rs:190-201 | The quantity is positive; the fallback fires iff the size rounds to zero or below, and then the notional is the price |
| TrendProcessor.QuantityIsOnGrid | src/ws_api.rs:171-172 | Every ordered quantity survives the executor's five-decimal rounding unchanged |
| TrendProcessor.OrderIsWorthIntended | src/trend_processor.rs:153-211 | End to end: quantity times price equals the allocated notional times probability (and risk multiplier) up to the rounding of the price band; one unit is ordered iff that size rounds to zero or below |
| TrendProcessor.DecidedOpensFillAtMostTwice | src/trend_processor.rs:202-217 | End to end: an open decided here never fills more than twice its quantity, whatever the replies |

## Left out

- Interleavings are modelled on values: `CloseProtocol` and `WsProtocol` are state machines whose states are datatypes, not shared objects. `CloseRefinement` ties the first to the methods; the map guards, the `tx_guard` mutex and the oneshot channels appear as the conditions under which a step can be taken.
- Models.MockPosition.UnlockClose: its two stores are one step; between them the record is still locked, so that only another release can come in between.
- Sentinel.CheckOne: reads the clock once per record where the source reads it up to three times, and takes it not to lie before the stored lock time.
- CloseRefinement.GuardCycleIsARun: is about a pass nobody interrupts, as are `SentinelPassIsARun` and `ReconcilePassIsARun`; that other tasks step in between is covered by the lemmas about one visit, which start from any state.
- Reconciler.Reconcile: stamps all positions taken over in one pass with one time, where the source reads the clock for each.
- CloseProtocol.LockBudget: a position map access is one step, a look-up and the insertion that follows it two; the Reconciler's list of symbols to drop may be out of date, so it may drop any record at any time.
- Exposure.ExposureFollowsBook: counts what an open or a close filled when it is over; nobody trades the account by hand.
- CloseSafety.RemovedMeansClosed: takes the exposure to be at most the order's quantity and on its side when the run of closes begins, and no open of the symbol to fill during it.
- Executor.Engine.ExecuteOpen: asks for a positive quantity; TrendProcessor, its only caller, orders nothing else (`QuantityIsPositive`). The maker fill is the total at the end; the status reply may report less, more or nothing.
- Executor.OpenConservation: is about quantities on the five-decimal grid, which all ordered quantities are (`QuantityIsOnGrid`), and a status that reports one.
- Floating point: rounding, NaN and infinities. Where a division by zero would matter the model asks for a non-zero divisor: entry price in RiskGuard, leverage in the rebuilt price, signal price and `threshold != 1` in sizing. `Inference.RatioAbove` and `RatioBelow` do treat zero divisors as IEEE division does.
- The square root in `bbands`: `Bands.Bbands` is given the non-negative real whose square is the sample variance, and needs at least two values (one value divides by zero in the source).
- RateLimiter.RestGate.HandleResponse: a 401 ends the process; the model only reports it as a failure.
- Formatting of reason strings: a close reason is a datatype, and `Executor.IsHardStop` stands for the substring test.
- Replies of `set_margin_type`, `set_leverage`, `cancel_order` and `cancel_all_orders`, which the executor ignores; price and tick-size formatting; slippage warnings.
- `compute_features` and the indicators MACD, OBV, MFI, CMF, VWAP, ROC and Williams %R: assembly and simple one-pass sums with easier bounds than those proved.
- `run_macro_cycle`: logging only, its order list is always empty.
- The Python model and how predictions are made: `Inference.Prediction` is an input.
- Sockets, HTTP, JSON, TLS, ZMQ, signing, configuration, logging, metrics and the price, order-flow and funding streams: inputs to the modelled steps.
- Liveness: nothing says that the exchange ever answers.
