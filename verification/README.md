# Verified model of the trading backend

A Dafny model of the stateful parts of the trading backend, with proofs of what each protocol keeps over whole runs.

**Historical replay.** A replay session walks a frozen candle stream in batches chosen by the client. Every request
runs four separately committed phases: advance the cursor, evaluate the strategy, simulate execution, finalize.
A phase that raises leaves a marker that blocks everything but the retry of that request.
`ReplayMoney` holds the exact arithmetic, in integer units of 1e-8 with truncation toward zero; prices are exact reals.
`ReplayExecution` defines one candle and the pure fold over all candles, the reference for everything else.
`ReplayAccount` and `ReplayTrading` prove conservation, limits and the meaning of fills. `ReplayRules` says in plain
amounts what opens, closes and marks a trade, and proves that the program does that and nothing else; `ReplayStory` tells
from the candles alone which trades a replay consists of. `ReplayPipeline` specifies the phases, runs and faults over the
durable rows; `ReplayLog` has the facts about time grid and audit log; `ReplayRecovery` carries the invariant through every
history; `ReplayGuarantees` states what a client can rely on, and `ReplayAnswers` what a request is answered with.
`ReplayFailures` has the guard on which a candle raises and the inputs that never meet it, `ReplayOvertaken` the resets
that arrive in the middle of a request. `ReplayStore` is the imperative program: a class whose fields are the rows, and
the candle loops, each proved equal to the specification. The replay is proved for an arbitrary strategy, that is any
function of the candle prefix; `ReplayPlanner` is the program's own, and `ReplayCases` has two of its sessions in full.

**Execution handoff.** A confirmed candidate is claimed durably before its order is submitted.
`HandoffClaims` has the stored values and the judgement of an order response. `HandoffProtocol` is the composed
claim protocol (the idempotency ledger, its race fix and its review fix) as interleaved store operations of any number
of threads, and `HandoffSafety` proves at-most-once submission for it; `HandoffUndisturbed` says what each of its
operations comes to when nobody interferes, and that a thread which was disturbed stops. `HandoffRunner` is one runner as a class, with
the safety hotfix and the bootstrap at startup, where every store operation may raise or be the last one before the
process dies; since a run may be cut off at any operation, what its contracts say of the result holds at every
intermediate point.

**Execution commands.** `CommandOutbox` models three worker slots that claim and advance commands by transactions of
several statements, interleaved, with row locks and the partial unique index; a class models the table one transaction at
a time.

**Execution ledger.** `ExecutionLedger` reconstructs positions by walking backward from the live position, grouped by
symbol as the program does it; `ExecutionLedgerLaws` relates the walk to forward netting and to itself across days.

**Replay data and analytics.** `KlineCollector` models the candle pagination and the coverage check,
`ReplayPerformance` the streaming drawdown and the curve sampling. `Common`, `Arithmetic` and `TextOrder` are shared.

## Results that differ from what one might expect

- The reported net result of a completed session is the sum of realized results only under a condition:
  `CompletedSession` gives it, `OffGridGainIsLost` a session outside it. Conservation is likewise exact on the 1e-8 grid
  only (`ConservedExactlyOnGrid`): the first booking cuts the balance to the grid.
- A price at or below zero raises instead of being skipped, and then every retry of the request raises again and the
  session can be neither stepped nor reset (`PriceErrorIsForever`). `StepFailsExactly` has the guard: an open trade with
  a stored price of zero, or an entry whose plan has a stop or target at or below zero, or no risk, or whose close is
  below the price grid; a plan below the grid opens a trade that raises one candle later. `ReplayFailsExactly` and
  `RetryFinishes` carry the guard to sessions and retries; inputs on the scale of the grid never meet it
  (`OnScaleReplays`). The program's planner meets it exactly when the average range is too wide for the price
  (`PlannedRaises`), and does (`PlannedTargetBlocksForever`).
- Requests are kept apart by a lock (backend/replay_engine.py:119-134) that a reset does not take
  (backend/replay_session_repository.py:202-265). A reset from another instance between two phases is accepted, and the
  phases behind it go on. All replay guarantees hold exactly as long as that does not happen (`SoundUnlessOvertaken`,
  `WithoutOvertaking`); when it does, what is left is in no reachable state (`OvertakenIsUnsound`).
- A death of the process once the answer is judged and stored is recovered. An exception is not: if one of the store
  operations from the journal entry to the end of the completion raises, the error path replaces the resolution by
  SUBMISSION_UNKNOWN, even of a filled order and even after the slot was freed, which then blocks for ever
  (`UnknownOutcomeBlocksForever`). `JournalAndConclude` and `Submit` say exactly when: one of these operations raises,
  and the write of the error path takes effect.
- A death between the reservation of a candidate and its claim leaves a record that no claim stands for. The candidate
  is then never submitted, and at the head of the queue it answers every run that the checks let through with a claim
  conflict and stops the bot (`StrandedForever`, `RunOnce`).
- Released order ids are as distinct as the first 27 characters of the fingerprints (`OrderIdsCollideWithHash`).
- A response without a readable code counts as a refused order (`NoFillOnlyWhenSettled`).
- Removing a candidate makes it absent only if it was queued once (`RemoveFirstCounts`), which the queue ensures.
- The count check of a claim is redundant after the slot check in one snapshot (`FreeSlotLeavesRoom`), and neither is
  what keeps slots apart (`ChecksCanBothPass`).
- The backward walk is forward netting only if no reported closed size is larger than the position leaves to close
  (`WalkRefinesForward`); the code takes the larger of the two. The count of completed trades tolerates some of the larger
  reports; `CompletedTrades` says which.

## Model

| member | source | states |
|---|---|---|
| ReplayGuarantees.RunIsReplay | backend/replay_simulated_execution.py:466-704 | after any history of whole requests, store faults, retries and resets, a session that is not waiting for a retry holds exactly the account, trades and audit notes of one pure fold over the frozen candles behind its cursor, and the status that position implies |
| ReplayGuarantees.BatchSplitInvariance | backend/replay_step_repository.py:261-287 | two histories of one frozen session that stand at the same cursor agree on every trade, on balance, equity and status, and on every audit note, however the candles were batched |
| ReplayGuarantees.ExactlyOnceInOrder | backend/replay_simulated_execution.py:514-535 | in every state such a history reaches the events are numbered 0 to n-1 without a gap, and each candle behind the cursor is advanced, evaluated and marked once and in grid order; only while a marked request is unfinished may candles lack evaluation or execution, and then exactly the whole batch of that request |
| ReplayGuarantees.FailedStepBlocks | backend/replay_engine.py:161-199 | while a request is unfinished, no other request, no repeat with other parameters and no reset changes any row |
| ReplayGuarantees.RetryFinishes | backend/replay_engine.py:282-307 | without a further store fault the retry of the unfinished request succeeds if and only if no candle behind the cursor meets the guard of the execution, in particular whenever closes and plans are on the scale of the price grid, and then the session is idle again; otherwise it stays blocked at execution |
| ReplayGuarantees.PriceErrorIsForever | backend/replay_simulated_execution.py:36-46 | once a candle behind the cursor meets the guard, no history of requests, faults and resets ever gets past it |
| ReplayGuarantees.StepServes | backend/replay_engine.py:282-307 | from any reachable session on, a request that is answered is on record, one that raises has changed nothing or left the session waiting for its retry, and the session is again a pure replay |
| ReplayFailures.StepFailsExactly | backend/replay_simulated_execution.py:542-704 | one candle raises if and only if its guard holds: the open trade has a stored stop, target or entry price that is not positive, or, with none open any more and before the final candle, an eligible plan raises or opens a trade at a close below the price grid |
| ReplayFailures.ReplayFailsExactly | backend/replay_simulated_execution.py:542-704 | the replay of a prefix raises if and only if one of its candles meets that guard |
| ReplayFailures.OnScaleReplays | backend/replay_simulated_execution.py:325-362 | if every close and the stop and target of every eligible plan are at least one step of the price grid and something is risked, every prefix replays |
| ReplayFailures.OpenedUnpriced | backend/replay_simulated_execution.py:351-410 | an opened trade stores an entry, stop or target of zero exactly where the close, stop or target is below the price grid |
| ReplayFailures.EntryRaises | backend/replay_simulated_execution.py:325-341 | with no trade open and before the final candle, an eligible decision raises if and only if its stop or target is not positive, or its risk percentage is not positive behind a plan that would be taken; otherwise it opens the trade or changes nothing |
| ReplayFailures.NothingEligible | backend/replay_simulated_execution.py:599-604 | without an eligible verdict no trade opens and the balance stays the initial one |
| ReplayPlanner.EvaluateShape | backend/replay_strategy_risk.py:63-116 | an eligible verdict has 50 candles, a positive average range and a plan at one and a half ranges to the stop and three to the target |
| ReplayPlanner.VotesDecide | backend/replay_strategy_risk.py:78-103 | the planner goes long or short exactly when three of that side's four votes agree, which is never both, so no tie is broken; it risks one percent on four votes and three quarters on three |
| ReplayPlanner.PlanIs | backend/replay_strategy_risk.py:98-103 | the stop of a plan is one and a half average ranges behind the close and the target three ahead |
| ReplayPlanner.PlannedRaises | backend/replay_strategy_risk.py:98-103 | a plan of the planner raises if and only if one and a half average ranges reach the close for a long, or three for a short |
| ReplayPlanner.PlannedReplays | backend/replay_strategy_risk.py:63-116 | a session of the program's own planner replays to any position if at each candle the close and the nearer price of an eligible plan are at least one step of the price grid |
| ReplayPlanner.MoveIsFollowed | backend/replay_strategy_risk.py:78-103 | after 49 closes at 100 the planner follows the fiftieth, however little it moves, with exactly three of four votes and the plan of the average range |
| ReplayPlanner.ShortTargetBelowZero | backend/replay_strategy_risk.py:98-116 | fifty five-minute candles whose votes and average range make the planner itself go short with a target below zero: the fiftieth meets the guard |
| ReplayCases.PlannedTargetBlocksForever | backend/replay_engine.py:161-199 | stepped to that candle, this session waits for its retry for ever, whatever is requested, retried or reset |
| ReplayCases.OffGridGainIsLost | backend/replay_simulated_execution.py:731-749 | a five-minute session under the program's own planner that completes in one request with a realized gain of 120000000 units and a reported net result of 119999999 |
| ReplayOvertaken.SoundUnlessOvertaken | backend/replay_engine.py:119-134 | a request with resets arriving in its gaps, or a reset, keeps the session one that the guarantees cover if and only if no reset is accepted while the request is unfinished |
| ReplayOvertaken.WithoutOvertaking | backend/replay_engine.py:282-307 | overlapping requests and resets in which that never happens come to a history of whole ones |
| ReplayOvertaken.OvertakenIsUnsound | backend/replay_session_repository.py:202-265 | an overtaken request leaves a session without a cursor that is not READY, which no history of whole operations reaches |
| ReplayOvertaken.FreshIsOvertaken | backend/replay_session_repository.py:223-230 | a reset that arrives behind the advance of a fresh request is always accepted, since the status is not RUNNING |
| ReplayOvertaken.MarkerIsOvertaken | backend/replay_engine.py:161-199 | a reset that arrives between a strategy phase that raised and the marker of that failure is accepted; the marker is then written all the same and leaves a session without a cursor RUNNING and waiting for the request |
| ReplayAnswers.RequestAnswered | backend/replay_engine.py:282-307 | an accepted request whose candles can be executed is answered with its candles, one decision each from the equity before it, and its report, and leaves the row, trades, record and events of exactly that |
| ReplayAnswers.ReplayCounts | backend/replay_simulated_execution.py:706-749 | the audit notes of a stretch of candles count the trades opened and closed on it, and every eligible verdict is counted as opened or passed over |
| ReplayAnswers.RequestRefused | backend/replay_step_repository.py:181-297 | what an idle session answers a request it does not take on, in the order of the checks and without a change |
| ReplayAnswers.RequestStuck | backend/replay_engine.py:161-199 | a request that raised on the way leaves the marker with its id and target status, the cursor behind its candles, and raises the error of the execution or of the store |
| ReplayAnswers.ResetClears | backend/replay_session_repository.py:202-265 | a new session and a reset one stand before the first candle with the initial balance; a reset keeps the request records only |
| ReplayGuarantees.AcceptedStepsShrink | backend/replay_step_repository.py:248-259 | a newly accepted request moves the cursor strictly on by the candles it asked for and are left, whether or not its later phases succeed |
| ReplayGuarantees.ReachableAccountOk | backend/replay_simulated_execution.py:565-569 | in every reachable state balance and equity are not negative, the balance is exactly the initial balance plus what the trades booked, and only the last trade may be open |
| ReplayGuarantees.CompletedSession | backend/replay_simulated_execution.py:731-749 | a completed session has no open trade, and its net result equals the sum of realized results if and only if the initial balance is on the 1e-8 grid, nothing was traded, or that sum is not a gain |
| ReplayAccount.ReplayKeeps | backend/replay_simulated_execution.py:542-729 | every prefix of the replay keeps the account well formed and conserved, fails on non-positive prices only, so neither negative-balance raise, nor a duplicate trade, nor a lost row is reachable, and leaves no trade open at the end |
| ReplayAccount.StepCandleKeeps | backend/replay_simulated_execution.py:542-729 | one candle keeps the account, and the final candle neither opens a trade nor leaves one open |
| ReplayAccount.SettleKeeps | backend/replay_simulated_execution.py:235-309 | closing replaces the open row by the closed one, and the balance moves by exactly what the trade booked |
| ReplayAccount.CloseTradeBooks | backend/replay_simulated_execution.py:247-259 | effective gross minus all fees is the realized result, and the account never loses more than it holds |
| ReplayAccount.AtMostOneOpen | backend/replay_simulated_execution.py:148-156 | two open trades at once cannot be |
| ReplayAccount.OpenIsLast | backend/replay_simulated_execution.py:148-156 | the open trade that is loaded is the last row of the table, or there is none |
| ReplayAccount.ConservedExactlyOnGrid | backend/replay_simulated_execution.py:247-259 | the balance is the initial balance plus the booked sum exactly if and only if the initial balance is on the grid or nothing was traded |
| ReplayAccount.BookedIsRealized | backend/replay_simulated_execution.py:731-749 | with no trade open the books hold the realized results alone |
| ReplayAccount.QuantityIsLargest | backend/replay_simulated_execution.py:340-345 | the quantity is the largest one on the grid within both the risk and the leverage limit |
| ReplayAccount.SizedQuantity | backend/replay_simulated_execution.py:340-362 | notional at the recorded entry price is within equity times leverage, and the loss at the recorded stop within the risk amount plus one price step per coin, although each is truncated separately |
| ReplayAccount.OpenTradeWithinLimits | backend/replay_simulated_execution.py:312-410 | a trade that opens is well formed, pays the exact fee less than one unit cut and below the balance, and keeps the leverage and risk limits |
| ReplayRules.OpensExactly | backend/replay_simulated_execution.py:312-410 | a trade opens if and only if it is the one of the rule: eligible verdict with positive prices on their own sides of the close, prices cut to eight decimals, the risk share of the equity in whole units, the largest quantity within that risk and the notional limit, and the exact fee in whole units |
| ReplayRules.EntryDecided | backend/replay_simulated_execution.py:325-362 | which entry raises and over what, and which is skipped for which reason, in the order of the checks |
| ReplayRules.DecidedAs | backend/replay_strategy_risk.py:98-116 | a stored decision is the verdict over its candles with the quantity that the risk buys at the recorded stop distance, in whole units |
| ReplayRules.ExitsExactly | backend/replay_simulated_execution.py:159-206 | a trade is closed on a candle behind its entry if and only if the candle touches stop or target, the stop first, at the stop or at the open beyond it |
| ReplayRules.ClosesExactly | backend/replay_simulated_execution.py:235-309 | a close books exactly the rule: gross and exit fee in whole units of the exact ones, a loss beyond the account cut to what it holds, all fees off the result, and the balance in whole units |
| ReplayRules.CandleFollows | backend/replay_simulated_execution.py:542-729 | one candle: first the exit, then the entry, then the end of the session, then the mark, each with its account and its audit note by the rules |
| ReplayStory.ReplayMoves | backend/replay_simulated_execution.py:542-729 | between two candles of a replay the table changes only by the trade the candle closes and the one it opens; it opens one if and only if none is open, the session goes on, something is left and the verdict opens it |
| ReplayStory.TradeExplained | backend/replay_simulated_execution.py:542-729 | every trade of every prefix was opened by the verdict of one candle, sized from the initial balance and the results realized before, was touched by no candle while it stayed open, and is closed by the first that touches it or by the final one |
| ReplayStory.FeesAreExact | backend/replay_simulated_execution.py:95-96 | over every prefix the fees of an open trade are the exact entry fee less than one unit cut, and those of a closed one the exact entry and exit fee less than two units cut |
| ReplayAccount.StoppedWithinRisk | backend/replay_simulated_execution.py:178-205 | a stop hit without a gap closes the trade with a gross loss within its risk amount plus one price step per coin |
| ReplayMoney.SizedLossBound | backend/replay_simulated_execution.py:106-113 | the truncated loss between two truncated prices stays within the risk that sized the quantity, plus one price step per coin |
| ReplayTrading.StopGoesFirst | backend/replay_simulated_execution.py:159-206 | a candle behind the entry closes the trade exactly when it touches stop or target; the stop goes first, at the stop or at the open beyond it, which was traded and is no better, and the target pays the target |
| ReplayTrading.LiabilityIsCapped | backend/replay_simulated_execution.py:116-126 | the applied loss is the raw one unless that exceeds what the account holds, and then exactly all it holds, with the difference reported |
| ReplayTrading.CloseIsNearExact | backend/replay_simulated_execution.py:106-126 | what a close brings is within two units of the exact result net of the exit fee, or exactly minus the whole balance when liability is limited |
| ReplayTrading.MarkIsNearExact | backend/replay_simulated_execution.py:413-423 | the marked equity is the balance plus the exact open result cut by less than two units, never negative |
| ReplayExecution.StepIgnoresCandidateQuantity | backend/replay_simulated_execution.py:312-347 | decisions that differ only in the batch-dependent candidate quantity trade alike |
| ReplayRecovery.AdvanceFresh | backend/replay_step_repository.py:219-297 | a fresh request is accepted if and only if its cursor is current, the snapshot is full, candles remain and the store commits; it then takes the next candles of the frozen stream |
| ReplayRecovery.AdvanceCommits | backend/replay_step_repository.py:299-431 | what an accepted advance stores: cursor, remaining count, events and the response, with this request unfinished |
| ReplayRecovery.StrategyPhase | backend/replay_strategy_risk.py:149-260 | the strategy phase stores one decision per candle, each that of the pure replay but for the candidate quantity, or raises and changes nothing |
| ReplayRecovery.BatchAgrees | backend/replay_simulated_execution.py:542-729 | executing a batch goes through the accounts of the pure replay, wherever the batch boundaries are |
| ReplayRecovery.ExecutionPhase | backend/replay_simulated_execution.py:434-530 | the execution phase is skipped if stored already, and otherwise commits the account and notes of the pure replay or raises with its error |
| ReplayRecovery.FinalizePhase | backend/replay_engine.py:202-275 | finalizing leaves the session idle, with the marker cleared and the request finished |
| ReplayRecovery.EnrichOutcome | backend/replay_engine.py:282-307 | the phases of an unfinished request either run through to an idle session or leave it blocked at the phase that raised, with everything before it kept |
| ReplayRecovery.StepAccepted | backend/replay_engine.py:282-307 | an accepted request moves the cursor and then runs through or blocks at the phase that raised |
| ReplayRecovery.StepRetried | backend/replay_engine.py:282-307 | a retry of the unfinished request resumes at the phase that raised |
| ReplayRecovery.StepRepeated | backend/replay_step_repository.py:164-178 | repeating a finished request returns the stored response and changes nothing |
| ReplayRecovery.StepRefused | backend/replay_step_repository.py:210-235 | every other request is refused and changes nothing, with the error that fits |
| ReplayRecovery.ResetOutcome | backend/replay_session_repository.py:202-265 | reset is refused while a request is unfinished and otherwise restores the initial session, keeping the request history |
| ReplayRecovery.RunKeeps | backend/replay_engine.py:161-199 | the invariant of every history: idle at a position, or blocked by exactly one unfinished request |
| ReplayLog.FullSnapshotIsGrid | backend/replay_step_repository.py:248-297 | a snapshot of aligned candles with the expected count is the time grid itself |
| ReplayStore.Session.AdvanceSession | backend/replay_step_repository.py:181-431 | the rows and the response of the advance phase, or its error with nothing changed |
| ReplayStore.Session.EnrichStrategy | backend/replay_strategy_risk.py:149-260 | the rows and the response of the strategy phase, or its error with nothing changed |
| ReplayStore.Session.EnrichExecution | backend/replay_simulated_execution.py:434-859 | the rows and the response of the execution phase, or its error with nothing changed |
| ReplayStore.Session.StepSession | backend/replay_engine.py:282-307 | all phases of one request, in order, with the marker written when one raises; for a client, from a new session on: unless the session waits for a retry its rows hold the pure replay of the candles behind the cursor, an answered request is on record, and one that raises has changed nothing or is the one waited for |
| ReplayStore.BatchLoop | backend/replay_simulated_execution.py:542-729 | the candle loop over mutable balance, equity, open trade and rows computes the batch of the specification |
| ReplayStore.StepLoop | backend/replay_simulated_execution.py:542-704 | one turn of the candle loop computes one candle of the specification |
| ReplayStore.AdvanceEvents | backend/replay_step_repository.py:299-348 | the event loop of the advance writes consecutive numbers |
| ReplayStore.StrategyEvents | backend/replay_strategy_risk.py:190-243 | the evaluation loop writes one decision per candle prefix and numbers its events consecutively |
| HandoffClaims.FilledOnlyOnFullEvidence | backend/execution_handoff.py:160-265 | an order counts as filled if and only if its code is 0, no transport flag is set, and all nine pieces of fill evidence are there, each named |
| HandoffClaims.RefusalCodes | backend/execution_handoff.py:160-205 | which responses are of unknown transport, invalid, refused, without verification, or filled |
| HandoffClaims.StateCodes | backend/execution_handoff.py:234-250 | which states of a verification are partial, cancelled, rejected, unresolved or invalid |
| HandoffClaims.ReviewedUnlessSettled | backend/execution_handoff.py:252-265 | an operator has to look at an order exactly when it stays unresolved |
| HandoffClaims.NormalizedConcat | backend/execution_handoff.py:149-150 | states are compared character by character |
| HandoffClaims.NormalizedLetter | backend/execution_handoff.py:149-150 | of each character, a letter counts in lower case, a digit as it is, and anything else not at all |
| HandoffClaims.NoFillOnlyWhenSettled | backend/execution_handoff.py:754-771 | an order is given up as not filled if and only if the exchange refused it, or reports it cancelled or rejected and settled; everything else stays unresolved |
| HandoffSafety.AtMostOnce | backend/execution_idempotency_review_fix.py:221-242 | over any interleaving of any number of threads, with exceptions and process deaths between any two store operations, no candidate key has its order id released twice |
| HandoffSafety.ReleasedAfterThreeReads | backend/execution_idempotency_review_fix.py:66-115 | whenever an order id is released, the active claim, then the ledger, then the active claim again had been read as CLAIMED under the same claim id and key |
| HandoffSafety.OrderIdsCollideWithHash | backend/execution_idempotency.py:49-55 | over any run, two released order ids are equal if and only if the first 27 characters of the fingerprints of their keys are |
| HandoffSafety.EmittedIds | backend/execution_idempotency.py:48-50 | a released order id is the fixed prefix and the first 27 characters of the fingerprint of the key it was released for |
| HandoffSafety.EmitsAtMostOne | backend/execution_idempotency_review_fix.py:221-242 | a step releases an order id exactly when its thread passes the last check, and spends the binding |
| HandoffSafety.ReserveKeeps | backend/execution_idempotency.py:311-345 | the inserted ledger reservation is what makes the right to submit unique |
| HandoffSafety.RunKeeps | backend/execution_idempotency.py:311-412 | the invariant of every run: at most one holder of the right to submit under a fingerprint, none after a release, none without a ledger record |
| HandoffSafety.UndisturbedClaims | backend/execution_idempotency.py:311-383 | left alone, create_claim ends with the claim in the slot, in the ledger and bound to the thread |
| HandoffSafety.UndisturbedSubmits | backend/execution_idempotency_review_fix.py:182-242 | a free slot and an unknown candidate: left alone, the thread claims it and releases its order id |
| HandoffUndisturbed.UndisturbedTransition | backend/execution_idempotency_review_fix.py:197-219 | left alone, a transition leaves the claim complete in its new state, its ledger record following it, whatever was there before, and its binding spent unless it went to CLAIMED |
| HandoffUndisturbed.UndisturbedBootstrap | backend/execution_idempotency_review_fix.py:118-140 | left alone, the bootstrap completes the claim in the slot and lets the ledger follow it |
| HandoffUndisturbed.UndisturbedArchive | backend/execution_handoff.py:374-381 | left alone, archiving keeps the claim as the last one and frees the slot |
| HandoffUndisturbed.KnownKeyIsRefused | backend/execution_idempotency.py:316-336 | a key the ledger knows is not claimed, and nothing changes |
| HandoffUndisturbed.TakenSlotConflicts | backend/execution_idempotency.py:338-362 | with the slot taken, the reservation ends as a recorded conflict and the slot stays |
| HandoffUndisturbed.RaisedClaimIsRecorded | backend/execution_idempotency.py:338-362 | an exception while the slot is taken or read back is recorded as a failed claim |
| HandoffUndisturbed.DisturbedStops | backend/execution_idempotency_race_fix.py:15-104 | a thread that reads back rows that are not its own changes no row and releases nothing: it stops as an exception would stop it, or goes on to record the claim it lost as failed |
| HandoffRunner.Handoff.CheckHead | backend/execution_handoff.py:571-695 | the checks before a claim: what they answer, and which of them drop the head of the queue |
| HandoffRunner.RemoveFirstIs | backend/setup_queue_transaction.py:24-72 | removal takes out the first candidate of the key and leaves the others in their order |
| HandoffRunner.Handoff.RunOnce | backend/execution_handoff.py:545-941 | one run. Without faults a new head that the checks let through is submitted and journalled once under the drawn id, answers Executed exactly for a fill, and ends archived and COMPLETED with slot and queue cleared if the answer settles it, UNRESOLVED in the slot and still queued if not, and SUBMISSION_UNKNOWN if the submission raises; what the checks drop or keep is said for every head. Cut off anywhere: an unresolved claim is left untouched, at most the queue head is submitted under a fingerprint new to the ledger, a resolved claim is left pending or done; a head without a key stays where it is and nothing moves; records no claim in the slot stands for are untouched; a head the ledger knows already leaves the queue if and only if the checks drop it, and otherwise answers a claim conflict and stops the bot, or raises if the record is another key's, and a cut at the reservation is what leaves a head so; without faults a pending claim is finished and an unresolved one reported and the bot disabled |
| HandoffRunner.Handoff.RecoverOrBlock | backend/execution_handoff.py:469-504 | a claim of unknown outcome moves nothing; a resolved one is finished or stays pending |
| HandoffRunner.Handoff.CompleteRecovered | backend/execution_handoff_safety_hotfix.py:153-202 | recovery restores the accounting once and then completes, and stays recoverable wherever it is cut off; without the evidence of a fill it only disables execution |
| HandoffRunner.Handoff.RestoreAccounting | backend/execution_handoff_safety_hotfix.py:61-127 | a recovered fill is journalled if and only if it was not, and accepted exactly on the evidence written out; without it nothing changes |
| HandoffRunner.Handoff.FinishResolved | backend/execution_handoff.py:395-466 | completion removes the candidate, completes claim and ledger, archives and frees the slot, in an order that leaves nothing else behind when cut off |
| HandoffRunner.Handoff.ArchiveAndClear | backend/execution_handoff.py:374-381 | the slot is emptied only after the completed claim is archived |
| HandoffRunner.Handoff.CreateClaim | backend/execution_idempotency.py:311-383 | the claim is made only if its key is new to the ledger, and is in slot and ledger when returned; cut off at the reservation or its read-back it leaves exactly the reservation, with the slot empty, and cut off at the slot a record of the failure if the cut was an exception |
| HandoffRunner.Handoff.BootstrapClaim | backend/execution_idempotency_review_fix.py:118-140 | at startup the claim in the slot gets its identity fields and the ledger a record that follows it, and nothing else changes wherever it is cut off |
| HandoffRunner.Handoff.Transition | backend/execution_idempotency.py:385-412 | claim first, then its metadata, then the ledger; a cut leaves one of these stages |
| HandoffRunner.Handoff.EnsureMetadata | backend/execution_idempotency_race_fix.py:37-104 | the ledger record of an older claim is created and the claim completed by compare-and-swap |
| HandoffRunner.Handoff.PersistClaim | backend/execution_handoff.py:319-328 | the claim is written and read back |
| HandoffRunner.Handoff.WriteRecord | backend/execution_idempotency.py:73-90 | the ledger record is written and read back |
| HandoffRunner.Handoff.Resolve | backend/execution_handoff.py:724-785 | submission and judgement of the answer: a settled claim stores the response it was judged by, and stops at the first of twelve store operations that does not go through |
| HandoffRunner.Handoff.Submit | backend/execution_handoff.py:711-939 | without faults, the claim, journal, queue and switch that the answer leads to; with them, an answer that settles the order ends as SUBMISSION_UNKNOWN if and only if one of the 22 store operations behind it raises and the write of the error path takes effect; what a cut leaves is of unknown outcome, pending or done |
| HandoffRunner.Handoff.JournalAndConclude | backend/execution_handoff.py:787-842 | from the journal entry on, a resolved claim ends as SUBMISSION_UNKNOWN if and only if one of the ten store operations raises and the write of the error path takes effect; otherwise, deaths included, it is done or pending |
| HandoffRunner.Handoff.MarkUnknown | backend/execution_handoff.py:896-939 | the exception path leaves SUBMISSION_UNKNOWN exactly when its first write takes effect, and otherwise the claim as it was; a death leaves everything, and a path that ends disables execution |
| HandoffRunner.UnknownOutcomeBlocksForever | backend/execution_handoff.py:469-504 | over any history of runs and restarts, cut off anywhere, a claim that is CLAIMED, SUBMITTED, UNRESOLVED or SUBMISSION_UNKNOWN stays in the slot with its state and contents, nothing is submitted or journalled behind it, and only its own ledger record changes, to follow it |
| HandoffRunner.ClearedThroughResolution | backend/execution_handoff.py:395-466 | a claim of unknown outcome leaves the slot, if ever, through a resolved state and then COMPLETED |
| HandoffRunner.StrandedForever | backend/execution_idempotency.py:316-336 | over any history of runs and restarts, a key in the ledger that no claim in the slot stands for, such as one cut off between reservation and claim, is never submitted again and its record never changes; a run that finds it at the head with the slot free changes no row, and the candidate stays or goes unclaimed |
| HandoffRunner.NeverSubmittedTwice | backend/execution_idempotency.py:311-345 | over any history of runs and restarts with their bootstrap, cut off anywhere, no candidate is submitted twice |
| HandoffRunner.RecoveryIsConfluent | backend/execution_handoff.py:374-466 | from a resolved claim on, however often recovery or the bootstrap is cut off, it is still pending or has reached its one outcome: slot empty, claim archived and ledger COMPLETED, candidate gone, a fill journalled exactly once |
| HandoffRunner.AccountingKeeps | backend/execution_handoff_safety_hotfix.py:61-127 | a cut in the middle of restoring the accounting leaves the claim pending, with no second journal entry to come |
| HandoffRunner.CompletionKeeps | backend/execution_handoff.py:395-466 | a cut in the middle of completion leaves the claim pending or done |
| HandoffRunner.RemoveFirstCounts | backend/setup_queue_transaction.py:24-72 | removal takes out exactly one candidate of the key, so the key is gone afterwards if and only if it was not queued twice |
| CommandOutbox.SlotExclusion | backend/execution_command_storage.py:70-73 | over every interleaving of claims, transitions and rollbacks, with any AVAILABLE unlocked row as the one selected, a slot never has two active commands |
| CommandOutbox.AtMostThreeActive | backend/execution_command_storage.py:204-261 | at most three commands are ever active |
| CommandOutbox.FreeSlotLeavesRoom | backend/execution_command_storage.py:221-238 | in one snapshot, a free slot implies room below the limit, so the count check refuses nothing the slot check let through |
| CommandOutbox.ChecksCanBothPass | backend/execution_command_storage.py:221-238 | two claims for one slot can both pass the opening checks: safety does not come from them |
| CommandOutbox.RunKeeps | backend/execution_command_storage.py:204-291 | the invariant of every run: AVAILABLE rows have no owner and no slot, all others have both, slots are apart, and no two claims hold one row or one slot |
| CommandOutbox.CommitKeeps | backend/execution_command_storage.py:251-260 | committing a claim keeps slots apart because its index entry was its alone |
| CommandOutbox.LifecycleInOrder | backend/execution_command_storage.py:39-48 | over every run, a command that is partly filled, managed, closing or closed had its order pending before, a closed one was managed or closing, a pending one reserved, and a failed one active |
| CommandOutbox.OwnerCanFail | backend/execution_command_storage.py:263-291 | whatever else is under way, the owner of an active command can fail it |
| CommandOutbox.LockedRowsWait | backend/execution_command_storage.py:240-246 | a row locked by a claim changes by no other statement |
| CommandOutbox.ClaimsReserve | backend/execution_command_storage.py:204-261 | a claim changes rows only by its commit, which turns an AVAILABLE command into one RESERVED by the owner in a slot that no active command has |
| CommandOutbox.RollbackLeaves | backend/execution_command_storage.py:204-261 | a claim that is rolled back is gone, and rows and other claims stay |
| CommandOutbox.TakenSlotRefuses | backend/execution_command_storage.py:221-260 | a claim whose slot is taken ends without a change |
| CommandOutbox.FullTableRefuses | backend/execution_command_storage.py:231-238 | and so does one that finds three commands active |
| CommandOutbox.ClaimAlone | backend/execution_command_storage.py:204-261 | left alone, a claim for a free slot reserves the AVAILABLE command it selects |
| CommandOutbox.CommandsAdvance | backend/execution_command_storage.py:39-48 | along every run a command stays in the table, its state never falls in rank and rises with every change, and once claimed its payload, slot and owner never change |
| CommandOutbox.AtMostSixMoves | backend/execution_command_storage.py:39-48 | a command changes state at most six times |
| CommandOutbox.WritersKeepOff | backend/execution_command_storage.py:98-162 | publishing never overwrites, refreshing touches AVAILABLE rows only, and no transition reaches RESERVED |
| CommandOutbox.CommandTable.PublishCommand | backend/execution_command_storage.py:98-122 | inserts a new command as AVAILABLE with its payload and time, and nothing else |
| CommandOutbox.CommandTable.RefreshStaleCommand | backend/execution_command_storage.py:138-162 | replaces the payload of a command exactly while it is AVAILABLE, and keeps its age |
| CommandOutbox.CommandTable.TransitionCommand | backend/execution_command_storage.py:263-291 | accepts exactly the moves of the lifecycle, each written out, and makes one exactly when owner and state are as expected, changing state and time only |
| CommandOutbox.CommandTable.ClaimCommand | backend/execution_command_storage.py:204-261 | claims the oldest AVAILABLE command, by time and then by key, exactly when no active command has the slot and there is one |
| ExecutionLedger.Reconcile | backend/live_execution_ledger.py:209-259 | grouping by symbol, sorting and walking each group backward, and sorting the rows again is one backward walk over all fills in key order |
| ExecutionLedger.RowsInOrder | backend/live_execution_ledger.py:197-206 | the rows are the fills, in order of time; at one time of sequence, then of order id; and within an order from the most left to fill to the least, then of execution id |
| TextOrder.FirstDifference | backend/live_execution_ledger.py:197-206 | one text is before another exactly if it ends, or has the smaller character, where they first differ |
| ExecutionLedgerLaws.RowMeans | backend/live_execution_ledger.py:225-245 | a buy adds to the position and a sell takes from it; the larger of what the position lets close and what is reported closes, the rest enters, and the action tells which happened and where it left the position |
| ExecutionLedger.SortedUnique | backend/live_execution_ledger.py:197-206 | the key order admits one arrangement only |
| ExecutionLedger.WalkOfSymbol | backend/live_execution_ledger.py:221-256 | walking symbol by symbol is walking all fills at once |
| ExecutionLedgerLaws.InputOrderIrrelevant | backend/live_execution_ledger.py:197-259 | the rows depend on which fills there are, not on the order they came in |
| ExecutionLedgerLaws.AfterIsLiveLessLater | backend/live_execution_ledger.py:223-255 | the position after a fill is the live position less the later fills of its symbol |
| ExecutionLedgerLaws.RowAccounts | backend/live_execution_ledger.py:226-234 | every row moves the position by the signed quantity, and closes and enters exactly the quantity together |
| ExecutionLedgerLaws.RowsChain | backend/live_execution_ledger.py:225-256 | each row of a symbol starts where the one before it ended |
| ExecutionLedgerLaws.LastRowIsLive | backend/live_execution_ledger.py:223-256 | the last row of a symbol ends at the live position |
| ExecutionLedgerLaws.WalkRefinesForward | backend/live_execution_ledger.py:209-259 | the backward walk records the rows of forward netting from the matching opening if and only if no reported closed size exceeds what the position leaves to close |
| ExecutionLedgerLaws.CompletedMeansEnded | backend/live_execution_ledger.py:236-245 | under forward netting FULL_EXIT and REVERSAL are exactly the fills that end a position, REVERSAL the ones that turn it around, and ENTRY the ones from flat |
| ExecutionLedgerLaws.CompletedTrades | backend/live_execution_ledger.py:284-300 | completedTrades counts the position cycles that ended if and only if as many fills that turn a position around are reported as closing all as fills that close nothing are reported as closing part of themselves; in particular when the reported closed sizes fit |
| ExecutionLedgerLaws.CountedExactly | backend/live_execution_ledger.py:226-245 | a row is FULL_EXIT or REVERSAL exactly if its fill ends a position, but for those two kinds of reports |
| ExecutionLedgerLaws.ReportsMiscount | backend/live_execution_ledger.py:231-245 | one fill of each kind: a trade counted that never ended, and one ended that is not counted |
| ExecutionLedgerLaws.OpeningSnapshot | backend/live_execution_ledger.py:262-275 | the snapshot is the positions before the first fill, without flat symbols |
| ExecutionLedgerLaws.OpeningNetsToLive | backend/live_execution_ledger.py:262-275 | netting the fills from their opening gives the live positions back |
| ExecutionLedgerLaws.TwoReconstructionsAgree | backend/historical_execution_backfill.py:66-77 | reconciling two windows together equals reconciling the earlier one from the opening of the later one, followed by the later one alone |
| ExecutionLedgerLaws.ExposureMeans | backend/live_execution_ledger.py:172-194 | buy rows of positive size add to the exposure of their symbol, sell rows take from it, and no other row counts |
| ExecutionLedgerLaws.CurrentSignedPositions | backend/live_execution_ledger.py:172-194 | positions are refused if and only if a hedge slot or two opposing sides of a symbol are among them, and otherwise summed with their sign |
| KlineCollector.RangeIsClosedCandles | backend/replay_collector.py:127-141 | the accepted range holds exactly the aligned open times inside the requested one whose candle is closed |
| KlineCollector.NormalizedCounts | backend/replay_collector.py:127-156 | the recorded last closed candle is the last closed one of the grid, and the expected candles, at most 200000, reach from start to end |
| KlineCollector.RefusedRanges | backend/replay_collector.py:124-135 | a range is refused as ending before its start, or as without a closed candle, exactly if it is |
| KlineCollector.RefusedTooLong | backend/replay_collector.py:137-141 | and as too long exactly if more than 200000 closed candles lie in it |
| KlineCollector.NormalizedOnGrid | backend/replay_collector.py:127-141 | an accepted range starts on the grid and ends at its last grid point, which is what the coverage check assumes |
| KlineCollector.ParsePage | backend/replay_collector.py:254-324 | a page parses to its wanted open times once each in ascending order, and is refused if and only if a row is malformed, or a wanted one is off the grid or without valid prices |
| KlineCollector.RunPages | backend/replay_collector.py:428-504 | every available candle of the range is handed on exactly once, without duplicates; the cursor starts at the end and strictly moves back with each page; and the only failure is the page limit, exactly when more pages are needed than allowed |
| KlineCollector.MovesOn | backend/replay_collector.py:489-497 | after a full page the cursor strictly moves back to before its oldest candle and skips none |
| KlineCollector.DefaultsNeverHitTheLimit | backend/replay_collector.py:29-34 | with the default limits an accepted request needs at most 201 pages |
| KlineCollector.ReadIsBounded | backend/replay_storage.py:392-430 | a read of stored candles returns the earliest of the range in order, as many as its limit allows |
| KlineCollector.CachedRangeStatus | backend/replay_collector.py:348-390 | counting chunk by chunk, with one read for every ten thousand points begun, equals counting at once for a store on the grid, and the range is complete if and only if every grid point is stored |
| ReplayPerformance.CalculateDrawdown | backend/replay_performance_journal.py:377-419 | the streamed maximum is attained, no drop is larger, and its percentage is the largest among points that attain it; the recorded times are those of the first such point and of the first point as high as its peak |
| ReplayPerformance.MaximumIsLargestFall | backend/replay_performance_journal.py:377-419 | the maximum drawdown is the largest fall from any point to a later one, the initial equity included |
| ReplayPerformance.PercentWithinHundred | backend/replay_performance_journal.py:382-383 | on an account that never went below zero the percentage lies between 0 and 100 |
| ReplayPerformance.SamplesCoverTheCurve | backend/replay_performance_journal.py:216-222 | there are exactly min(count, limit) different sample indexes, the first and the last among them, and all of them at stride one if the limit allows |
| ReplayPerformance.SamplesAreShares | backend/replay_performance_journal.py:216-222 | the i-th sample is the i-th share of the way to the last mark, rounded down, and the reported stride one share, rounded up |
| ReplayPerformance.SamplesIncrease | backend/replay_performance_journal.py:216-222 | sample indexes strictly increase |
| ReplayPerformance.SampleGap | backend/replay_performance_journal.py:473-478 | neighbouring samples lie at least one and at most the reported stride apart |
| ReplayPerformance.SampleCurve | backend/replay_performance_journal.py:484-515 | the sampling loop and its correction at the end compute the curve of the specification |
| ReplayPerformance.CurveEndsAtLastValid | backend/replay_performance_journal.py:506-515 | the curve holds valid marks in order, at most limit many, and ends at the last valid mark whatever was malformed |
| ReplayPerformance.CurveKeepsSamples | backend/replay_performance_journal.py:506-515 | the curve keeps every sampled valid mark, but for the last of them if they fill it |
| ReplayPerformance.CurveIsTheSample | backend/replay_performance_journal.py:506-515 | without malformed marks the curve is exactly the sampled marks |

## Left out

- HTTP handlers, authentication, JSON shapes, transports and retries of requests to the exchange.
- Resets inside a request, in the histories of `ReplayGuarantees`: nothing in the program rules them out, and `ReplayOvertaken` has the exact condition.
- PostgreSQL itself: a replay phase is one atomic step under its row lock, `runtime_state` rows are written atomically, and the command table has its checks and unique index as guards of its statements.
- The death of a process between two replay phases: the program writes its recovery marker on an exception only, so the replay histories are those in which a phase commits or raises and the marker write succeeds.
- The backfill of missing session snapshots for sessions created by an older version; the model starts from the snapshot a session was created with.
- The 28-digit context of decimal arithmetic: sums, products and quotients are exact before they are cut to eight decimals.
- Trade ids are the open time of the entry candle, since the hash of session and candle separates exactly those within one session.
- Session configuration parsing, the idempotent flag of responses, accumulated counters of the stored summary other than processed and remaining candles, and timestamps of rows.
- Audit payloads other than the trade, decision or mark they carry.
- Candidate keys with surrounding blanks, and stored claims without a candidate key: keys are taken as already stripped.
- The three identity fields of a claim are one field, the fingerprint; the ledger key and the order id are written with it and differ from it by fixed prefixes only.
- Two handoff runners at a time, except for at-most-once submission: the program relies on its lock and the leader guard.
- The guards before a claim (daily risk, position guard, price plan, sizing) are answers from outside; what place_demo_order does besides answering is not part of this model.
- Bot state other than the enabled flag, journal entries other than `auto_order`, and the handoff's own counters.
- A death of the process inside place_demo_order is the death at the next store operation.
- Claim ids are drawn at random: that a drawn one was never used before is assumed, in the protocol as a draw that does nothing otherwise, and in `RunOnce` as a precondition.
- Claim expiry does not exist in the command table; direct delivery of commands over HTTP is not modelled.
- Ledger pagination, the double read of positions, persistence of rows and the fee totals and symbol lists of the summary.
- Hashing is an arbitrary function with at least 27 characters; nothing assumes that it separates keys.
- Trade metrics of the performance report, which are sums and quotients of stored numbers.
- Candle values during collection: a candle is its open time and whether its prices are valid.
- KlineCollector.RunPages: states completeness for an exchange that answers with the newest candles of the asked range up to the limit, in order and on the grid; other answers are outside its precondition.
- KlineCollector.CachedRangeStatus: assumes a store on the grid, as the collector writes it; rows off the grid could use up the read limit of a chunk.
- ExecutionLedger.Reconcile: requires fills with distinct keys, which the fetch by execution id provides; the stability of the sort among equal keys is not modelled.
- HandoffRunner.RecoveryIsConfluent: speaks of one runner and of queues in which a key appears at most once.
