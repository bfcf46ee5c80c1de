# Photoshoot session engine: a verified model

This project models the money-and-delivery engine of a photoshoot session and proves what it promises. A session
reserves dollars before every paid call, drives a chain of edit steps through a generator that may refuse, fail, bill or
return a frame, keeps the best frame of each step by identity similarity, survives crashes at any checkpoint, and tells
a client about it over a resumable event stream.

The modules follow the repository's own parts.

| files | part |
|---|---|
| `Money`, `BudgetOps`, `Budget`, `StateStore`, `RedisScripts`, `Ledger` | micro-dollar grid, store operations (in memory and as Redis scripts), reservations and meters, and the ledger under any interleaving |
| `ChainSpec`, `GenerationLoop` | the generation run as a function of what provider, face check and writer answer, and the class that computes it step by step over the mutable store, bus and meter |
| `ChainMoney`, `ChainTrace`, `ChainRecord`, `ChainResume`, `ChainDelivery`, `ChainRuns`, `ChainTruth`, `ChainRetry`, `ChainOps` | what every run keeps: ledger and record, event grammar, keep-best, resume, delivery, whole lives of crashes, a truthful stream, unanswered retries, reservation discipline |
| `ChainEffort`, `ChainPrompts`, `ChainLocks` | what every run does: all its steps and attempts, what each call sends to the generator, and exactly what each step locks |
| `Text`, `LockItems` | the lock enumeration of an edit step |
| `Planner`, `PlanOrder` | validating an LLM plan, the stable fallback and its order, the plan the user approves |
| `SessionGraph`, `SessionRuns`, `SessionMoney`, `SessionDelivery`, `SessionOutcomes`, `SessionCourse`, `SessionTerms` | the session FSM, its runner, what every session amounts to, the course the answers give it, and the terms it keeps |
| `RunLock`, `SessionRunner`, `Idempotency` | the run lock with token fence and expiry, the runner of one process, and run-once under interleaving |
| `Pricing`, `Forecast` | prices, padded reservations and the estimator against the meter |
| `EventStream` | bus tail and SSE relay |

Everything outside the engine is an oracle: `World` answers each generator and writer call, `Inputs` each graph node,
`poisoned`/`injected`/`rejects` are the injection guards' verdicts, similarity is any real number, and a bill is any
non-negative real. No theorem bounds the number of steps, attempts, crashes, callers, reservations or events.

`GenerationLoop.Loop` is proved equal to `ChainSpec.Drive`, so every theorem about `Drive` is a theorem about the
imperative loop. A run carries `trail`, the list of all store states it passes through; a theorem about every element of
`trail` is a theorem about a crash at any store operation.

## Model

| member | source | states |
|---|---|---|
| Money.CeilingIsLeast | src/utils/money.py:26-29 | rounding up gives the least integer at or above the scaled amount |
| Money.ToMicroNeverUnderReserves | src/utils/money.py:26-34 | a reservation in micro-dollars is worth at least the dollars asked for, and is the least such amount |
| Money.MicroRoundTrip | src/utils/money.py:26-34 | reading a counter as dollars and writing it back is exact |
| Money.ToMicroMonotone | src/utils/money.py:26-29 | a larger price never reserves less |
| Money.SumUsdWithinMicro | src/schemas/state.py:292-296 | the dollars of a cost list never exceed the value of its rounded-up micro amounts |
| Schemas.SpentGrows | src/schemas/state.py:292-296 | what a session spent is every recorded cost once: it grows by exactly the cost of a recorded line |
| StateStore.InMemoryStateStore.BudgetReserve | src/services/connectors/memory_store.py:73-80 | one atomic step: granted exactly when counter plus estimate stays within the limit, and only then counted |
| StateStore.InMemoryStateStore.BudgetAdjust | src/services/connectors/memory_store.py:82-85 | one atomic step: signed delta, floored at zero, other sessions untouched |
| StateStore.InMemoryStateStore.AcquireLock | src/services/connectors/memory_store.py:50-54 | set if absent |
| StateStore.InMemoryStateStore.ReleaseLock | src/services/connectors/memory_store.py:56-60 | only the holder's token frees the lock |
| StateStore.InMemoryStateStore.IdemPut | src/services/connectors/memory_store.py:66-70 | the first value stored under a key stays |
| StateStore.InMemoryEventBus.Publish | src/services/connectors/memory_store.py:100-107 | appends to one stream and returns the new position |
| RedisScripts.Keys.BudgetReserve | src/utils/lua.py:24-33 | the script grants and counts exactly as the in-memory reserve |
| RedisScripts.Keys.BudgetAdjust | src/utils/lua.py:40-46 | the script adjusts exactly as the in-memory adjust |
| RedisScripts.Keys.ReleaseLockIfHeld | src/utils/lua.py:50-55 | compare and delete in one step |
| Budget.Reservation.Settle | src/services/budget.py:45-55 | moves the counter by the signed difference to the billed cost, keeps the estimate when nothing was billed, raises on a second close without touching money |
| Budget.Reservation.Cancel | src/services/budget.py:57-66 | refunds the whole estimate, raises on a second close |
| Budget.Meter.Reserve | src/services/budget.py:87-99 | a slot is handed out exactly when the estimate fits the limit; a refusal changes nothing |
| Ledger.LedgerConserved | src/services/budget.py:45-99 | under any interleaving of meters and reservations the counter is the open estimates plus the settled amounts |
| Ledger.FloorNeverFires | src/services/connectors/memory_store.py:82-85 | on a reachable ledger an adjustment moves the counter by exactly its delta |
| Ledger.ClosesOnce | src/services/budget.py:63-66 | no later action undoes, repeats or changes a close, and no reservation disappears |
| Ledger.SecondCloseRaises | src/services/budget.py:63-66 | closing a closed slot raises and changes neither money nor slots, after any other actions |
| Ledger.OverdrawBound | src/services/budget.py:45-55 | the counter never passes the limit by more than the settles overran their estimates |
| Ledger.NeverPastLimit | src/services/budget.py:45-99 | never past the limit when every settle stayed within its estimate |
| Ledger.SettlePassesLimitIff | src/services/budget.py:50-54 | a settle passes the limit exactly when its overrun exceeds the headroom, against the interface text that promises it cannot |
| Ledger.SettleIsAtomicAlone | src/services/budget.py:45-61 | with nothing interleaved, the two steps of a close are the reservation's contract |
| Ledger.AllGranted | src/services/budget.py:87-99 | when all requests together fit the limits and no bill passes its estimate, nothing is refused in any order |
| Ledger.SpentInFull | src/services/budget.py:87-99 | without refusals and refunds the counter is everything requested |
| GenerationLoop.Loop.Drive | src/services/generation_loop.py:210-360 | the imperative loop leaves counter, session, face, store history, operations and stream exactly as the reference run says, and an unready session untouched |
| GenerationLoop.Loop.Run | src/services/generation_loop.py:183-208 | once per key: a recorded outcome is replayed without money, store or stream effects, a raised run records nothing, and of two calls that both ran, each with all its effects, the first to record decides both results |
| GenerationLoop.Loop.RunStep | src/services/generation_loop.py:372-664 | the retry cycle of one step, equal to the reference cycle in every outcome |
| GenerationLoop.Loop.Fire | src/services/generation_loop.py:483-664 | one attempt: reserve or stop, announce, call, settle or refund, record |
| GenerationLoop.Loop.TakeRefusal | src/services/generation_loop.py:508-537 | a refused call is billed and recorded as a charged failure |
| GenerationLoop.Loop.TakeFailure | src/services/generation_loop.py:538-562 | a transport failure is refunded and recorded as free |
| GenerationLoop.Loop.TakeFrame | src/services/generation_loop.py:564-610 | a frame is settled and recorded before it is measured |
| GenerationLoop.Loop.Measure | src/services/generation_loop.py:612-662 | banding, convergence, keep-best, checkpoint order and retry announcement of a measured frame |
| GenerationLoop.Loop.Write | src/services/connectors/openrouter_prompt_writer.py:181-223 | reserve, ask, settle or refund, and degrade to the deterministic body |
| GenerationLoop.Loop.Locks | src/services/generation_loop.py:404-408 | what a step locks: everything for an edit, person and applied changes for an enhance step |
| GenerationLoop.Loop.AbsorbAll | src/services/generation_loop.py:262-275 | re-locking the completed steps of a stored plan |
| GenerationLoop.Loop.WorkThrough | src/services/generation_loop.py:277-358 | the chain of steps up to the first without deliverable, refusal or raise |
| GenerationLoop.Loop.Finish | src/services/generation_loop.py:774-811 | deliver the session's best or fail, store it, publish one terminal event |
| ChainMoney.LedgerMatchesRecord | src/services/generation_loop.py:483-581 | a run grows the counter by exactly the rounded cost of what it recorded; a run that raises, and every store state on the way, has nothing or exactly one call's amount on top, an open estimate or a settled cost |
| ChainMoney.CostSpentWithinCounter | src/schemas/state.py:292-296 | the reported spend never exceeds the counter's dollar value |
| ChainTrace.RunSpeaksGrammar | src/services/generation_loop.py:251-360 | every run's events are accepted by the grammar automaton, finished runs in its final state |
| ChainTrace.FinishedRunEvents | src/services/generation_loop.py:774-811 | exactly one terminal event, the last; starts and results pair up one per new iteration with consecutive numbers |
| ChainTrace.AcceptedTrace | src/services/generation_loop.py:451-664 | what the automaton means: numbering, pairing, terminal last |
| ChainTrace.RetryNamesNextAttempt | src/services/generation_loop.py:654-662 | a retry names the number of the next attempt, if there is one |
| ChainRetry.RetryUnansweredIff | src/services/generation_loop.py:445-506 | a retry stays unanswered exactly when: in a finished run, its operations end in a refused generation reservation made on an attempt after the first; in a raised run, the revised body of its last attempt reads as an injection |
| ChainRetry.RetriesGoUnanswered | src/schemas/events.py:118 | both happen: a concrete finished run on a tight budget, and a concrete raised run with the deterministic writer |
| ChainRetry.OpenRetryMeans | src/services/generation_loop.py:654-662 | an unanswered retry, no attempt starting after it, is the open retry the run leaves on its stream |
| ChainRecord.StepKeepsBest | src/services/generation_loop.py:737-741 | for any outcomes a step's best is the earliest maximum of its measured frames above the floor; a passing frame ends the step and wins; at most min(1 + K, max_iterations) attempts |
| ChainRecord.BandedGuarantee | src/services/facecheck.py:84-94 | a frame passes exactly at the similarity threshold, and is not below the floor exactly when it reaches the smaller threshold |
| ChainRecord.FloorHoldsIffOrdered | src/services/facecheck.py:84-94 | the identity floor is guaranteed exactly when the thresholds are ordered |
| ChainRecord.UnorderedThresholdsDeliverBelowFloor | src/schemas/presets.py:65-68 | thresholds are never validated: a concrete pair passes a frame under the floor |
| ChainRecord.ReplyLeaves | src/services/generation_loop.py:508-662 | every provider reply that is not lost leaves exactly one iteration with the cost, reference, similarity (0 without a face), verdict and error the reply calls for; its frame becomes the best exactly when it is above the floor and beats the best so far |
| ChainRecord.SpentCountsCharged | src/schemas/state.py:298-301 | generations spent are the attempts that were charged |
| ChainRecord.RunKeepsTerms | src/services/generation_loop.py:210-360 | no run changes the thresholds, the budget or the approval it was entered with, in memory or in the store |
| ChainResume.ResumedLedger | src/services/generation_loop.py:260-275 | re-locking a resumed plan gives the ledger an uninterrupted run has at that step |
| ChainRuns.EveryStoreStateResumable | src/services/generation_loop.py:822-823 | at every store operation completed steps are a prefix of those not skipped, the record is well formed and the best names one of its iterations |
| ChainRuns.ResumedStepsLockAlike | src/services/generation_loop.py:260-297 | after any number of crashes each step begins with the ledger and the locks of an uninterrupted run |
| ChainRuns.CrashesLeaveCounterAhead | src/services/generation_loop.py:483-581 | after any number of crashes the counter still covers every recorded cost |
| ChainRuns.CrashLosesOneAmount | src/services/generation_loop.py:483-581 | a run stopped at any store state leaves beyond the record nothing or exactly one call's amount |
| ChainRuns.CrashesLoseOneCallEach | src/services/generation_loop.py:483-581 | over a life the counter is ahead of the record by at most one call's amount per interrupted run |
| ChainRuns.DeliveredIdentity | src/services/generation_loop.py:612-625 | in any life the best names a recorded iteration with its ref, similarity and verdict, low risk when it passed and medium when it only cleared the floor, and at the floor with ordered thresholds |
| ChainRuns.ResultIffStepCompleted | src/services/generation_loop.py:786-811 | a finished run reports a result exactly when the session had a best or a step completed in it, for a planned session exactly when some step has completed; event, counts and stored state agree |
| ChainRuns.ChainDelivers | src/services/generation_loop.py:316-360 | the final best is the fold of the step bests over the best the run was entered with |
| ChainRuns.StepsEditPreviousBest | src/services/generation_loop.py:246-248 | each step edits the frame of the step completed before it in that run, the first the original photo |
| ChainRuns.IterationsBounded | src/services/generation_loop.py:445 | at most min(1 + K, max_iterations) new iterations per step, and the record only grows |
| ChainLocks.StepLocksExactly | src/services/prompt_builder.py:316-364 | exactly what a step locks, told from the plan: the person; a photographed region unless a target so far names it; a photographed accessory unless a target or an instruction so far shares a content word with it; the user's wishes; the outcome of every step before it; an enhance step only the person and the outcomes; and only what the guards accept |
| ChainLocks.RunLocksExactly | src/services/generation_loop.py:260-297 | the same for the locks of every step of every run, after any number of crashes |
| ChainLocks.NeverUnlocked | src/services/prompt_builder.py:85-88 | pose, hands and facial hair stay locked whatever a plan targets |
| ChainLocks.EditedRegionsNeverRelocked | src/services/generation_loop.py:404-408 | a region targeted by this or an earlier step is never locked at its photographed value |
| ChainLocks.AppliedStaysLocked | src/services/generation_loop.py:266-275 | what an earlier step applied is locked in every later one, by the planner's phrase or, without one, by a generic phrase naming the instruction |
| ChainLocks.PhotoLocksShrink | src/services/generation_loop.py:266-297 | along a chain the inventory locks of a later step are those of an earlier edit step with some left out |
| ChainLocks.NamedAccessoryStaysUnlocked | src/services/prompt_builder.py:341-364 | an accessory named by the instruction of this or an earlier step is not locked |
| ChainDelivery.EnhanceNeverLowers | src/services/generation_loop.py:330-343 | an enhance step never lowers the delivered similarity and delivers one of the two candidates |
| ChainDelivery.LatestEditWins | src/services/generation_loop.py:330-343 | a completed edit step replaces whatever was delivered before |
| ChainDelivery.DeliveredIsLatestMaximum | src/services/generation_loop.py:326-343 | the delivered best is exactly the most similar, the latest of equals, of the last edit step's best and those of the enhance steps after it |
| ChainOps.EveryCallReservedAndClosed | src/services/generation_loop.py:483-564 | every generator call directly follows its own granted reservation and is directly followed by the close its reply calls for: a settlement at exactly the billed cost, or at the held estimate without a bill, or the full refund; nothing follows a refusal |
| ChainOps.RunKeepsDiscipline | src/services/generation_loop.py:483-564 | every run's operations are accepted by the desk automaton, and each call edits the image, and an edit prompt carries the locks, its step began with (which calls carry an edit prompt: `ChainPrompts.EveryCallSaysItsStep`) |
| ChainPrompts.EveryCallSaysItsStep | src/services/generation_loop.py:404-506 | every generator call of every run: consecutive numbers; the image of the step it belongs to; 4K for an enhance step, else 1K; the instruction as the only change under the step's locks exactly when there is one the guards accept, the fixed prompt for an enhance step; the body the writer just composed, else the template, else the emphasized body of the attempt before, never one the guards reject; and a reservation at the price of exactly that prompt and size; nothing else is reserved but slot fills of an LLM writer at their flat price |
| ChainEffort.StepUsesItsAttempts | src/services/generation_loop.py:445-664 | a cycle gives up without a passing frame, a refusal or a raise only after exactly min(1 + K, max_iterations) attempts; its stream is exactly a start and a result per attempt and a retry after every failed attempt below that number; its failure code is exhaustion, an error of the last attempt, or no deliverable |
| ChainEffort.RunBeginsStepsInOrder | src/services/generation_loop.py:277-358 | the steps a run begins are its pending ones in order; unless it raises it leaves one out only behind a step without deliverable or a refused reservation |
| ChainEffort.FailureSaysWhy | src/services/generation_loop.py:224-360 | a run that fails has no deliverable frame, and its code says why: photo missing, budget refused before the last attempt, or all attempts made and the last one an error or short of the floor |
| ChainTruth.RunTellsTheTruth | src/services/generation_loop.py:451-664 | in every run each streamed iteration result is the recorded iteration of its number, each completed step's report is the best of a step this run completed, and the face's statistics are those of the similarities it measured |
| ChainTruth.StepReportsNameIterations | src/services/generation_loop.py:343-356 | a reported step image is the recorded image of an iteration that measured the reported similarity |
| ChainTruth.ConvergenceExact | src/services/generation_loop.py:813-820 | the running statistics are the number of measurements, their maximum, the last one, and whether it beat all before it |
| LockItems.EditLockItems | src/services/prompt_builder.py:316-364 | the appending loops build the enumeration |
| LockItems.EnumerationMembers | src/services/prompt_builder.py:316-364 | an item is listed exactly when its source says so and the guards accept it |
| LockItems.PersonFirst | src/services/prompt_builder.py:341-364 | the generic person lock is always first |
| LockItems.OwnNameUnlocks | src/services/prompt_builder.py:101-127 | an editable region's own name, in any case and padding, names it and no other region; pose, hands and facial hair have no name |
| LockItems.ContentTokensAre | src/services/prompt_builder.py:307-308 | a content word is a match of the text in small letters that is not too generic |
| LockItems.MostCriticalFirst | src/services/prompt_builder.py:316-364 | every enumeration is in order: the person, the regions in render order, the accessories, the wishes, the outcomes |
| LockItems.EditingMoreUnlocksOnly | src/services/prompt_builder.py:316-364 | more targets or more edited text only remove items, in place |
| LockItems.EditingMoreUnlocksPhoto | src/services/prompt_builder.py:316-364 | more targets or more edited text only remove the items taken from the photo, whatever else is applied |
| LockItems.ApplyingMoreLocksOnly | src/services/prompt_builder.py:316-364 | more applied changes only append items |
| Text.TokensOfJoin | src/services/prompt_builder.py:307-308 | the content tokens of two texts joined by a blank are those of either |
| Text.TokensAreMatches | src/services/prompt_builder.py:179 | the content tokens of a text are exactly the longest runs of a letter and at least two more letters or hyphens that no earlier match takes |
| Text.StripTakesTheMiddle | src/services/prompt_builder.py:342 | stripping takes the text between its first and last character that is not white space |
| Text.LowerPerCharacter | src/services/prompt_builder.py:342 | lower-casing moves the capitals to the small letters and keeps every other character |
| Planner.ParseSteps | src/services/connectors/openrouter_planner.py:112-172 | accepts exactly the well-formed replies that make a sound plan, and returns the plan they describe |
| Planner.ReplyRoundTrip | src/services/connectors/openrouter_planner.py:112-172 | every sound plan can be said: its JSON is accepted and read back as exactly that plan |
| Planner.AcceptedPlanSays | src/services/connectors/openrouter_planner.py:126-172 | an accepted plan is the reply's titles, instructions, targets and applied phrases, stripped, blank targets left out |
| Planner.ExactlyOneStep | src/services/connectors/openrouter_planner.py:126-172 | each wanted target sits in exactly one step of an accepted plan |
| Planner.PaddedTargetAlwaysFallsBack | src/services/connectors/openrouter_planner.py:126-172 | a brief target that is blank or padded makes every reply unacceptable |
| Planner.ByRankIsStableSort | src/services/planner.py:70-84 | the fallback's order is a permutation, sorted by rank, stable within a rank |
| Planner.RankOrderedGroups | src/services/planner.py:70-84 | a rank-ordered list is its three rank groups in turn, so that order is unique |
| PlanOrder.FallbackOrder | src/services/planner.py:27-84 | the fallback plan is one step per change: first those whose target has a scene word, then the rest, last those with an accessory word and no scene word, each group in the brief's order |
| PlanOrder.SceneFirstAccessoriesLast | src/services/planner.py:22-26 | a step on the scene precedes every other step and a step on an accessory follows every other |
| PlanOrder.WordsAreRuns | src/services/planner.py:70-71 | the words of a target are its longest runs without white space and underscores |
| PlanOrder.JoinedWords | src/services/planner.py:70-71 | a blank or an underscore joins the words of two texts |
| PlanOrder.OneWordTarget | src/services/planner.py:69-75 | a one-word target is ranked by that word |
| PlanOrder.GlassesAfterBackground | src/services/planner.py:78-84 | asked for the glasses first, the fallback still plans the background first |
| Planner.Plan | src/services/connectors/openrouter_planner.py:189-226 | the reply's plan is taken exactly when there are two changes or something to preserve against an inventory, the budget admits the call and the reply is acceptable; else the fallback, free of cost; the counter grows by exactly the recorded cost |
| Planner.PlanCoversEveryChange | src/services/connectors/openrouter_planner.py:196-226 | for an arbitrary reply every explicit change is covered, and without inventory nothing else is |
| Planner.FinalPlanShape | src/graph/nodes.py:421-446 | the approved plan is the planned steps and one enhance step behind them without target or instruction; at least two steps, numbered from one, all pending, covering every change |
| SessionGraph.VisitShaped | src/graph/builder.py:38-86 | every node visit pauses, raises, spends a re-ask or moves toward the end |
| SessionGraph.Invoke | src/api/deps.py:264-293 | an invocation always stops: paused, raised or ended |
| SessionGraph.Played | src/api/deps.py:186-213 | so does a whole session, for any answers |
| SessionOutcomes.SessionStands | src/graph/nodes.py:193-556 | for any inputs and answers: waiting with an open stream and the question last, or ended with exactly one closing event, the last, that agrees with the stored state, or raised with one internal failure; and until an answer approves the plan no generation is reserved, called, announced or recorded |
| SessionCourse.SessionFollowsCourse | src/graph/nodes.py:227-499 | for any inputs and answers the session stands where a simple course says: what it asks and when, at most two re-asks, which failure ends it before the loop and with what accounting, and whether it entered the loop |
| SessionCourse.RejectedPlanIsNotGenerated | src/graph/nodes.py:166-172 | a false decision, or text other than the four words of consent, ends the session with a plan-rejected failure, its last event: nothing reserved for generation, called or recorded |
| SessionCourse.ApprovedPlanIsGenerated | src/graph/nodes.py:474-518 | a true decision or one of the four words, in any case and padding, enters the paid loop |
| SessionCourse.ApprovedIffInLoop | src/graph/nodes.py:474-518 | an answer approved the plan exactly when the course entered the loop |
| SessionTerms.SessionKeepsTerms | src/graph/nodes.py:237-399 | in every session frozen thresholds are the preset's; an inventory the photo came with is kept and never extracted again; a blank brief is not parsed; a plan put up for approval covers the brief |
| SessionTerms.NodesCall | src/graph/nodes.py:237-356 | each node makes its one auxiliary call exactly when needed, and an extracted inventory is stored when there was none |
| SessionTerms.PlanNodeTakesReply | src/graph/nodes.py:401-472 | the plan put up is the model's exactly when a call is needed, the budget admits it and the reply is acceptable; it is announced as it is stored |
| SessionTerms.SessionMeetsPreset | src/graph/nodes.py:389-391 | so the best of every session reached the smaller of its preset's thresholds, and passed exactly at the similarity threshold |
| SessionOutcomes.SessionBounded | src/graph/nodes.py:356-370 | at most MAX_REASKS + 1 resolve executions |
| SessionOutcomes.SessionSpendCovered | src/graph/nodes.py:385-388 | the counter is the record plus the fills billed and then rejected, so the reported spend never exceeds it |
| SessionOutcomes.LoopEnteredFresh | src/graph/nodes.py:474-518 | whenever any session reaches the loop an answer has approved the plan, no generation was reserved before, and the loop is entered on that plan with nothing completed, so the chain theorems apply |
| SessionOutcomes.DoneIffStepCompleted | src/graph/builder.py:53-56 | a session that ended without a raise closed with done exactly when a step of its stored plan completed, which is exactly when it has a best |
| SessionOutcomes.DoneReportsCompletedSteps | src/graph/nodes.py:520-528 | the done event counts exactly the completed steps of the stored plan, at least one, out of all of them |
| SessionOutcomes.SessionKeepsIdentity | src/services/generation_loop.py:612-625 | in every session, however it stands, the best is a recorded frame that cleared the session's frozen floor |
| SessionOutcomes.SessionBudgetOnGrid | src/api/deps.py:198-207 | every session carries the budget of its start rounded up to the grid, and meters against exactly that |
| SessionOutcomes.InterruptIsRepeatable | src/graph/nodes.py:296-329 | re-executing an interrupted node changes neither stream nor session, and the answer acts as if it had never paused |
| SessionOutcomes.GenerateReplays | src/graph/nodes.py:501-518 | a generate node executed again replays the recorded outcome with one stage event and no other effect |
| SessionOutcomes.LostRecordRepeatsTerminal | src/services/idempotency.py:43-46 | a process that dies between the loop's terminal and its record drives again: the stream gets a second terminal of the loop, its last event, and a result stays a result |
| SessionRuns.VisitApproval | src/graph/nodes.py:474-499 | until an answer approves the plan, no node reserves, calls, announces or records a generation |
| SessionRuns.VisitClosing | src/graph/nodes.py:520-556 | only the node that ends the graph closes the stream, in agreement with the stored state |
| SessionRuns.LoopCloses | src/services/generation_loop.py:774-811 | the loop closes the stream once when it fails and leaves it open when it delivers or raises |
| SessionMoney.VisitMoney | src/graph/nodes.py:237-472 | every node keeps counter and record together up to the rejected fills |
| SessionMoney.CallMoney | src/services/connectors/openrouter_slot_filler.py:100-139 | an auxiliary call moves the counter by exactly its cost, a refused or refunded one not at all |
| SessionMoney.CallLogTells | src/services/connectors/openrouter_slot_filler.py:100-139 | the log of an auxiliary call is one reservation at the flat price, granted exactly when it fits, and its settlement or full refund; what it settles is what reached the counter |
| SessionRunner.Runner.Spawn | src/api/deps.py:242-262 | refused exactly while anyone holds the lock; a lock held by this process belongs to its registered run, other replicas' locks may be there |
| SessionRunner.Runner.Finish | src/api/deps.py:255-262 | a run frees only its own lock and reaps only its own entry |
| SessionRunner.Runner.Conclude | src/api/deps.py:264-314 | what each outcome of an invocation narrates and stores, in order: the release of the lock comes before any narration |
| SessionRunner.Runner.Cancel | src/api/deps.py:215-236 | reaches the run of this process that holds the lock, overwrites the stored state and closes the stream with the record's spend; a lock of another replica stays |
| SessionRunner.AccountingTells | src/api/deps.py:103-114 | a terminal event of the runner counts every attempt, those charged, and every recorded cost |
| RunLock.MutualExclusion | src/api/deps.py:242-293 | two graph invocations overlap only if one has outlived its lock, never with a lock that does not expire |
| RunLock.NoOverlapWithinGrace | src/api/deps.py:99 | a run stopped less than the grace after the wall clock is never overlapped |
| RunLock.OverlapAfterGrace | src/api/deps.py:99 | and a run still going at the end of the grace can be |
| RunLock.HeldUntilReleased | src/api/deps.py:295-299 | only the holder's own release or the expiry takes the lock away: no late release by an expired token |
| RunLock.LockLifetime | src/api/deps.py:99 | a lock taken when nobody holds it lives to the second until a minute after the wall clock |
| RunLock.SpawnRefusedIff | src/api/deps.py:242-253 | a spawn is refused exactly when an earlier run neither released nor outlived its lock |
| RunLock.CrashNeverWedges | src/api/deps.py:242-253 | after one lock lifetime a spawn is granted, whatever crashed |
| Idempotency.Agreement | src/services/idempotency.py:39-56 | without expiry every normal return carries the one record, some caller's own op produced it, and none finds it vanished |
| Idempotency.AgreementPerRecord | src/services/idempotency.py:39-56 | with expiry, returns under the same record agree |
| Idempotency.RecordPermanent | src/services/idempotency.py:39-44 | a record never changes once set |
| Idempotency.OneFreshReturnPerRecord | src/services/idempotency.py:39-44 | exactly one return per record is not a replay; a raising op records nothing |
| Idempotency.LateCallerReplays | src/services/idempotency.py:39-41 | a caller that looks after the record exists never runs op |
| Idempotency.NoLateStarts | src/services/idempotency.py:39-41 | no op starts once the record exists |
| Idempotency.OpStartsIff | src/services/idempotency.py:39-43 | exactly when op runs: a caller that looks starts it if and only if no caller has returned under the current record, without expiry if and only if none has returned at all |
| Idempotency.AtMostOncePerRecord | docs/business-flow.md:42 | at most once for callers that start only after an earlier one returned: op starts once per record, once when the record never expires |
| Idempotency.ConcurrentCallersBothRun | src/services/idempotency.py:39-44 | two callers that look before either records both run op |
| Idempotency.RaisedOpRunsAgain | src/services/idempotency.py:43 | a caller that arrives after an op that raised runs it again |
| Idempotency.ExpiryBreaksAgreement | src/services/idempotency.py:48-56 | and across an expiry two callers may return different bytes |
| Pricing.PredictionMonotone | src/services/pricing.py:120-141 | a longer prompt never predicts less, nor does an output with more image tokens |
| Pricing.HalfEvenIsNearest | src/services/pricing.py:141 | quantizing moves a price by at most half a micro-dollar and keeps order |
| Pricing.HalfEvenTies | src/services/pricing.py:141 | a price halfway between two micro-dollars becomes the even one |
| Pricing.GenerationPrice | src/services/pricing.py:120-141 | the forecast is, to the nearest micro-dollar, the prompt's least token count, one block per reference and the face crop at the input rate, eight tokens at the text rate and the block of the output size at the image rate |
| Pricing.MarginalPrices | src/services/pricing.py:130-141 | what one more token, reference, face crop or prompt token moves the price by, before rounding |
| Pricing.ReserveIsPadded | src/services/pricing.py:158-165 | a reservation is the forecast times the safety factor, rounded up to the micro-dollar |
| Pricing.DefaultPrice | src/services/pricing.py:78-103 | the default table forecasts a 1K edit with 400 prompt characters at $0.067834 and reserves $0.078010 |
| Pricing.ReserveCoversForecast | src/services/pricing.py:143-165 | for any table a reservation is on the grid, covers the padded forecast by less than a micro-dollar and grows with the prompt; it holds at least the forecast exactly when the factor takes off less than a micro-dollar |
| Forecast.AffordableFitsIff | src/services/estimator.py:78-87 | everything called affordable fits together when spendable is not negative; on a grid budget only then |
| Forecast.OneMoreDoesNotFit | src/services/estimator.py:82-85 | on a grid budget one more 1K generation does not fit |
| Forecast.ForecastFitsIff | src/services/budget.py:84 | on or off the grid a forecast fits exactly when its dollars reach at most the limit the meter makes of the budget |
| Forecast.SessionBudgetIsTight | src/graph/nodes.py:401-450 | the budget a session carries is on the grid, so one more 1K generation on top of its forecast never fits |
| Forecast.OffGridIsNotTight | src/services/budget.py:84 | a budget off the grid, which no session carries, leaves room for one more |
| Forecast.SufficientFundsEveryStep | src/services/estimator.py:116-131 | a plan called sufficient funds one generation per step |
| Forecast.SufficientIff | src/services/estimator.py:116-131 | the note reads sufficient exactly when one generation per step costs no more than the budget; with a negative spendable, when the enhance steps alone are as many as the steps |
| Forecast.ForecastSound | src/services/estimator.py:78-87 | every affordable generation is granted, in any order of reservations, settles and cancels, while generations stay within their forecast prices and the auxiliary spend at that moment, open or settled, is within the forecast overhead |
| Forecast.ForecastTight | src/services/estimator.py:78-87 | spent in full on a grid budget, one more 1K reservation is refused |
| Forecast.TableRates | src/services/pricing.py:158-165 | the pricing table's reservations meet the forecast's premises, and shorter prompts stay within them |
| EventStream.IdRoundTrip | src/services/connectors/memory_store.py:100-107 | a stream id survives the trip through the client |
| EventStream.WindowIsExact | src/api/sse.py:24-31 | a connection delivers consecutive frames, no terminal before its last, and stops only at a terminal, a hang-up or the end of the log |
| EventStream.SessionEventStream | src/api/sse.py:21-31 | however publishes fall between wake-ups, the relay delivers exactly that window of the whole log |
| EventStream.RelayBatch | src/services/connectors/memory_store.py:114-123 | one batch extends the window frame by frame |
| EventStream.DeliveriesAreGapFree | src/services/connectors/memory_store.py:109-123 | over any publishes, drops mid-batch and reconnects the deliveries are the log from the resume point on, each frame once and in order |
| EventStream.TerminalCloses | src/api/sse.py:30-31 | behind a terminal frame nothing arrives unless the client connects again |
| EventStream.UnreachedIdWaits | src/services/connectors/memory_store.py:112-114 | a numeric id the stream has not reached waits; only an id that is not a number restarts |

## Left out

Where the code and its own documentation disagree the model follows the code; these are the places.

- A settle may push the counter past the limit (`Ledger.SettlePassesLimitIff`), although src/protocols/budget.py:44 says otherwise; the meter's limit rounds a budget up to the grid, which for the budget a session carries changes nothing (`Forecast.SessionBudgetIsTight`).
- Thresholds are not validated, so the identity floor needs them ordered (`ChainRecord.FloorHoldsIffOrdered`).
- A resumed chain re-locks its finished steps but restarts from the original photo; `ChainRuns.StepsEditPreviousBest` therefore speaks of the steps completed in that run.
- A slot fill that is billed and then rejected is settled but not recorded; `SessionOutcomes.SessionSpendCovered` counts it apart.
- docs/api.md:4 and docs/business-flow.md:42 promise at most one execution per key; run_once gives agreement, and starts op again exactly for callers that look before anyone returned under the current record (`Idempotency.OpStartsIff`).
- src/schemas/events.py:118 calls a retry's number that of the upcoming attempt; it has none exactly when the revised body is rejected or the budget refuses the reservation (`ChainRetry.RetryUnansweredIff`).
- max_iterations bounds the attempts of a step, not of a session (`ChainRuns.IterationsBounded`).
- With a negative spendable the estimator still counts the enhance steps as affordable (`Forecast.AffordableFitsIff`).
- The comment on the in-memory tail restarts an unknown id from the beginning; a numeric id beyond the stream waits instead (`EventStream.UnreachedIdWaits`).

What the model does not contain:

- Cancelling and timing out overwrite any stored state and race with a run; the session FSM covers runs that are neither cancelled nor timed out. `SessionRunner` says what these two do in one process without the race, `RunLock` covers overlap across processes.
- A failing store or bus inside the loop: covered only as an abort between two store operations, by the statements about every element of `trail`. A settle whose adjustment fails, and the second close that follows, is not modelled.
- The session FSM and runner are modelled on values, as transition functions of the stored session and the stream: the model does not capture aliasing between a node's session object and the store.
- ChainSpec.World indexes the writer's answers by the iteration they precede; a step makes at most one writer call before each attempt, so no two calls share an answer.
- Starting a run on a session key that already has a session, and expiry of sessions, faces and counters: a session starts from an empty record.
- Prose of prompts, questions, failure reasons and plan summaries; the fixed enhance texts are short constants.
- Temperature decay, aspect-ratio choice, upscaling, the face-crop reference, prompt hashes, usage token counts and time stamps: they do not influence money, events or delivery.
- fill_template and slot validation: their verdict is the oracle `rejects`; slot values, compositions and locked-attribute conflicts are not part of the session record here.
- An unknown composition id, a missing reference photo at ingest and other exceptions of graph nodes: only a raising generation loop is modelled as a raised run.
- Unicode: lower-casing is ASCII, white space is Latin-1, and digits of a stream id are ASCII.
- Decimal precision: prices and spendable are exact reals; the model does not round divisions to 28 digits.
- Similarity in float32, face detection and the quality gate's bands: any real number, no face reading as 0.0, and any verdict.
- Redis stream trimming and batching limits: the in-memory bus is the reference.
- HTTP routes, settings, logging and telemetry: plumbing around the engine.
- LockItems.PersonFirst: assumes that the injection guards accept the generic person lock, which is a constant of the program.
- Planner.Plan: the planner without a meter is not modelled, because the graph always passes one; its counter statement needs a counter that is not negative, which every reachable ledger has.
- SessionOutcomes.GenerateReplays: covers a death after the outcome is recorded; before it, the loop publishes a second terminal (`SessionOutcomes.LostRecordRepeatsTerminal`), and the session theorems, which follow one process per node, do not count it.
- GenerationLoop.Loop.Run: a rival call is one that runs between this call's operation and its put; finer interleavings of two loops on one store are not modelled here.
- EventStream.DeliveriesAreGapFree: a client that never reconnects is not promised anything after its drop; liveness of a connected client is `EventStream.WindowIsExact`.
