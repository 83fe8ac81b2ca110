# Winback pipeline: model and proofs

A Dafny 4.11 model of the winback platform's protocols and of the algorithms around them, with proofs of what they
promise. Verify with `dafny verify dfyconfig.toml`.

The platform scores a shop's customers, admits AI generations for the lapsed ones, dispatches the generated messages
by mail, drains an outbox of events, and erases customers and shops on request. Its guarantees span processes: workers
are replicated, jobs are delivered any number of times, a process may die at any await, and a transaction may commit
while its caller sees an error. The database is the only thing they share, so the model is a set of tables changed by
atomic transactions, and a run is any interleaving of them.

## How the files fit together

- **Tables, transactions, code.** `Tables.dfy` has the rows and each repository call as a function from tables to tables.
  `Database.dfy` has the same calls as methods that write row by row in the code's order (and put rows back when a
  transaction aborts), each proved to have that function's effect.
- **The pipeline as a machine.** `Machine.dfy` interleaves dispatch workers, AI workers, admission handlers, sweeps and
  customer erasures. A step is a total function of the state and an event; the event holds whatever the code does not
  control (who runs, clocks, settings, provider answers, lost acknowledgements, crashes). A run is any list of events.
  `GateChain.dfy` is the gate chain.
- **Theorems over all runs.** `SendOnce.dfy` (at most one accepted send), `FrozenText.dfy` (the text is settled before
  dispatch), `SendLedger.dfy` (quota, statuses and audits agree), `Deferral.dfy` (a deferred target is never sent),
  `AiLedger.dfy` (spend is conserved). Over the runs with fixed settings, a clock that does not run back and a fixed
  number of workers (`Steady.dfy`): `QuotaBound.dfy`, `Frequency.dfy`. `SpendCeiling.dfy` with `CostRates.dfy` bounds a
  month's AI spend.
- **Where the bounds are exact.** `Scenes.dfy` puts steady runs together, `Races.dfy` races of workers out of them.
  `CapPeaks.dfy` has the exact maxima of a day's and a month's quota, `RationBound.dfy` and `RationPeak.dfy` those of one
  customer's day, `RacingWorkers.dfy` says exactly when the cooldown and the meaning of `suppressed` hold, with
  `LoneWorker.dfy` for one worker. `Reentry.dfy` is a deferral and its vain second try. `UnreservedAdmissions.dfy` reaches
  the spend bound.
- **The code as runs.** `DispatchWorker.dfy`, `AiWorker.dfy` and `AdmissionHandler.dfy` are the workers and the handler as
  imperative code. At each await anybody else takes any number of steps and the process may die. The methods prove
  that whatever they do is a run of the machine, in the code's own order, so the theorems hold of them.
  `DispatchSweep.dfy` is the scheduler's sweep.
- **The outbox.** `Outbox.dfy` is the machine of replicas, locks, two phases, operators and erasure; `Drainer.dfy` the
  tick as code over it; `OutboxWait.dfy` how long a row can wait.
- **Erasure.** `ShopErasure.dfy`: chunked deletion of a shop, resumable after crashes.
- **Algorithms.** `Scoring.dfy`, `Base32.dfy`, `TenantHooks.dfy`, `RateLimiter.dfy`, `Substitution.dfy`.
- `Collections.dfy` has options and sums over maps.

Assumed of the environment, and nothing else: a transaction is all or nothing, an `updateMany` with a status guard is an
atomic compare-and-set, a unique key admits one row, `FOR UPDATE SKIP LOCKED` hands a row to one transaction at a time,
a Redis script runs atomically on a key that is gone once its time to live is over, the limiter's callers and Redis
share a clock, and a throw from the mail provider means that the mail was not accepted. Suppression lists, orders,
consent, the send window, settings, the calendar's months, provider answers and the discount mint are inputs.

## What the proofs found

Where code and documentation disagree the model follows the code.

- No write takes a target from `deferred` back to `pending`, and `startSending` accepts `pending` only. The headers of the
  sweep and of the worker intend a deferred target to be gated again and sent; as coded it never is
  (`Deferral.DeferredIsNeverSent`), even when every gate passes it (`Reentry.DeferredReentersInVain`).
- The comment at the quota gate says that the completion transaction corrects an over-admission. It counts the send but
  does not check the caps again. With N workers, D and M the daily and the monthly cap, and sends possible at all, the
  largest bucket a day can reach is min(D, M) + N - 1 (`CapPeaks.PeakIsExact`), and the largest total of a month of L days
  is min(M + N - 1, L * (D + N - 1)) (`CapPeaks.MonthPeakIsExact`). So the daily cap is never exceeded if and only if N is
  at most one or M + N - 1 is within D (`CapPeaks.DailyCapKeptIff`), the monthly cap if and only if N is at most one or
  L * (D + N - 1) is within M (`CapPeaks.MonthlyCapKeptIff`). The cooldown holds if and only if N is at most one
  (`RacingWorkers.CooldownKeptIff`), and one customer's day has its own exact maximum (`RationPeak.CustomerPeakIsExact`,
  `RationPeak.RationKeptIff`).
- The spend ceiling is checked without a reservation: the cap is kept in every run if and only if at most one call is in
  flight, a call costs nothing or none fits (`UnreservedAdmissions.CapKeptIff`). With P in flight the bound is P - 1
  estimates higher (`SpendCeiling.CeilingHolds`) and is reached (`UnreservedAdmissions.CeilingIsReached`). Handlers that
  have passed the check and not yet written their row are in flight too: bounding the pending rows alone bounds nothing
  (`UnreservedAdmissions.PendingRowsAreNotEnough`).
- `suppressed` is the one terminal status that may coexist with an accepted send. In all runs of n dispatch workers it
  means that nothing was accepted, if and only if n is at most one (`RacingWorkers.SuppressedMeansUnsentIff`).
- The write hook narrows a where clause that is there and adds none: `updateMany` and `deleteMany` stay in the tenant if
  and only if they carry one (`TenantHooks.BulkWriteConfinedIffWhere`).
- A chunked deletion repeats for ever, without taking a row, if and only if the batch size is zero
  (`ShopErasure.ZeroBatchNeverEnds`).
- A discount code without braces leaves no token in any text if and only if it is no piece of the code token; "D" and
  the empty code leave one (`Substitution.NoPlaceholderLeft`).
- The cost estimate truncates two divisions; at the listed rates neither ever loses anything (`CostRates.CostIsExact`).
- The sweep selects live merchants with an active email campaign only. A merchant whose last campaign is paused keeps its
  deferred targets, whatever their age (`DispatchSweep.PausedMerchantKeepsDeferred`): expiry works for a merchant if and
  only if it is selected, or has no campaign at all (`DispatchSweep.ExpiryWorksIff`).
- The limiter reads the clock before it awaits its script. A call that runs 3600 seconds or more after its hour's first
  one finds the counter expired and starts a new one. Exactly the first calls up to the cap are let through if and only if
  no call is that late, or there are no more calls than the cap (`RateLimiter.ExactlyTheFirstIff`); and for all calls that
  take at most so long, this and the bound of twice the cap hold if and only if they take no time
  (`RateLimiter.GuaranteesIff`).

## Model

| member | source | states |
|---|---|---|
| SendOnce.AtMostOneSend | apps/drainer/src/workers/dispatch.worker.ts:119-406 | over every run (replicas, duplicate and replayed jobs, crashes, lost acknowledgements, sweeps, erasure) at most one accepted send per message; none while the target is pending, deferred or failed; exactly one once it is sent |
| SendOnce.StatusesMatch | packages/db/src/repositories/campaign.repository.ts:393-417 | in every reachable state target and Message show one status, and a sending target always has a draft Message, so the second compare-and-set of the completion transaction cannot miss |
| SendOnce.StepKeeps | apps/drainer/src/workers/dispatch.worker.ts:119-320 | every step of every process keeps the send invariant: rows agree, the status tells how many sends were accepted, one owner per message |
| RacingWorkers.SuppressedMeansUnsentIff | packages/db/src/repositories/campaign.repository.ts:393-400 | over all runs of n dispatch workers a suppressed message was never accepted, if and only if n is at most one |
| RacingWorkers.AcceptedThenSuppressed | packages/db/src/repositories/campaign.repository.ts:380-417 | a run of two workers from the empty database: one's mail is accepted, then the other, whose gates object, suppresses the message |
| LoneWorker.SuppressedMeansUnsent | apps/drainer/src/workers/dispatch.worker.ts:167-208 | with one worker, sweeps and erasure included, no suppressed message was ever accepted |
| LoneWorker.StepKeepsLone | apps/drainer/src/workers/dispatch.worker.ts:119-406 | every step keeps that: nothing is delivered before the gates decide, what the worker owns is not suppressed, what a sweep saw deferred is never sent |
| SendOnce.MarkSentMoves | packages/db/src/repositories/campaign.repository.ts:587-613 | the completion transaction commits exactly if the target is sending, moves both rows to sent, and touches no other message |
| SendOnce.ResolveMoves | packages/db/src/repositories/campaign.repository.ts:380-417 | a terminal resolution moves pending, deferred and sending targets only, and keeps target and Message in step |
| FrozenText.TextIsFrozen | apps/drainer/src/workers/ai-generate.worker.ts:439-503 | once a message has a target its generation is completed, its text is that generation's text for good, and whatever the provider accepted for it is that text |
| FrozenText.LeavesPendingOnce | packages/db/src/repositories/ai-generation.repository.ts:113-170 | a generation row leaves pending at most once and never changes afterwards |
| FrozenText.ErasureIsFinal | packages/db/src/compliance/gdpr-processor.ts:362-385 | erasing a customer leaves none of its messages, and none of them, nor its target or generation, ever comes back, whatever jobs and workers still hold it |
| Tables.RedactErases | packages/db/src/compliance/gdpr-processor.ts:362-385 | the deletes take exactly the customer's targets, messages and generations and leave every other row, both ledgers and the audit rows as they were |
| FrozenText.StepKeepsText | packages/db/src/repositories/message.repository.ts:121-131 | every step of every process keeps the text invariant |
| SendLedger.QuotaCountsRecordedSends | packages/db/src/repositories/campaign.repository.ts:549-636 | over every run a merchant-day bucket counts exactly the sends recorded for it, each with one audit row and one accepted delivery, retries after a lost acknowledgement included |
| SendLedger.LedgersAgree | packages/db/src/repositories/campaign.repository.ts:549-657 | without erasure the bucket equals the number of sent targets of that merchant and UTC day, and each sent target has exactly one `dispatch.sent` audit |
| SendLedger.StepKeepsLedger | packages/db/src/repositories/campaign.repository.ts:537-658 | every step of every process keeps the send ledger |
| Deferral.DeferredIsNeverSent | packages/db/src/repositories/campaign.repository.ts:450-453 | a target deferred at any moment of a run is never sending or sent afterwards, ends in deferred, suppressed or erased, and its message is never delivered |
| Deferral.StepKeepsParked | packages/db/src/repositories/campaign.repository.ts:668-674 | no step of any process brings a deferred message back to the send path |
| Reentry.DeferredReentersInVain | apps/scheduler/src/handlers/dispatch-sweep.ts:123-144 | for every merchant that can send a steady run to a deferred target, and one on from there on which it passes every gate, reaches its send and stays deferred, with nothing delivered |
| QuotaBound.DailyCapHolds | apps/drainer/src/dispatch/gate-chain.ts:117-123 | with N workers, fixed caps and a monotone clock a day's bucket is at most dailySendCap + N - 1, exact for one worker, and a cap of zero sends nothing, wherever midnight falls |
| QuotaBound.MonthlyCapHolds | packages/db/src/repositories/campaign.repository.ts:327-346 | the same for the sum of a calendar month's buckets and monthlySendsCap |
| QuotaBound.StepKeepsQuota | apps/drainer/src/workers/dispatch.worker.ts:167-292 | every step keeps sends in the period plus workers that may still add one within cap + N - 1 |
| CapPeaks.PeakIsExact | apps/drainer/src/dispatch/gate-chain.ts:117-123 | for all settings and any number N of workers, no steady run takes a day's bucket above min(D, M) + N - 1 (nothing if no send is possible), and some steady run gets there on any day |
| CapPeaks.DailyCapKeptIff | apps/drainer/src/dispatch/gate-chain.ts:117-123 | the daily cap is never exceeded if and only if N is at most one, nothing can be sent, or the monthly cap stops N workers in time |
| CapPeaks.MonthPeakIsExact | packages/db/src/repositories/campaign.repository.ts:327-346 | for all settings, N and months of L days (or without end), no steady run takes the month's total above min(M + N - 1, L * (D + N - 1)), and some steady run gets there |
| CapPeaks.MonthlyCapKeptIff | packages/db/src/repositories/campaign.repository.ts:327-346 | the monthly cap is never exceeded if and only if N is at most one, nothing can be sent, or L * (D + N - 1) is within it |
| Frequency.FrequencyHolds | apps/drainer/src/dispatch/gate-chain.ts:88-98 | with one worker two sent messages of a customer are more than the cooldown apart, and no UTC day holds more than maxDailySendsPerCustomer |
| Frequency.StepKeepsFrequency | packages/db/src/repositories/message.repository.ts:146-159 | every step keeps what the frequency reads established until the send is recorded |
| RacingWorkers.CooldownKeptIff | apps/drainer/src/dispatch/gate-chain.ts:88-98 | a merchant's messages to one customer are kept apart in all steady runs if and only if N is at most one, nothing can be sent, or there is no cooldown |
| RationBound.DayHolds | apps/drainer/src/dispatch/gate-chain.ts:88-98 | with N workers a UTC day holds at most N - 1 of a customer's messages above maxDailySendsPerCustomer |
| RationBound.StretchHolds | packages/db/src/repositories/message.repository.ts:146-159 | and any stretch of time as long as the cooldown at most N of them |
| RationPeak.CustomerPeakIsExact | apps/drainer/src/dispatch/gate-chain.ts:88-98 | the exact maximum of one customer's messages on a day over all steady runs: the tightest of ration and caps + N - 1, or N for each race that the cooldown leaves time for, whichever is less |
| RationPeak.RationKeptIff | apps/drainer/src/dispatch/gate-chain.ts:88-98 | the ration is never exceeded if and only if N is at most one, nothing can be sent, a cap stops the workers in time, or the cooldown leaves no time for more |
| GateChain.DecisionIsStable | apps/drainer/src/dispatch/gate-chain.ts:55-126 | stopping at the first gate that decides gives what reading everything would |
| GateChain.ChainDecides | apps/drainer/src/dispatch/gate-chain.ts:63-125 | the chain suppresses if and only if a terminal gate objects, naming one that does; defers if and only if none does and a transient gate delays; passes if and only if neither |
| GateChain.FirstGateDecides | apps/drainer/src/dispatch/gate-chain.ts:63-125 | on any reads, the chain suppresses for the first terminal gate that objects, once all before it have been read; it defers for the window before the quota, and passes only with every read made, both caps unreached and no objection |
| Repositories.Database.ClaimTarget | packages/db/src/repositories/campaign.repository.ts:205-228 | creates a pending target for a message that has none; a taken message id is a no-op |
| Repositories.Database.StartSending | packages/db/src/repositories/campaign.repository.ts:442-463 | moves pending to sending, and otherwise reports whether the target is missing or in what status it is |
| Repositories.Database.RevertToPending | packages/db/src/repositories/campaign.repository.ts:487-495 | moves sending back to pending, clears the stamp, changes nothing else |
| Repositories.Database.DeferTarget | packages/db/src/repositories/campaign.repository.ts:668-674 | moves pending or deferred to deferred, changes nothing else |
| Repositories.Database.ResolveTerminal | packages/db/src/repositories/campaign.repository.ts:380-417 | the target first, the Message only if the target moved and only from draft |
| Repositories.Database.MarkSentWithQuota | packages/db/src/repositories/campaign.repository.ts:537-658 | all four writes or none: bucket upsert and increment, both compare-and-sets, audit; a miss leaves no trace and reports the current status |
| Repositories.Database.AdmitGeneration | apps/drainer/src/handlers/customer-state-changed.ts:497-543 | pending generation and draft message appear together |
| Repositories.Database.MarkCompleted | packages/db/src/repositories/ai-generation.repository.ts:113-138 | completes a pending row and counts it; touches no other |
| Repositories.Database.IncrementSpend | packages/db/src/repositories/ai-spend-bucket.repository.ts:129-148 | adds the cost and one to the merchant's bucket of that UTC day, making it if absent |
| Repositories.Database.CompleteGeneration | apps/drainer/src/workers/ai-generate.worker.ts:439-513 | text and spend are written if and only if this call took the row out of pending |
| Repositories.Database.FailGeneration | packages/db/src/repositories/ai-generation.repository.ts:155-170 | fails a pending row and no other |
| DispatchWorker.Pipeline.ProcessCampaignDispatchJob | apps/drainer/src/workers/dispatch.worker.ts:119-320 | whatever runs at the awaits, the job is a run of the machine whose moves come in the code's order; each end says, on the tables before and after the job's last step, what it makes of the rows, and on the reads which gate decided: the first terminal gate that objects, with its reason on a suppressed target and draft; a suppressed recipient leaves both suppressed, any other refusal failed with its code; a mail reported as sent is the one accepted body and is the Message's text |
| DispatchWorker.Pipeline.LoadDispatchContext | apps/drainer/src/workers/dispatch.worker.ts:143-164 | a context means that target, message and settings are there and the target is pending or deferred, and carries the Message's text; otherwise the job ends |
| DispatchWorker.Pipeline.RunGates | apps/drainer/src/dispatch/gate-chain.ts:55-126 | the reads are the first of the seven in the gates' order, each made only while the chain is undecided, and the outcome is the chain's decision on exactly what they answered |
| DispatchWorker.Pipeline.Read | apps/drainer/src/dispatch/gate-chain.ts:63-125 | each read fills in its own answer only, and it is what the rows say at that moment: the customer's mails within the cooldown or since midnight UTC, the merchant's bucket of the day, the sum of its buckets since the month began |
| DispatchWorker.Pipeline.StartSending | apps/drainer/src/workers/dispatch.worker.ts:206-219 | its own committed step before the external call; a lost race ends the job without a send |
| DispatchWorker.Pipeline.TryCompletion | apps/drainer/src/workers/dispatch.worker.ts:247-275 | one attempt, known to the caller only if acknowledged; an acknowledged one leaves the target sent or already terminal |
| DispatchWorker.Pipeline.CompleteInPass | apps/drainer/src/workers/dispatch.worker.ts:239-292 | at most three attempts, none after an acknowledged one; running out throws nothing |
| DispatchWorker.Pipeline.HandleSesError | apps/drainer/src/workers/dispatch.worker.ts:333-406 | retryable and unknown errors take the row from sending back to pending and rethrow; a suppressed recipient leaves an open target and its draft suppressed, any other refusal leaves them failed with the provider's code; a closed row stays as it is |
| DispatchWorker.Pipeline.Await | apps/drainer/src/workers/dispatch.worker.ts:239-275 | others' steps at an await extend the run and leave the worker where it is, or it dies |
| AiLedger.SpendCountsCompletions | apps/drainer/src/workers/ai-generate.worker.ts:439-513 | over every run each merchant-day bucket is the sum of the costs, and the number, of the generations completed under it; a row is completed if and only if it is on record, at its own cost |
| AiLedger.SpendIsConserved | packages/db/src/repositories/ai-spend-bucket.repository.ts:129-148 | without erasure a merchant's total spend is the sum of costMicrocents over its completed rows and its generation counters total their number |
| AiLedger.ReadIsExact | packages/db/src/repositories/ai-spend-bucket.repository.ts:165-179 | over every run the month read of the spend check is the sum of the costs of exactly the merchant's own completions since that day, erased ones included |
| AiLedger.TextMeansCompleted | packages/db/src/repositories/message.repository.ts:121-131 | a Message shows text only if its generation is completed, and then that generation's text |
| AiLedger.StepKeepsSpend | apps/drainer/src/workers/ai-generate.worker.ts:481-513 | every step of every process keeps the spend ledger |
| SpendCeiling.CeilingHolds | apps/drainer/src/handlers/customer-state-changed.ts:277-338 | with at most P calls in flight and each within the estimate, every month's spend is at most cap + (P - 1) estimates, across month ends; nothing is spent while one estimate does not fit |
| UnreservedAdmissions.CeilingIsReached | apps/drainer/src/handlers/customer-state-changed.ts:277-338 | for every cap, estimate and P some run with at most P calls in flight takes a month to exactly cap + (P - 1) estimates |
| UnreservedAdmissions.CapKeptIff | apps/drainer/src/handlers/customer-state-changed.ts:277-338 | the cap itself is kept in every run if and only if P is at most one, a call costs nothing, or none fits |
| UnreservedAdmissions.PendingRowsAreNotEnough | apps/drainer/src/handlers/customer-state-changed.ts:281-294 | with never more than one pending row a day can still end any number of estimates above the cap |
| SpendCeiling.StepKeepsCeiling | packages/db/src/repositories/ai-spend-bucket.repository.ts:165-179 | every step keeps spend plus one estimate per call in flight within the bound |
| SpendCeiling.CheckSeesMonth | packages/db/src/repositories/ai-spend-bucket.repository.ts:165-179 | the month read is at least what any month from there on has come to |
| SpendCeiling.BoundedCallsAreCheap | apps/drainer/src/handlers/customer-state-changed.ts:285-290 | a call within the token bounds costs no more than the estimate of the check |
| CostRates.CostMonotone | packages/ai/src/cost-rates.ts:101-120 | fewer tokens never cost more, and the model is known or not regardless of tokens |
| CostRates.CostIsExact | packages/ai/src/cost-rates.ts:116-119 | at every listed rate the cost is the exact rational one: neither truncation loses anything |
| AiWorker.ProcessAiGenerateJob | apps/drainer/src/workers/ai-generate.worker.ts:184-560 | the job is a run of the machine in the code's order; the winner finds the row pending and completes row, Message and bucket with the answer's exact cost and its text, in which a minted code and percentage fill their own placeholders; a row fails exactly for a non-retryable refusal or a customer erased after a priced answer, and the job rethrows exactly for the other errors, an unpriced model or a failed mint; a lost race leaves every table as it was |
| AiWorker.ReplyIs | apps/drainer/src/workers/ai-generate.worker.ts:300-437 | every answer of provider and mint is exactly one of text to store, refusal and throw, each characterised on the answer itself |
| AiWorker.Pickup | apps/drainer/src/workers/ai-generate.worker.ts:202-298 | a row gone or no longer pending is left alone, a pending one older than a day is failed unasked, and only a pending one that is not goes to the provider |
| AiWorker.FinishNow | apps/drainer/src/workers/ai-generate.worker.ts:439-513 | exactly who finds the row pending completes row, Message text and the day's spend bucket together; the loser leaves every table as it was |
| AdmissionHandler.HandleCustomerStateChanged | apps/drainer/src/handlers/customer-state-changed.ts:97-580 | a run of the machine in the code's order: ineligible events touch nothing, the limiter counts every other call, a draft with its pending generation is written only after a read of the month's spend, as of the clock at the start, that left room for one estimate under the cap in microcents, and a refusal names the spend it read |
| AdmissionHandler.CheckSpend | apps/drainer/src/handlers/customer-state-changed.ts:281-294 | admits if and only if the month's spend plus one estimate is within the cap |
| AdmissionHandler.WriteGeneration | apps/drainer/src/handlers/customer-state-changed.ts:497-543 | writes one new message and its pending generation under an id never used before |
| DispatchSweep.Scheduler.RunDispatchSweep | apps/scheduler/src/handlers/dispatch-sweep.ts:71-210 | of every live merchant with an active email campaign whose reads succeed, each deferred target older than three days becomes suppressed as stale whatever its campaign, each other one without an active campaign as paused, their drafts follow, and every other row stays; the two counters grow by the sizes of those groups of the merchants whose pass went through, and all and only their jobs are queued, each counted once |
| DispatchSweep.Scheduler.SelectMerchants | apps/scheduler/src/handlers/dispatch-sweep.ts:78-86 | each live merchant with an active email campaign once, and no other |
| DispatchSweep.Scheduler.JudgeDeferred | apps/scheduler/src/handlers/dispatch-sweep.ts:123-144 | the merchant's deferred targets by age first, then by campaign: the rows of each group, the counters, and the rest, which is queued again, are stated on age and campaign outright |
| DispatchSweep.Scheduler.FindDispatchableDrafts | packages/db/src/repositories/campaign.repository.ts:155-190 | the smallest ids among drafts with completed, non-empty text, a matching campaign and no target, up to the take |
| DispatchSweep.Scheduler.SweepMerchant | apps/scheduler/src/handlers/dispatch-sweep.ts:104-194 | a throw costs one merchant its jobs and counters; a queue failure does not undo the resolutions; totalEnqueued grows by the number of jobs |
| DispatchSweep.SweptLeavesYoungAndActive | apps/scheduler/src/handlers/dispatch-sweep.ts:123-144 | after the sweep what is still deferred of a judged merchant is at most three days old with an active campaign; other merchants' deferred targets are untouched |
| DispatchSweep.ExpiryWorksIff | apps/scheduler/src/handlers/dispatch-sweep.ts:78-144 | a sweep without faults leaves every deferred target of a merchant young and active, whatever the tables, if and only if the merchant is live and has an active email campaign, or has no campaign at all |
| DispatchSweep.PausedMerchantKeepsDeferred | apps/scheduler/src/handlers/dispatch-sweep.ts:78-86 | a live merchant whose only email campaign is paused keeps a deferred target of any age |
| Outbox.DeliveryDuality | apps/drainer/src/drainer.ts:114-211 | over every run with replicas, crashes, rollbacks, unseen commits, forced dead-letters, replays and erasure: a mark-before-invoke event is dispatched at most once, a processed standard event was delivered at least once |
| Outbox.NoTwoHold | packages/db/src/repositories/outbox.repository.ts:77-100 | no two replicas hold a row at once, nor wait to run the same deferred handler |
| Outbox.AttemptsAreBounded | packages/db/src/repositories/outbox.repository.ts:113-176 | a row out of the dead-letter state has at most nine attempts, any row at most ten, operators included |
| Outbox.StepKeeps | packages/db/src/repositories/outbox.repository.ts:77-259 | every step of every replica and operator keeps the outbox invariant |
| Drainer.OutboxDb.RunDrainTick | apps/drainer/src/drainer.ts:102-218 | claims the oldest free rows; each claimed row is committed processed with its attempts as they were if it is mark-before or succeeds, dead with one more attempt if it throws for good or for the tenth time, and otherwise with one more attempt; deferred handlers run after the commit and only then; asks for more exactly if the batch was full; a run of the machine |
| Drainer.OutboxDb.ClaimBatch | packages/db/src/repositories/outbox.repository.ts:77-100 | the oldest unprocessed, undead, unlocked rows, oldest first, all of them if fewer than the limit |
| Drainer.OutboxDb.HandleRow | apps/drainer/src/drainer.ts:126-172 | a mark-before-invoke row is marked and postponed; a standard row's handler runs, and the row is processed on success, dead at once on a non-retryable throw, dead on a retryable one with the tenth attempt, and otherwise only one attempt older |
| Drainer.OutboxDb.PhaseTwoLoop | apps/drainer/src/drainer.ts:187-211 | every deferred handler is run once, in order, whatever the others do |
| Drainer.DeferredInOrder | apps/drainer/src/drainer.ts:126-134 | the deferred handlers are those of exactly the batch's mark-before-invoke rows, each once and in batch order |
| Drainer.OutboxDb.MarkDeadLettered | packages/db/src/repositories/outbox.repository.ts:158-176 | dead-letters a row once, counting an attempt, processed or not |
| Drainer.OutboxDb.RequeueDeadLettered | packages/db/src/repositories/outbox.repository.ts:239-259 | a replayed row starts over at zero attempts, and is claimable again exactly if it was never processed |
| OutboxWait.ClaimedInTime | packages/db/src/repositories/outbox.repository.ts:90-99 | in any run of the outbox with one drainer and no replays, crashes included, a claimable row with p claimable rows older or tied is in a batch by the time 10p/b + 1 ticks have committed, unless an operator dead-letters or erases it |
| OutboxWait.StepPays | apps/drainer/src/drainer.ts:121-172 | every committed tick that passes a row over takes at least b attempts off the rows ahead of it, and no other step adds any |
| OutboxWait.BacklogDrains | apps/drainer/src/drainer.ts:213-216 | over any run without new or replayed rows, with any number of replicas, the attempts that claimable rows have left fall by at least the number of rows committed |
| ShopErasure.Store.EraseThroughCrashes | packages/db/src/compliance/gdpr-processor.ts:491-561 | any number of runs that die anywhere, then a full one: nothing of the tenant is left, other tenants' rows, merchants and sessions are untouched, every log row is kept |
| ShopErasure.Store.ProcessShopRedact | packages/db/src/compliance/gdpr-processor.ts:491-561 | a run that gets to do anything has logged the erasure before it deletes, wherever it dies; it erases only the shop's tenant, and finding no merchant logs a tombstone and touches nothing else |
| ShopErasure.Store.ChunkedDeleteTenant | packages/db/src/compliance/gdpr-processor.ts:574-661 | with a positive batch size it ends, takes only rows of the tenant in that table that the soft-delete filter shows, and leaves none of those |
| ShopErasure.Store.DeleteTables | packages/db/src/compliance/gdpr-processor.ts:451-541 | what the chunks leave of the tenant is soft-deleted rows only, and wherever a run dies no row has been taken while a visible row of a table that refers to its own is left |
| ShopErasure.DeletionErases | packages/db/src/compliance/gdpr-processor.ts:553-560 | the final cascade completes the erasure and keeps every log row, with its merchant nulled |
| ShopErasure.ZeroBatchNeverEnds | packages/db/src/compliance/gdpr-processor.ts:640-660 | the chunk loop can go on for ever on a table if and only if the batch size is zero, and then no number of rounds takes a row |
| Scoring.BoundaryIsOrderStatistic | packages/db/src/services/scoring-math.ts:380-392 | boundary k of any cohort of five or more is its ceil(kN/5)-th smallest value |
| Scoring.ScoredByShares | packages/db/src/services/scoring-math.ts:247-322 | for any customer and cohort of five or more: the order quintile is one plus the whole fifths of the cohort with fewer orders, four at most, the spend quintile likewise, the recency quintile five less the fifths with fewer days, and each step is worth a fifteenth of churn risk |
| Scoring.QuintilesFollowTheCuts | packages/db/src/services/scoring-math.ts:121-159 | a quintile exceeds k if and only if the customer's own value in that dimension exceeds the ceil(kN/5)-th smallest of the cohort's, reversed for recency |
| Scoring.StateIsRecencyBand | packages/db/src/services/scoring-math.ts:201-322 | the state is the recency band with ends at 30, 90, 180 and 365 days, insufficient exactly for a flagged cohort, and there is no score exactly for an unflagged cohort below five |
| Scoring.RanksAbove | packages/db/src/services/scoring-math.ts:400-410 | at most floor((5-k)N/5) of the cohort rank above k, and exactly that many if all values differ |
| Scoring.BucketsAreEven | packages/db/src/services/scoring-math.ts:93-111 | without ties the five quintiles differ in size by at most one |
| Scoring.RanksAreMonotone | packages/db/src/services/scoring-math.ts:121-159 | ranks lie between 1 and 5 and follow the values; the recency quintile runs against them |
| Scoring.RankByAscendingBoundaries | packages/db/src/services/scoring-math.ts:400-410 | overwriting the rank at each cut point counts the cut points below the value |
| Scoring.PermutationInvariant | packages/db/src/services/scoring-math.ts:247-265 | a customer's score depends on who is in the cohort, not on their order |
| Scoring.ChurnIsBounded | packages/db/src/services/scoring-math.ts:173-179 | a scored customer's churn risk lies in [0, 4/5] and is zero exactly for quintile five in every dimension |
| Scoring.ChurnIsAntitone | packages/db/src/services/scoring-math.ts:173-179 | churn risk falls strictly as any quintile rises |
| Base32.EncodeCrockfordBase32 | packages/crypto/src/base32.ts:44-68 | the byte loop with its small accumulator computes the bit-stream encoding: one symbol per five bits, a last partial group padded on the right |
| Base32.TwelveBits | packages/crypto/src/base32.ts:49-60 | at every point of the loop the accumulator is below 2^12 |
| Base32.RoundTrip | packages/crypto/src/base32.ts:44-68 | a decoder gives back every input |
| Base32.Injective | packages/crypto/src/base32.ts:44-68 | different inputs have different encodings |
| Base32.EncodedLength | packages/crypto/src/base32.ts:37-38 | the output has ceil(8n/5) symbols |
| Base32.PrefixStable | packages/crypto/src/base32.ts:49-60 | the first floor(8n/5) symbols do not change when bytes are appended |
| TenantHooks.ReadIsPartitionRead | packages/db/src/extensions/hooks.ts:129-149 | a rewritten read equals the same read on the tenant's partition: it returns exactly the tenant's rows that match the clause and, unless the clause asks, are not soft-deleted; it is refused exactly if the clause names anything but the tenant |
| TenantHooks.ReadRefusedIff | packages/db/src/extensions/hooks.ts:50-149 | which reads are refused, for every scope and table: without a scope all but sessions, for a tenant another's root and a clause that names another |
| TenantHooks.WriteStaysInTenant | packages/db/src/extensions/hooks.ts:180-218 | for every operation, table and argument a rewritten write changes no other tenant's row and leaves new and changed rows owned by the scope |
| TenantHooks.WriteIsPartitionWrite | packages/db/src/extensions/hooks.ts:180-252 | a rewritten write does to the tenant's partition what the caller's own arguments, with the tenant filled in on new rows, would do to it |
| TenantHooks.WriteRefusedIff | packages/db/src/extensions/hooks.ts:61-252 | which writes are refused, for every scope, table and argument: without a scope all but sessions, for a tenant another's root and any row, edit or clause that names another |
| TenantHooks.BulkWriteConfinedIffWhere | packages/db/src/extensions/hooks.ts:204-216 | a bulk write is confined on all tables if and only if it carries a where clause |
| TenantHooks.ReadRewritingIsIdempotent | packages/db/src/extensions/hooks.ts:50-59 | rewriting a rewritten read changes nothing |
| TenantHooks.WriteRewritingIsIdempotent | packages/db/src/extensions/hooks.ts:61-70 | rewriting a rewritten write changes nothing |
| RateLimiter.Redis.IncrementAndCheck | packages/queue/src/rate-limiter.ts:139-152 | an answered call counts once on the counter of the hour it asked in, as that stands when the script runs, and is allowed exactly within the cap; it errs exactly if the script is gone twice, and then counts nothing |
| RateLimiter.Redis.IncrWithTtl | packages/queue/src/rate-limiter.ts:61-67 | the counter of an hour never resets within it and has a time to live past its end; once expired it starts over |
| RateLimiter.ExactlyTheFirstIff | packages/queue/src/rate-limiter.ts:139-152 | exactly the first min(cap, calls) calls of a merchant's hour are allowed if and only if none ran 3600 s after the first or later, the calls are within the cap, or the cap is zero; otherwise more than the cap are |
| RateLimiter.WindowAdmitsTwiceTheCap | packages/queue/src/rate-limiter.ts:22-33 | no window of at most an hour admits more than twice the cap, if neither hour it touches has a late call beyond the cap |
| RateLimiter.GuaranteesIff | packages/queue/src/rate-limiter.ts:139-152 | over all logs whose calls take at most so long from clock read to script, both guarantees hold if and only if that is no time at all, or the cap is zero |
| RateLimiter.LateCalls | packages/queue/src/rate-limiter.ts:87-108 | one late millisecond admits twice the cap within an hour, and three times the cap within a window |
| RateLimiter.InTimeIsTimely | packages/queue/src/rate-limiter.ts:61-67 | calls whose scripts run before their hour is over are never late |
| Substitution.NoPlaceholderLeft | packages/ai/src/discount-substitutor.ts:68-89 | for a code without braces and a percentage of digits, no text leaves either token if and only if the code is no piece of the code token |
| Substitution.PieceLeavesToken | packages/ai/src/discount-substitutor.ts:82-86 | for every brace-free code that is a piece of the code token, a text whose split token it completes |
| Substitution.TokenFreeTextUnchanged | packages/ai/src/discount-substitutor.ts:68-80 | text without tokens comes back as it is with both tokens reported; without a discount any text does, with none reported |
| Substitution.FillsPlaceholders | packages/ai/src/discount-substitutor.ts:68-89 | the text cut at every code token is glued with the code, what that gives is cut at every percentage token and glued with the percentage, and exactly the tokens the text lacks are reported |

## Left out

- QuotaBound.DailyCapHolds: needs workers that take one job at a time, fixed caps and month reads that start at the month of the gates' clock; a run with changing caps is not bounded by any one of them.
- Frequency.FrequencyHolds: one dispatch worker and fixed settings; `RacingWorkers.CooldownKeptIff` and `RationPeak.RationKeptIff` say when more workers keep the limits.
- AiLedger.SpendIsConserved: totals over runs without erasure; with erasure `AiLedger.SpendCountsCompletions` counts the erased completions too.
- OutboxWait.ClaimedInTime: nothing is claimed about replayed rows, since a replay restarts the attempts of a row ahead.
- DispatchSweep.Scheduler.FindDispatchableDrafts: which campaign a draft matches is an input.
- DispatchSweep.Scheduler.RunDispatchSweep: a throw between two resolutions of one merchant is not modelled; the machine's sweep events cover it.
- TenantHooks.ReadIsPartitionRead: `findUnique` and reads of the tenant root are outside it, as the hooks themselves exempt them; relation writes (`connect`) are not modelled.
- Reconciliation by delivery notifications and operator rescue of rows stuck in `sending`; the smoke-dispatch command.
- Shop erasure interleaved with dispatch: customer erasure is a step of the machine, shop erasure has its own model, in which row-level cascades between two tables of the tenant are not modelled (they only remove more of it).
- `processCustomerRedact` beyond the rows of the pipeline: scrubbed customer columns, severed orders and its audit rows.
- Audit rows other than `dispatch.sent`, log lines, error texts, latency and token columns.
- Prisma, Postgres, Redis, BullMQ and SES beyond the contracts listed above; AES, HMAC and the discount mint.
- Time zones and daylight saving of the send window; web routes, authentication, configuration, start-up and shutdown.
- Lurker scores, money parsing, id wrapping and webhook deduplication.
- AI tone validation in the write hook: a schema check on one column.
