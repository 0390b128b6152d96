# A verified model of the SMS service

This project models the life of one SMS through the service and proves what the service guarantees
about it. API calls create a message and enqueue one job for it; an at-least-once queue hands jobs to
workers; workers claim the message in the database, send it and write down what happened; callbacks
of the provider and a periodic reconciler finish it. All of them share a few tables and take no other
lock than the row lock of one cap transaction. The ordering questions that follow from this are the
subject: no single function answers them.

## How the model is built

* `Tables` has the database tables as values with one function per SQL statement; `Store` keeps the
  same tables in place in a class, one method per statement, each proved equal to its function.
  `CapTransaction` takes the one multi-statement transaction apart and runs any number of them at once.
* The programs are imperative methods that talk to an `Outside` object: it fixes in advance, but
  arbitrarily, what every store, queue or provider call is going to answer. `Processor`, `Service` and
  `Webhook` prove that each method asks exactly the questions of a small step machine, in order, until
  that machine stops, and then describe that machine's questions and its end without it, by the
  questions' own fields and the answers before them (`Justified`, `Ends`, `Handled`, `QueueRun`). (A few long
  functions, such as `Process` and `CreateAndEnqueueSMS`, are split into methods that follow one another.)
* `System` runs the same step machines over shared tables: a run is any sequence of events, each event
  is one statement, queue call or provider call, and an event that cannot happen is skipped. So a fact
  about all event sequences covers every interleaving, redelivery, failed call, crash, callback and
  reconciler run. Each message has a history: its claims, how often it was sent and how often that was
  answered 2xx, whether a delivery was acknowledged, and three flags for what can go wrong: `early` (a
  claim was refused because the previous one was not yet stale), `overrun` (a claim was made while an
  earlier claimant still ran) and `lost` (a write after a 2xx did not happen).
* `Serving` ties the steps of the system to the questions of the programs, and what is sent to what was
  requested.
* `Invariant` has the inductive invariant, `Guarantees` what it means, `Lease` the same system with a
  clock, and `Traces` and `Sharpness` the runs that show why the guarantees need their conditions.
* `Template`/`Confluence`, `Reconciler`, `WorkerPool`, `MockProvider`/`Posting`, `QueueGroups` and
  `Signature` model the functions that are hard on their own.

Times are milliseconds in the service and nanoseconds in the mock provider.

## Assumptions

* An error from `EnqueueSMS` means that no job was created. A success may still create no job
  (`dropped`): the deduplication id has no tenant in it, so the queue can take a job of one tenant for
  a duplicate of another's.
* Every SQL statement is one atomic step. A store call works, fails without effect, or takes effect
  although its caller sees an error.
* Fresh message ids (ULIDs are not modelled). Provider ids need be neither unique nor non-empty.
* A send counts as accepted when the worker saw a 2xx. A call that timed out although the provider
  took it counts as sent, not as accepted.
* Clocks, random draws, the breaker, the limiter, the suppression and consent lists and the visiting
  order of Go maps are arbitrary inputs. One shared clock is assumed in `Lease` only.

## What the code does differently from what it says

* `internal/worker/processor.go:102`: the comment promises that an empty local limiter leaves the job
  to the queue, but after three attempts without a token the row is marked `failed` (lines 208-217;
  `Traces.EmptyLimiterFails`, and `Processor.ExhaustedIff` for exactly when this happens).
* `internal/providers/twilio/client.go:82-97`: `ShouldRetry` is called with a non-nil error only, so
  its branches on the HTTP status are never reached; only timeouts are retried
  (`Processor.StatusNeverMatters`).
* `internal/worker/processor.go:70-72`: a refused claim returns nil, so the job is deleted even if the
  row is still `processing` (`Traces.AcknowledgedYetProcessing`, and
  `Guarantees.AcknowledgedSettledIffNotRefused` for exactly when).
* `internal/service/notification.go:83-85` and `99-101`: "suppressed" is answered even if the mark
  failed and the row stays `queued` (`Guarantees.RejectedRowIsMarkedIffWritten`).
* `internal/store/pg/store.go:156-166`: the update has no condition on the state, so `delivered` and
  `failed` overwrite each other in the order the callbacks arrive (`Traces.TerminalStatesOverwrite`,
  `Guarantees.LastTerminalUpdateWins`); the phase theorems rank them equal.
* `cmd/mock-provider/main.go:396`: base * 2^attempt can leave 64 bits. Whatever the jitter and the draw,
  the first back-off for which it does is negative and those from attempt 64 on are zero
  (`MockProvider.FirstOverflowIsNegative`, `MockProvider.LateBackoffIsZero`); a run with enough retries
  sleeps for them (`MockProvider.NegativePauseIsAsked`, `MockProvider.DefaultBaseSleepsNegative`), and
  `MockProvider.InRangeIff` says exactly when all draws keep to the promised range.
* `deploy/k8s/jobs/sql/reconcile-submitted.sql:3-4`: "latest terminal event wins" leaves a choice when
  two were received at the same time, so runs need not produce the same final state
  (`Reconciler.TiesLeaveAChoice`, `Reconciler.AgreesIffUnanimous`).

## Model

| member | source | states |
|---|---|---|
| `Lease.TimedEndToEnd` | internal/service/notification.go:33-119 | end to end on a shared clock: if 26.2 s (20.2 s without a limiter) and five store calls fit into staleAfter and the writes after each 2xx succeed, then in every timed run the provider answers 2xx at most max(0, MaxPerDay) times, counting each answer, for the messages created for one tenant, phone and UTC day |
| `Guarantees.EndToEnd` | internal/worker/processor.go:95-159 | the same without a clock, provided that no claimed run of these messages outlived its claim |
| `Guarantees.DailyCap` | internal/store/pg/store.go:110-145 | in every run, without any proviso, at most max(0, MaxPerDay) messages of one tenant, phone and UTC day are ever accepted |
| `Guarantees.AcceptedAtMostOnce` | internal/worker/processor.go:149-159 | a message is answered 2xx at most once, counting each answer, unless a claimed run outlived its claim or a write after a 2xx was lost |
| `Traces.OverrunAcceptsTwice` | internal/worker/processor.go:65-72 | the first proviso is needed: every usable configuration has a run that overruns and in which one message is answered 2xx twice with no write lost |
| `Traces.LostWriteAcceptsTwice` | internal/worker/processor.go:136-159 | the second is needed: every usable configuration has a run that loses one write and in which one message is answered 2xx twice with no overrun |
| `Lease.MutualExclusion` | internal/worker/processor.go:66-217 | if 26.2 s (20.2 s without a limiter) and five store calls fit into staleAfter, no two workers are ever between claim and final write of one message |
| `Sharpness.ExclusiveIffLeaseFits` | internal/worker/processor.go:66-217 | the bound is exact: for every usable configuration, claims exclude each other in every timed run if and only if 26.2 s, or 20.2 s without a limiter, and five store calls fit into staleAfter |
| `Sharpness.TwoHold` | internal/worker/processor.go:95-217 | otherwise a timed run is constructed, three slow attempts long, at whose end two workers hold the message |
| `Lease.LeaseMakesSendsUnique` | internal/store/pg/store.go:191-202 | under that bound no claim ever overruns, and a message is answered 2xx at most once unless a write after a 2xx is lost |
| `Lease.RunBound` | internal/worker/processor.go:95-217 | in every timed run, whatever staleAfter is, a worker between claim and final write is at most 26.2 s (20.2 s without a limiter) and five store calls past the time its claim carries |
| `Lease.StepBound` | internal/providers/twilio/client.go:101-111 | each step of a claimed run, for every answer, stays within the time accounted for at the next: token waits of 2 s, calls of 6 s, back-offs of 0.2, 0.6 and 1.4 s |
| `Lease.TimedPhasesAdvance` | internal/store/pg/store.go:43-55 | under the bound a row only moves forward: queued, processing, submitted, then delivered, failed or suppressed |
| `Guarantees.ClaimSpacing` | internal/store/pg/store.go:191-202 | in every run, whatever the clocks, claims i and j of a message carry times more than (j - i) * staleAfter apart |
| `Guarantees.SendsBoundedByClaims` | internal/worker/processor.go:95-159 | whatever fails or overruns: at most three sends and one 2xx per claim, counting each send and each answer |
| `Guarantees.PhasesOnlyAdvance` | internal/store/pg/store.go:156-202 | between any two moments of any run a row keeps tenant, key, phone and creation time, never re-enters queued, never re-enters processing once it left it, and without overrun never moves back; histories only grow |
| `Traces.OverrunMovesBack` | internal/worker/processor.go:149-159 | that proviso is needed: every usable configuration has a run in which a worker that outlived its claim writes submitted over either terminal state |
| `Guarantees.ProcessingRowsAreClaimed` | internal/worker/processor.go:58-86 | in every reachable state a processing row carries the time of its last claim, and a row with a provider or provider id is neither queued nor processing |
| `Guarantees.NoLoss` | internal/queue/sqs/consumer.go:111-117 | an acknowledged job's row exists and is never again queued; unless a redelivery was refused before the previous claim went stale, it is settled then and for ever after |
| `Guarantees.AcknowledgedSettledIffNotRefused` | internal/worker/processor.go:58-72 | in every reachable state, a step that ends a run with nil leaves the row settled if and only if it is not a claim refused while the row is in processing |
| `Guarantees.RefusedIffNotYetStale` | internal/store/pg/store.go:191-202 | a claim is refused that way if and only if its answer arrives, the row is in processing and the time it carries is at most staleAfter past that of the last claim |
| `Guarantees.LastTerminalUpdateWins` | internal/store/pg/store.go:156-166 | in every run a row keeps the state, error and time of the last terminal update that matched it, whatever it was before and whatever else happens, unless a claimed run outlived its claim |
| `Traces.TerminalStatesOverwrite` | internal/store/pg/store.go:156-166 | in every usable configuration either terminal state can follow the other |
| `Traces.AcknowledgedYetProcessing` | internal/worker/processor.go:114-119 | that condition is needed: every usable configuration has an open-breaker run that ends acknowledged with the row in processing |
| `Guarantees.IdempotentCreation` | internal/service/notification.go:37-115 | of all calls for one tenant and key at most one has a row, one is charged and one has a job, and all successful replies name that one message |
| `Guarantees.NoJobWhenTurnedAway` | internal/service/notification.go:66-115 | a message that failed suppression, consent, the cap or its enqueue never has a job, a claim, a send or a worker, then or later, even if marking it fails too |
| `Guarantees.RejectedRowIsMarkedIffWritten` | internal/service/notification.go:72-104 | the row of a refused message takes its final state if and only if the mark takes effect, and stays queued otherwise; the caller hears "rejected" regardless, except when a suppression mark reports an error |
| `Invariant.EveryRun` | internal/worker/processor.go:40-218 | the invariant of the whole system holds after every run: index, caps, every call, every message's history, every worker |
| `Invariant.EventKeeps` | internal/store/pg/store.go:19-202 | each single event keeps the invariant |
| `Processor.Process` | internal/worker/processor.go:40-218 | one job asks for exactly what the step machine asks for, in order, and returns when and what the machine says |
| `Processor.QuestionsAreJustified` | internal/worker/processor.go:40-218 | every question of every run, by its own fields: the claim carries staleAfter (120 s if not set) and a message that still needs sending; at most three attempts, each behind a token if there is a limiter; each send goes to the number of the message read with its template rendered; each record carries the id, status and failure of the call before it; the provider id is that of a recorded 2xx, under "twilio" and submitted; each mark is failed with its reason; each sleep is 200 ms after an empty limiter, or 200, 600 or 1400 ms after a recorded timeout |
| `Processor.EndsForCause` | internal/worker/processor.go:40-218 | a run ends exactly with the answer to its last question, and only with one that ends it: nil for a suppressed, delivered, failed or already submitted message, a refused claim or a written 2xx, an error for each failed call, open breaker or mark; with the row above, the answers leave a run no choice |
| `Processor.SendWithRetries` | internal/worker/processor.go:95-217 | the loop of at most three attempts follows the machine from the first attempt to its end |
| `Processor.SendOnce` | internal/worker/processor.go:110-206 | one attempt follows the machine from the send to the end of the run or the next attempt |
| `Processor.AfterFailure` | internal/worker/processor.go:177-206 | a failed send is recorded, then given up or retried after its back-off, as the machine says |
| `Processor.SendsTheRenderedBody` | internal/worker/processor.go:74-112 | for all answers: the machine makes only attempts 0, 1 and 2, all with the number of the message that was read and its template, which is not empty, rendered |
| `Processor.SendsAndGivesUpForCause` | internal/worker/processor.go:95-217 | for all answers: with a limiter every send holds a token, and a row is given up only after a third attempt that slept or a recorded failure that was no timeout |
| `Processor.WritesTheProvidersId` | internal/worker/processor.go:136-159 | the machine comes to write a provider id only after its attempt was recorded, and it is the one of the 2xx reply |
| `Processor.ExhaustedIff` | internal/worker/processor.go:95-217 | for all answers: a run marks its row as exhausted if and only if it claims the message, has its template, and each of three attempts gets no token or times out and has that recorded |
| `Traces.EmptyLimiterFails` | internal/worker/processor.go:95-109 | every usable configuration with a limiter has a run in which no token is ever granted, nothing is sent, and the row ends as failed |
| `Processor.StatusNeverMatters` | internal/providers/twilio/client.go:81-99 | two runs whose answers differ only in the HTTP status of failed calls are always at the same place |
| `Processor.NilMeansSettledOrRefused` | internal/worker/processor.go:58-72 | nil is returned only if the row read needed nothing more, the claim was refused, or a send got a 2xx and both its writes reported success |
| `Service.CreateAndEnqueueSMS` | internal/service/notification.go:33-119 | one API call asks for exactly what the step machine asks for, with the number normalized, and replies what the machine says |
| `Service.QuestionsAreJustified` | internal/service/notification.go:33-119 | every question of every call, by its own fields: the lookups ask for the call's tenant and its key or normalized number; the row has the request's tenant, key, number, template, variables and campaign (NULL if empty), is queued and carries now twice; the cap is that of tenant, number and the 24 hours of now; the job carries this id and request; each mark has the state and text of the gate that refused |
| `Service.EndsForCause` | internal/service/notification.go:33-119 | a call ends exactly with the answer to its last question: existing if the key was found, created if the enqueue was accepted, rejected behind the marks of suppression, consent and cap, an error for each failed call, failed suppression mark or failed enqueue |
| `Service.ChargeAndEnqueue` | internal/service/notification.go:88-119 | the same for the last two gates, the cap and the enqueue |
| `Service.CreatedIffEveryGatePassed` | internal/service/notification.go:37-119 | a call is over after at most seven questions and answers "created" if and only if the key was new, the row inserted, the number neither suppressed nor without consent, the cap not reached and the enqueue accepted |
| `Service.NormalizePhoneIsIdempotent` | internal/util/util.go:11-15 | a normalized number has no blank inside and no space at its ends, and normalizing it again changes nothing |
| `Service.NormalizePhoneKeepsTheRest` | internal/util/util.go:11-15 | a normalized number keeps, in order, exactly the characters other than blanks that are left when spaces are cut off at both ends |
| `Serving.SendsWhatWasRequested` | internal/worker/processor.go:74-112 | in every run of the whole system, whatever a worker is about to send goes to the normalized number of the request that created its message, and is that request's template rendered with its variables |
| `Serving.RowsCarryTheirRequest` | internal/service/notification.go:44-57 | in every run every row has the tenant, key, normalized number, template, variables and campaign of the request that created it |
| `Serving.ApiStepServes` | internal/service/notification.go:33-119 | each step of a call in the system is its program's question, answered by the shared tables; a job is created exactly for an accepted enqueue that is not taken for a duplicate |
| `Serving.WorkStepServes` | internal/worker/processor.go:40-218 | each step of a worker in the system is its program's question, answered by the shared tables |
| `Serving.HistoryCounts` | internal/worker/processor.go:110-159 | each such step adds one to the sends, the 2xx answers or the claims of its own message exactly if its question was a send that reached the provider, a send answered 2xx or a claim that took effect |
| `Store.Store.FindMessageByIdempotency` | internal/store/pg/store.go:19-32 | finds the row of tenant and key with its state, and reports none only if there is none |
| `Store.Store.InsertMessage` | internal/store/pg/store.go:34-41 | inserts unless the id or the pair of tenant and key is taken; otherwise changes nothing and fails |
| `Store.Store.GetMessageForWorker` | internal/store/pg/store.go:57-70 | the tenant, number, template, variables and state of the row, and its provider id or an empty string; an error exactly if there is no such row |
| `Store.Store.MarkMessageState` | internal/store/pg/store.go:43-48 | sets state, error (NULL if empty) and time of the row if there is one, and nothing else |
| `Store.Store.SetProviderDetails` | internal/store/pg/store.go:50-55 | sets provider, provider id, state and time of the row if there is one, and nothing else |
| `Store.Store.ClaimMessage` | internal/store/pg/store.go:191-202 | succeeds exactly for a queued row or a processing row last updated before now - staleAfter; then the row is processing with time now; nothing else changes |
| `Store.Store.UpdateMessageByProviderMsgID` | internal/store/pg/store.go:156-166 | gives every row of that provider id the state, error and time, changes no other row, and reports whether there was one |
| `Store.Store.UpdateRows` | internal/store/pg/store.go:156-166 | the row-by-row loop of that statement equals its function and reports whether any row matched |
| `Store.Store.InsertAttempt` | internal/store/pg/store.go:72-80 | appends the attempt and changes nothing else |
| `Store.Store.InsertDeliveryEvent` | internal/store/pg/store.go:147-154 | appends the event and changes nothing else |
| `Store.Store.IncrementDailyCap` | internal/store/pg/store.go:110-145 | run alone, the transaction does nothing or exactly one test-and-increment of the row of tenant, number and UTC day; without error it allows if and only if the count was below MaxPerDay, adds one exactly then and reports the count; an error never allows; a failed undo commits nothing |
| `Tables.DayOfIs` | internal/store/pg/store.go:110-111 | a cap day is the 24 hours from one multiple of 86400 s to the next |
| `Tables.UpdatedRowTakesState` | internal/store/pg/store.go:156-166 | a row of that provider id exists before the update if and only if afterwards one has the new state, error and time |
| `CapTransaction.RefinesTestAndIncrement` | internal/store/pg/store.go:110-145 | with any number of transactions interleaved under the row lock, every step leaves the counts alone or is one atomic test-and-increment, and every call that returns without error gives the answer of its own such step |
| `CapTransaction.CountsInCommitOrder` | internal/store/pg/store.go:129-145 | the committed count is the number of admissions and at most max(0, MaxPerDay); the call told count k is the k-th admission in commit order, and no two are told the same |
| `CapTransaction.FailedUndoCommitsNothing` | internal/store/pg/store.go:130-145 | in every run, a transaction whose undo failed is never among the admissions that make up a count, then or later, and never ends without an error |
| `Template.RenderTemplate` | internal/util/util.go:18-24 | the loop computes the successive replacements in the order the map is visited |
| `Confluence.ConfluentIffNotNested` | internal/util/util.go:18-24 | all visiting orders of all brace-free variables give the same text if and only if no pair of braces of the body has complete placeholders inside it |
| `Confluence.RenderIsSubstitution` | internal/util/util.go:18-24 | without such nesting, whatever the order, the result is one simultaneous left-to-right substitution that leaves unknown placeholders alone |
| `Confluence.DisagreeingOrders` | internal/util/util.go:18-24 | with nesting, brace-free variables and two orders with different results are constructed |
| `Confluence.NestedIsDoublyOpen` | internal/util/util.go:18-24 | a body that never has two opening braces without a closing one between them has no nesting |
| `Confluence.BracesInValuesMatter` | internal/util/util.go:18-24 | with a brace in a value the order matters even for the body "{a}" |
| `WorkerPool.EveryMessageIsSomewhere` | internal/queue/sqs/consumer.go:72-161 | in every run each received message is in exactly one of producer's hand, channel (at most 2 * workers, and the producer is held up only then), a worker, finished, or dropped; each finished one has had its deletion attempted, exactly once, if it was undecodable or its handler returned nil in that run, and never otherwise |
| `WorkerPool.WorkDecreases` | internal/queue/sqs/consumer.go:117-161 | after cancellation every step, whoever takes it, leaves strictly less to do |
| `WorkerPool.NeverStuck` | internal/queue/sqs/consumer.go:117-161 | after cancellation some step is possible until the call has returned |
| `WorkerPool.ShutdownCompletes` | internal/queue/sqs/consumer.go:117-161 | after cancellation at most so many steps follow, and where none is possible the call has returned, all workers are gone, the channel is empty and every message is finished or dropped |
| `Reconciler.LastTerminal` | deploy/k8s/jobs/sql/reconcile-submitted.sql:6-16 | one entry for each provider message with a terminal event, namely a latest one |
| `Reconciler.SelectFixes` | deploy/k8s/jobs/sql/reconcile-submitted.sql:6-34 | selects as many eligible rows as there are up to the limit, each with its deciding event, none newer left out |
| `Reconciler.TakeNewest` | deploy/k8s/jobs/sql/reconcile-submitted.sql:33-34 | takes the newest entries up to the limit |
| `Reconciler.Newest` | deploy/k8s/jobs/sql/reconcile-submitted.sql:33-33 | finds an entry no other is newer than |
| `Reconciler.UpdateRows` | deploy/k8s/jobs/sql/reconcile-submitted.sql:35-43 | each selected row becomes delivered if its event says "delivered" and failed otherwise, takes the error of the event (NULL if empty) and the time, and no other row changes |
| `Reconciler.Reconcile` | deploy/k8s/jobs/sql/reconcile-submitted.sql:6-43 | one run selects a batch of at most 50000 and updates exactly it, as the next row says |
| `Reconciler.ReconcileMeans` | deploy/k8s/jobs/sql/reconcile-submitted.sql:6-43 | one run without the model's names: at most 50000 rows change, each of them submitted, older than 10 s and with an event "delivered", "failed" or "undelivered" of its provider message; it becomes delivered if a latest such event says "delivered" and failed otherwise, with that event's error; a row of this kind is left out only if 50000 others were taken, none for an older event |
| `Reconciler.IsSystemEvent` | deploy/k8s/jobs/sql/reconcile-submitted.sql:35-43 | a run is one of the reconciler events of the whole system, so all guarantees above hold with it |
| `Reconciler.AgreesIffUnanimous` | internal/httpserver/webhook.go:60-66 | for a row that some batch fixes: every possible batch gives it the state and error that the webhook would have left, applied to its terminal events in any order they may have been received, if and only if its latest terminal events stand for one state and error |
| `Reconciler.AgreesWithWebhook` | deploy/k8s/jobs/sql/reconcile-submitted.sql:6-43 | the agreement for one batch and one order |
| `Reconciler.DistinctTimesAreUnanimous` | deploy/k8s/jobs/sql/reconcile-submitted.sql:6-16 | the latest terminal events of a row stand for one state and error in particular when no two different ones of its provider message were received at the same time |
| `Reconciler.TiesDisagree` | deploy/k8s/jobs/sql/reconcile-submitted.sql:6-16 | if two latest events differ, a batch and an order listing each event once are constructed that disagree |
| `Reconciler.LeftAfter` | deploy/k8s/jobs/sql/reconcile-submitted.sql:17-34 | after k runs on a frozen event table exactly max(0, n - k * limit) of the n eligible rows are left, and only eligible rows changed, each as a deciding event says |
| `Reconciler.BatchesReachTheFixpoint` | deploy/k8s/jobs/sql/reconcile-submitted.sql:17-43 | once k * limit covers the n eligible rows, a further run selects nothing and changes nothing |
| `Reconciler.CeilDiv` | deploy/k8s/jobs/sql/reconcile-submitted.sql:34-34 | k runs cover n rows if and only if k is at least n divided by the limit, rounded up |
| `Reconciler.BatchesEqualOnePass` | deploy/k8s/jobs/sql/reconcile-submitted.sql:17-43 | then a row has the state and error that every possible unlimited pass gives it, if and only if it was not eligible or its latest terminal events stand for one state and error |
| `Webhook.CallbackIsHealed` | internal/httpserver/webhook.go:102-177 | once the insert of a terminal callback has succeeded in direct mode, whatever its ten updates and everything else in the system then do, a row of its provider message that is found stuck gets, by enough reconciler runs on events that stand still, the state of its latest terminal event |
| `Webhook.StoredForGood` | internal/httpserver/webhook.go:102-118 | after that insert the event is in the table and stays there through any further events, whatever the run answers |
| `Reconciler.EnoughRunsHeal` | deploy/k8s/jobs/sql/reconcile-submitted.sql:6-43 | a terminal event in the table heals the stuck rows of its provider message in as many runs as it takes to cover the eligible rows |
| `Reconciler.TiesLeaveAChoice` | deploy/k8s/jobs/sql/reconcile-submitted.sql:6-16 | without distinct times two runs may decide differently: both verdicts are possible results |
| `Webhook.HandleTwilioStatus` | internal/httpserver/webhook.go:44-178 | a bad form gives 400 and a bad signature 401, and neither asks for anything; otherwise the handler follows its step machine, in either mode, for the sid, status and error code of the form, and answers the machine's status |
| `Webhook.HandledAsSaid` | internal/httpserver/webhook.go:44-178 | every whole run, by its own questions: 500 without queue or store; in queue mode one enqueue of the callback, then 200 or 503; in direct mode the insert of the callback with its error (NULL if empty), and for "delivered" (to delivered), "failed" and "undelivered" (to failed) only, updates with 25, 50, ... 250 ms behind them, going on for as long as nothing fails and no row is found; 503 for a timeout, a cut-off wait or ten tries, 500 for other failures, 200 otherwise |
| `Webhook.UpdateWithRetries` | internal/httpserver/webhook.go:129-177 | the loop of at most ten updates follows the machine to its end |
| `Webhook.ProcessWebhookEvent` | cmd/webhook-processor/main.go:136-176 | the queue processor follows its step machine: update first, then store the event |
| `Webhook.ProcessedAsSaid` | cmd/webhook-processor/main.go:136-176 | every whole run of the queue processor, by its own questions: "delivered" updates to delivered, "failed" and "undelivered" to failed, and the event is stored only if that found a row; any other status only stores; nil exactly if all of it succeeded |
| `Webhook.DirectSuccess` | internal/httpserver/webhook.go:92-177 | with any other traffic in between, a 200 in direct mode means that the event is stored and that after a later update some row of the provider message is delivered, for "delivered", or failed, for "failed" and "undelivered", with the error of the callback |
| `Webhook.QueuedSuccess` | cmd/webhook-processor/main.go:136-176 | nil means the event is stored and that some row took delivered, for "delivered", or failed, for "failed" and "undelivered", with the error of the callback before |
| `Webhook.DirectIsBounded` | internal/httpserver/webhook.go:129-157 | a direct callback asks at most 21 questions and sleeps at most 1.375 s |
| `Webhook.NoRowMeansTenTries` | internal/httpserver/webhook.go:129-177 | when no call fails, a 503 means exactly ten updates and ten waits of 1.375 s in all |
| `Webhook.DirectRunIs` | internal/httpserver/webhook.go:102-177 | a direct run that is alone on the tables and meets no failure stores the event and updates whatever rows there are, even if all ten updates match nothing, and answers 200 if and only if there was nothing to update or a row was found, and 503 otherwise |
| `Webhook.ModesMean` | internal/httpserver/webhook.go:60-66 | what either mode amounts to, row by row: "delivered" makes the rows of the provider message delivered, "failed" and "undelivered" make them failed, with the error and time; any other status changes no row, and no other row changes |
| `Webhook.QueuedRunIs` | cmd/webhook-processor/main.go:136-176 | such a run of the queue processor updates, stores and returns nil in the same case, and otherwise changes nothing and returns an error |
| `Webhook.CanBeHandled` | internal/httpserver/webhook.go:44-178 | from any tables every callback has such a run in either mode |
| `Webhook.ModesAgreeIffFound` | internal/httpserver/webhook.go:102-177 | when the two programs handle the same callbacks one at a time and without failures, they leave equal tables up to payloads and timestamps if and only if every terminal callback finds its row |
| `Webhook.RowsCompared` | internal/httpserver/webhook.go:102-177 | the message rows agree after each callback, found or not |
| `Webhook.EventsCompared` | cmd/webhook-processor/main.go:136-176 | the stored events agree if every terminal callback finds its row, and queue mode stores fewer otherwise |
| `MockProvider.RetryBackoff` | cmd/mock-provider/main.go:384-417 | the assignments, wrapped to 64 bits, give a back-off within the jittered range while nothing overflows, and none from attempt 64 on |
| `MockProvider.BackoffWithinJitter` | cmd/mock-provider/main.go:384-417 | while the product and the longest wait fit 64 bits, every back-off lies within w plus or minus floor(w * jp / 100) for w = min(base * 2^attempt, max), and is not negative, even if the share of the jitter overflows |
| `MockProvider.BackoffMeans` | cmd/mock-provider/main.go:384-417 | that range in plain numbers: 250 ms and 10 s where base and cap are not set, the percentage kept between 0 and 100 |
| `MockProvider.DefaultSchedule` | cmd/mock-provider/main.go:384-399 | with everything left unset the back-offs are 0.25, 0.5, 1, 2, 4 and 8 s and then 10 s up to the 36th |
| `MockProvider.EveryJitterIsDrawn` | cmd/mock-provider/main.go:405-416 | and if that share fits too, each value of the range is drawn by some state of the generator |
| `MockProvider.UnjitteredIffProductHolds` | cmd/mock-provider/main.go:396-399 | without jitter the back-off is min(base * 2^attempt, max) if and only if the product is below 2^63, or its residue modulo 2^64 is at least max and below 2^63 |
| `MockProvider.InRangeIff` | cmd/mock-provider/main.go:384-417 | whatever the jitter: all draws keep to that range if and only if the product is not negative in 64 bits and the capped residue with its share neither falls short of the range nor leaves 64 bits |
| `MockProvider.InRangeIffResidue` | cmd/mock-provider/main.go:384-417 | for caps of at most 2.9 years that is: the product fits, or its residue is below 2^63 and, capped, has the same shortest wait as the cap |
| `MockProvider.SomeDrawIsNegativeIff` | cmd/mock-provider/main.go:384-417 | whatever the jitter: some draw gives a negative back-off if and only if the product is negative in 64 bits or the capped residue and its share together leave them |
| `MockProvider.NegativeIffProductIs` | cmd/mock-provider/main.go:384-417 | for caps of at most 146 years, whatever the jitter and the draw: the back-off is negative if and only if the product is negative in 64 bits |
| `MockProvider.NegativeProductIsNegative` | cmd/mock-provider/main.go:384-417 | whatever the cap, the jitter and the draw, a product that is negative in 64 bits gives a negative back-off |
| `MockProvider.FirstOverflowIsNegative` | cmd/mock-provider/main.go:396-399 | for every base, cap, jitter and draw, the first product beyond 64 bits gives a negative back-off |
| `MockProvider.LateBackoffIsZero` | cmd/mock-provider/main.go:384-417 | for every configuration, jitter and draw, the back-off is zero from attempt 64 on |
| `Posting.PauseIsAsked` | cmd/mock-provider/main.go:335-379 | a whole run whose posts 0 to k fail in a way worth retrying, with a retry left, makes them all and sleeps for the pause of attempt k |
| `MockProvider.NegativePauseIsAsked` | cmd/mock-provider/main.go:370-378 | so a run of the sender, whatever the jitter, sleeps for the negative back-off if it has more retries than the attempt of the first overflow, its posts up to there fail in a way worth retrying and the last of them asks for no delay |
| `MockProvider.DefaultBaseSleepsNegative` | cmd/mock-provider/main.go:384-399 | with the default base, whatever cap, jitter and draws, that is the 37th pause of every such run with at least 37 retries |
| `MockProvider.TotalBelowCap` | cmd/mock-provider/main.go:384-399 | up to the cap the first n back-offs, as computed, add up to base * (2^n - 1) |
| `MockProvider.TotalAboveCap` | cmd/mock-provider/main.go:384-399 | from the first capped one on, the computed total grows by the cap each time if and only if the last product still fits 64 bits, and is behind for good afterwards |
| `MockProvider.TotalStandsStill` | cmd/mock-provider/main.go:384-399 | from attempt 64 on the computed total no longer grows |
| `MockProvider.DelaySecondsAreRead` | cmd/mock-provider/main.go:428-439 | the delay-seconds form of section 10.2.3 of RFC 9110, with leading zeros, a plus sign and outer spaces allowed, is read as that many seconds, in 64 bits |
| `MockProvider.OthersAreIgnored` | cmd/mock-provider/main.go:428-439 | any value that is not of that form, once trimmed, asks for no delay |
| `MockProvider.DelayIffSeconds` | cmd/mock-provider/main.go:428-439 | while its number fits, a value asks for n > 0 seconds if and only if, trimmed, it is n in that form |
| `MockProvider.PrintedAndDates` | cmd/mock-provider/main.go:428-439 | a number as printed is of that form, and a value with anything but digits behind its first character, such as a date, asks for no delay |
| `Posting.PostWithRetries` | cmd/mock-provider/main.go:329-382 | between 1 and max(MaxRetries + 1, 1) posts, each but the last failed in a way worth retrying and followed by its pause; success exactly after a 2xx; giving up only at the last attempt or on an answer not worth retrying; the return behind the loop is never reached |
| `Posting.RunMeans` | cmd/mock-provider/main.go:329-382 | such a run in plain numbers: posts and sleeps alternate; each post but the last failed with a transport error, 429, 500, 502, 503 or 504; giving up means no retry was left or the status was none of these |
| `MockProvider.PostWebhookWithRetry` | cmd/mock-provider/main.go:329-382 | the same with the pauses of the sender: the delay the answer asks for, or else the back-off of that attempt |
| `MockProvider.PauseMeans` | cmd/mock-provider/main.go:370-378 | the pause is n seconds if the answer asks for n > 0 seconds, and the back-off of that attempt if it asks for none |
| `MockProvider.PickWeighted` | cmd/mock-provider/main.go:641-661 | with positive weights and r in [0, 1] the item is the one whose cumulative interval contains r * total, so the fallback is not needed; also the answers for no items and for no weight |
| `MockProvider.ShareIsItsWeight` | cmd/mock-provider/main.go:641-661 | above zero, an item's interval is as long as its weight and starts where the weights of those before it add up |
| `MockProvider.SharesPartition` | cmd/mock-provider/main.go:641-661 | no target is in two items' intervals |
| `QueueGroups.BucketInRange` | internal/queue/sqs/producer.go:54-62 | the id exists unless the count is a positive multiple of 2^32, which is a division by zero, and then names a bucket below the count |
| `QueueGroups.BucketIs` | internal/queue/sqs/producer.go:54-62 | the id is the tenant, ":b" and the hash modulo the bucket count, or modulo 2000 if that is not set, in decimal |
| `Text.ValueIsPositional` | internal/queue/sqs/producer.go:61-61 | decimal numbers are positional, base ten, in the digits 0 to 9 |
| `QueueGroups.GroupIdIsInjective` | internal/queue/sqs/producer.go:54-62 | the printed id determines tenant and bucket, even for tenants whose names contain ":b" and digits |
| `Signature.SortStrings` | internal/providers/twilio/webhook.go:14-18 | sorts in place: ordered, and the same strings equally often |
| `Signature.SortedIsUnique` | internal/providers/twilio/webhook.go:14-18 | only one ordered sequence has given elements |
| `Signature.Written` | internal/providers/twilio/webhook.go:20-26 | the loop writes the URL followed by key and first value of each key in turn |
| `Signature.Canonical` | internal/providers/twilio/webhook.go:13-26 | the text is the URL followed by one part for each key in order: the key with its first value, or the key alone if it has none |
| `Signature.AtMostMeans` | internal/providers/twilio/webhook.go:18-18 | the order of keys: a prefix comes first, otherwise the first character that differs decides |
| `Signature.PairsAreParts` | internal/providers/twilio/webhook.go:20-26 | what is written for any keys is the concatenation of such parts |
| `Signature.JoinedIsConcatenation` | internal/providers/twilio/webhook.go:20-26 | nothing is added, left out or reordered between the parts |
| `Signature.OneValueMatters` | internal/providers/twilio/webhook.go:20-26 | two forms with the same keys whose first values differ at exactly one of them are written differently |
| `Signature.TwoDifferencesMayCancel` | internal/providers/twilio/webhook.go:20-26 | one key is all that can be promised: keys and values have nothing between them, and two forms that differ at two keys are given that are written alike |
| `Signature.Sign` | cmd/mock-provider/main.go:559-576 | the signature depends on the set of keys only, not on the order in which the map is visited |
| `Signature.VerifySignature` | internal/providers/twilio/webhook.go:12-34 | accepts exactly the signature of the sorted text |
| `Signature.SignThenVerify` | internal/providers/twilio/webhook.go:12-34 | a signature of the mock always verifies for the same token, URL and form, whatever the two visiting orders |
| `Signature.SignThenAlter` | internal/providers/twilio/webhook.go:12-34 | the signature of a form is accepted for one with another first value at one key only if the mac gives two texts the same value |
| `Signature.SignThenReroute` | internal/providers/twilio/webhook.go:12-34 | and for another URL only in the same case |

## Left out

* HTTP servers, routing, JSON, logging, metrics, health checks and configuration: no invariant of theirs.
* The queue, database, breaker and limiter libraries beyond their contract: at-least-once delivery, one atomic statement, open or closed, a wait of at most 2 s.
* HMAC, SHA-1, base64 and FNV are uninterpreted: any function of token and text, any 32-bit hash.
* `Poll` (the consumer without workers) and `internal/queue/sqs/webhook_events.go`: the same loop and the same pool as the one proved.
* The order of jobs within one queue group: one batch can hand jobs of a group to different workers, so the code does not keep it.
* 64-bit arithmetic outside `MockProvider`: times and counts are unbounded integers; the number of retries of `PostWebhookWithRetry` is below 2^63 - 1.
* Floating point in `pickWeighted`: weights are real numbers.
* Rounding of timestamps to microseconds in the database, the foreign key of `provider_attempts`, and the columns of `provider_attempts` that carry latency and raw responses.
* The tables behind `IsSuppressed`, `IsOptedIn` and `GetMessage`: their answers are arbitrary.
* The mock's outcome table, request parsing and round robin, whose counter is shared with the message ids.
* The state after a run of the reconciler on a table that callbacks are changing: the batch theorems freeze the events, while the guarantees of the whole system hold with runs at any moment.
