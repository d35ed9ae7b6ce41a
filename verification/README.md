# NADITOS in Dafny

The Go services of the platform are, at their core, short Postgres transactions that move rows between states.
This project models those transactions and proves what they keep, over every run and every interleaving.

Each module has the same shape. A state holds the tables a service touches. Every transaction is a function from
state to state, and a class whose fields are those tables has one method per Go function, with the Go function's
branches and loops in its order; the method is proved to compute the function. A run is a sequence of steps:
transactions of any number of replicas, crashes, aborts and clock ticks. The theorems speak about runs.

| file | what it models |
|---|---|
| `AuditJson.dfy`, `AuditChain.dfy` | the hash-chained audit log and the JSON documents it hashes, before and after JSONB |
| `OutboxRelay.dfy`, `OutboxConsumer.dfy` | delivery of outbox events by row-locking relays and by offset consumers |
| `RetryQueue.dfy`, `AnprPipeline.dfy` | the retry queue with backoff and dead letters; the plate-scan worker |
| `VehicleTransfers.dfy` | transfer of a vehicle's title between citizens by code |
| `FineRecords.dfy`, `Fines.dfy`, `Escalation.dfy` | the life of a fine: issue, payment, webhook, dispute, cancellation, escalation |
| `FineDisputes.dfy`, `FinePayments.dfy`, `FineDuplicates.dfy` | what the handlers keep about disputes, payments and duplicates |
| `EvidenceReaper.dfy` | deletion and sealing of evidence past its retention deadline |
| `Demerits.dfy` | the demerit ledger, automatic and manual suspensions and the cached flag |
| `Base64.dfy`, `LicenceToken.dfy` | the signed token an officer scans |
| `Rollup.dfy` | daily officer statistics, z-scores and anomaly alerts |

`Prelude.dfy` holds the option type. `dafny verify dfyconfig.toml` checks everything.

Hash, HMAC, JSON codec of the token, calendar, address and uuid text forms, float rounding, provider answers and
plate normalization are parameters. Nothing assumes that the hash is injective: a theorem that needs it returns two
inputs with the same hash as the alternative.

## Where the code does not do what it is documented to do

The model follows the code. The theorems in brackets give a failing run and the exact condition.

- A row the audit log accepted can be reported as tampered: a negative zero keeps its sign in Go and loses it in
  JSONB, and a number outside the float range is hashed as written but comes back in plain notation
  (`NegativeZeroBreaks`, `OverflowWithExponentBreaks`). Verification succeeds exactly when every accepted event was
  stable (`VerifiesExactly`).
- Removing the newest audit row leaves a chain that verifies (`RemovedRow`).
- The queue calls itself at-least-once, but a claimed job has no lease: a job is stuck exactly when the worker that held
  it died (`OneCrashStrands`, `StuckMeansCrashed`).
- The webhook's "same intent twice is a no-op" needs every payment row to have its own reference. `handlePay` sends
  one idempotency key per fine, so a provider may answer twice with one intent (`RepeatedIntentBreaksConservation`);
  payments stay conserved exactly when every acting webhook settles one row (`ConservedExactly`). A webhook ignored
  because the fine was paid acts when it is replayed after a cancellation (`IgnoredWebhookActsLater`); replays are
  harmless exactly when the row is settled (`ReplayNeedsSettled`).
- Escalation re-reads only the stage under its lock, so a payment or dispute between query and advance is overwritten
  (`StaleAdvanceReopensPaidFine`, `SecondDispute`). A terminal status survives exactly when no replica holds a live
  candidate for the fine (`TerminalSurvives`), and disputes stay consistent exactly when no advance overrides one
  (`DisputesExactly`).
- Sweeping often equals sweeping once exactly on ladders without an unknown action above a known one
  (`ScheduleIndependence`).
- The duplicate gate is checked at issue time only. Two uncancelled duplicates appear exactly when a step takes a
  cancelled fine out of that status beside a duplicate (`DuplicateGate`), for instance by rejecting its dispute, by a
  late payment or by a stale advance (`RejectedDisputeRevivesDuplicate`, `LatePaymentRevivesDuplicate`,
  `StaleAdvanceRevivesDuplicate`).
- The reaper's result is documented as rows sealed. Concurrent sweeps count a row twice, and a sweep that dies returns
  nothing (`BothCount`, `CrashLosesCount`); `CountsConserved` is the exact balance.
- The reaper deletes from the list its query gave it, so it can destroy evidence that is no longer due: a legal hold
  set after the query is not seen (`LateHoldIgnored`), nor that the fine went to court (`CourtEvidenceDestroyed`). As
  long as nothing concerns a row, it is deleted only while it is due exactly when no replica has it still to delete
  although it is not due (`DestroysOnlyDue`); a hold protects the tenant exactly when no replica still has one of its
  rows to delete (`HoldProtects`).
- The demerit engine has no replay guard (`ReplayCountsAgain`) and does not count an open-ended suspension: a driver is
  suspended twice exactly beside such a one (`DoublySuspended`, `BesideOpenEnded`).

Three comments differ from the code without a theorem: the consumer's tick takes no `FOR UPDATE` lock (the model has
one live replica per name); the plate pipeline fails a job at five attempts, not after more than five, and compares no
locations; and escalation sets `warned` for a warning where its comment keeps the status.

## Model

| member | source | states |
|---|---|---|
| AuditJson.StoredValue | services/audit/internal/api/api.go:310-330 | The JSONB round trip of an in-range document decodes in Go to the same value if and only if no negative zero survives in it (repeated keys dropped, keys reordered, numbers reprinted). |
| AuditJson.StoredValueMembers | services/audit/internal/api/api.go:310-330 | For objects: storing keeps exactly the keys, and the decoded map is the same exactly when each surviving member's is; key order and shadowed duplicates do not matter. |
| AuditJson.DocSurvives | services/audit/internal/api/api.go:295-323 | What the service hashes for a document is the same before and after the database if and only if the document is stable. |
| AuditJson.OverflowWithExponentBreaks | services/audit/internal/api/api.go:314-317 | A document with a number beyond the float range that uses exponent notation anywhere never survives. |
| AuditJson.NegativeZeroBreaks | services/audit/internal/api/api.go:314-322 | Concrete accepted document, an object holding -0, whose hashed form changes in the database. |
| AuditJson.MagnitudeMeans | services/audit/internal/api/api.go:310-323 | A literal is worth its digits, a tenth for every digit behind the point and ten times as much for every step of the exponent. |
| AuditJson.GoValueMeans | services/audit/internal/api/api.go:310-323 | Go's decoder tells two in-range documents apart exactly when they differ in more than how numbers are written, the order of members, and members shadowed by a later one with the same key. |
| AuditJson.NormalizeMeans | services/audit/internal/api/api.go:310-330 | Two documents are hashed alike if and only if both are absent, or both in range and the same to the decoder, or both out of range and the same text. |
| AuditJson.StoredOrder | services/audit/internal/api/api.go:310-323 | A stored object holds each key once, shorter keys first and equal lengths by the first differing character. |
| AuditChain.MarshalShape | services/audit/internal/api/api.go:69-82 | Canonical bytes start with '{' and carry ':' at byte 32, inside the timestamp. |
| AuditChain.CanonCovers | services/audit/internal/api/api.go:69-82 | Two events have one canonical form if and only if they agree in the millisecond, tenant, actor columns, service, action, resource columns and normalized documents. |
| AuditChain.MarshalShows | services/audit/internal/api/api.go:69-82 | Canonical bytes exist exactly for four-digit years; their timestamp then reads, digit by digit, as the event's year, month, day, hour, minute and second. |
| AuditChain.TruncationComposes | services/audit/internal/api/api.go:304 | Cutting an instant to the column's microseconds and then to milliseconds is cutting it to milliseconds, also before 1970. |
| AuditChain.ReadBackCanon | services/audit/internal/api/api.go:133-148 | The event the verifier reads has the canonical form of the event that was written if and only if uuid, address and both documents were in database form. |
| AuditChain.AuditLog.Write | services/audit/internal/api/api.go:84-162 | One accepted request appends one row linked to the tenant's last hash; a rejected one, for missing fields or a failed cast or print, appends nothing. |
| AuditChain.AuditLog.Verify | services/audit/internal/api/api.go:224-293 | The verdict is exact: intact means the whole chain is valid; otherwise `checked` rows form the longest valid prefix and the reported id is the first row whose link or hash is wrong. |
| AuditChain.WriteStores | services/audit/internal/api/api.go:90-149 | An accepted write adds one row with the next number: the columns sent, time cut to microseconds, a missing time or address filled in, typed columns in the database's form, no required column empty. |
| AuditChain.AcceptedExactly | services/audit/internal/api/api.go:90-153 | A write is accepted unless a required column is missing, the database rejects user or address, or the year does not have four digits; otherwise the table is unchanged. |
| AuditChain.WriteExtends | services/audit/internal/api/api.go:115-154 | A write leaves other tenants' chains alone and keeps its own valid exactly when stored and sent event hash alike. |
| AuditChain.WriteThenVerify | services/audit/internal/api/api.go:84-292 | After any writes interleaved over tenants, with stable events, every tenant's chain is valid and has one row per accepted write of that tenant. |
| AuditChain.VerifyMeansStable | services/audit/internal/api/api.go:224-308 | Conversely, if every tenant's chain verifies then every accepted event was stable, or two inputs collide; of the printer this asks only that an event and its read-back with the same bytes have the same canonical form. |
| AuditChain.VerifiesExactly | services/audit/internal/api/api.go:84-308 | After any writes, every tenant's chain verifies if and only if every accepted event was stable, or two inputs collide. |
| AuditChain.DomainSeparation | services/audit/internal/api/api.go:125-130 | A first row and a chained row never hash the same bytes. |
| AuditChain.EqualHeads | services/audit/internal/api/api.go:253-291 | Two valid chains of any lengths with equal last hashes have the same rows, hashes and canonical bytes, or two inputs collide. |
| AuditChain.TamperedRow | services/audit/internal/api/api.go:253-275 | A row changed in its millisecond, tenant, actor, service, action, resource or documents is reported at that row if the printer tells the two forms apart, or two inputs collide; a change in nothing of that kind leaves the chain valid. |
| AuditChain.NoRepeatedHead | services/audit/internal/api/api.go:253-291 | No two positions of a valid chain carry the same hash, or two inputs collide. |
| AuditChain.RemovedRow | services/audit/internal/api/api.go:274-288 | Removing a row is reported at its successor if and only if it has one, or two inputs collide. |
| OutboxConsumer.Consumer.OnlyTypes | packages/go-common/events/consumer.go:73-78 | Adds exactly the given types to the allow-list. |
| OutboxConsumer.Consumer.Tick | packages/go-common/events/consumer.go:97-173 | Sends the allowed, parsable rows of the next batch in order up to the crash, if any, and moves the offset to the batch's last id only when it completes. |
| OutboxConsumer.TickMoves | packages/go-common/events/consumer.go:120-141 | The batch is the piece of the log right behind the offset, full unless the log ends, and only a completed tick moves the position, to the batch's end. |
| OutboxConsumer.TickHandsOn | packages/go-common/events/consumer.go:120-162 | A tick hands on, each once and in id order, exactly the next rows that parse and are wanted: a batch at most, and only those handled before the crash. |
| OutboxConsumer.ConsumerRefinesLog | packages/go-common/events/consumer.go:97-173 | On every run of appends, ticks and k crashes: no allowed row at or below the offset was missed, nothing else was sent, each row was sent at most k times plus once, the total is at most rows passed plus k batches, and without crashes the dispatches are the filtered log in order. |
| OutboxConsumer.DispatchedExactly | packages/go-common/events/consumer.go:142-172 | On every run: of the rows at or below the offset, an unfiltered consumer has dispatched exactly those that parse, a filtered one exactly those that also have one of its types; nothing else was dispatched. |
| OutboxConsumer.OffsetNeverFalls | packages/go-common/events/consumer.go:168-172 | On every run the offset never falls. |
| OutboxConsumer.DrainTime | packages/go-common/events/consumer.go:120-172 | m completed ticks reduce the pending rows by exactly m batches, or to none. |
| OutboxRelay.FreeRows | packages/go-common/events/outbox.go:101-105 | The query returns, in order, undelivered rows no other replica has locked, at most n of them, and skips one only when n earlier ones were taken. |
| OutboxRelay.Relay.WriteOutbox | packages/go-common/events/outbox.go:30-39 | Appends one undelivered row and nothing else. |
| OutboxRelay.Relay.Attempt | packages/go-common/events/outbox.go:125-143 | One row of the loop: published and marked when it parses and the bus accepts it, counted as a failed attempt otherwise; the table itself changes at commit. |
| OutboxRelay.Relay.Tick | packages/go-common/events/outbox.go:86-145 | The whole tick, ended early or not, is the protocol's begin, handles, and commit or rollback. |
| OutboxRelay.TickIsRun | packages/go-common/events/outbox.go:86-145 | Every tick is a legal run of protocol steps, so the run theorems apply to it. |
| OutboxRelay.StepKeeps | packages/go-common/events/outbox.go:101-144 | Every step of any replica keeps: locked batches disjoint and undelivered, and every publish of a row accounted for by its delivery, one live tick, or a rolled-back one. |
| OutboxRelay.RowChanges | packages/go-common/events/outbox.go:120-145 | A stored row changes only when a tick that holds it commits: delivered if that tick published it, one more attempt if not. |
| OutboxRelay.PublishedParses | packages/go-common/events/outbox.go:123-137 | On every run only rows whose envelope parses reach the bus. |
| OutboxRelay.RelaySafety | packages/go-common/events/outbox.go:58-60 | For any replicas and aborts: batches disjoint, a delivered row was published, and a row is published at most once more than there were rolled-back ticks that published it. |
| OutboxRelay.DeliveredIsFinal | packages/go-common/events/outbox.go:139-144 | Once a tick that published a row commits, the row is never published again. |
| OutboxRelay.SoleTick | packages/go-common/events/outbox.go:101-144 | Alone, a committed tick delivers exactly the healthy rows among the first n undelivered and adds an attempt to the failing ones. |
| OutboxRelay.SoleRelayProgress | packages/go-common/events/outbox.go:101-144 | Alone, a tick shrinks the healthy undelivered rows if and only if one of them is among the first n, which fewer than n permanently failing rows guarantee. |
| RetryQueue.SomeNextDue | packages/go-common/connectors/retry.go:86-91 | Whenever a job of the module is due there is one with the earliest next run. |
| RetryQueue.Queue.Enqueue | packages/go-common/connectors/retry.go:33-55 | Appends a queued job with zero attempts, with five attempts allowed when the caller asks for none. |
| RetryQueue.Queue.Claim | packages/go-common/connectors/retry.go:70-105 | Returns nothing exactly when nothing is due; otherwise marks a due job with the earliest next run as running. |
| RetryQueue.Queue.Report | packages/go-common/connectors/retry.go:109-147 | Marks the job done, reschedules it after its backoff, or dead-letters it on its last attempt. |
| RetryQueue.ClaimMeans | packages/go-common/connectors/retry.go:70-105 | A worker that is free can be handed exactly a queued job of its bucket whose time has come and before which no queued job of the bucket comes; there is one if and only if any queued job of the bucket has come up. |
| RetryQueue.ReportMeans | packages/go-common/connectors/retry.go:109-162 | Success ends the job; a failure counts, makes the job dead at its limit and otherwise queues it after 30 seconds, 2, 8, 30 minutes, then 2 hours. |
| RetryQueue.BackoffClosedForm | packages/go-common/connectors/retry.go:149-162 | The summed backoff before the claim after k failures: 0, 30, 150, 630, then 2430 plus two hours for each further failure. |
| RetryQueue.OneWorkerPerJob | packages/go-common/connectors/retry.go:70-105 | On every run with crashing workers a job is held by at most one worker, and a held job is running, with an attempt left and one claim more than it has reports. |
| RetryQueue.ClaimsBounded | packages/go-common/connectors/retry.go:131-135 | A job is claimed at most `max` times, is dead exactly when its attempts are used up, and its k-th claim is no earlier than creation plus the backoffs before it. |
| RetryQueue.RetriesOnTime | packages/go-common/connectors/retry.go:85-147 | On every run attempts are failures, a retry comes no sooner than its failure and the backoff after it, and a queued job runs next at exactly that moment. |
| RetryQueue.QueueDrains | packages/go-common/connectors/retry.go:70-147 | Without new jobs, claims and reports together are bounded by the work left at the start. |
| RetryQueue.CrashedJobIsLost | packages/go-common/connectors/retry.go:85-105 | A running job that no live worker holds never changes again. |
| RetryQueue.StuckMeansCrashed | packages/go-common/connectors/retry.go:85-105 | On every run a job is running without a holder if and only if the worker that held it died. |
| RetryQueue.OneCrashStrands | packages/go-common/connectors/retry.go:14-21 | Concrete run: one job, claimed once, whose worker dies. |
| AnprPipeline.Worker.ClaimOldest | services/anpr-gateway/internal/pipeline/pipeline.go:95-119 | Claims the first queued job and counts the attempt, or finds that none is queued. |
| AnprPipeline.Worker.ProcessJob | services/anpr-gateway/internal/pipeline/pipeline.go:154-243 | One scan row, the job finished as done or duplicate, and the scan, matched and alert events the vehicle calls for. |
| AnprPipeline.Worker.FailJob | services/anpr-gateway/internal/pipeline/pipeline.go:246-261 | Requeues the job, or fails it on the fifth attempt. |
| AnprPipeline.Worker.Tick | services/anpr-gateway/internal/pipeline/pipeline.go:66-127 | A tick does nothing without a queued job; otherwise it claims the oldest and either processes it or notes the failure. |
| AnprPipeline.ProcessConserves | services/anpr-gateway/internal/pipeline/pipeline.go:178-243 | Processing keeps the counts: scan events = scan rows = finished jobs, matched events = scans with a vehicle, alerts at most matched. |
| AnprPipeline.PipelineInvariant | services/anpr-gateway/internal/pipeline/pipeline.go:95-261 | On every run: those counts, one scan of its own for each finished job and none for others, at most five attempts, done jobs of a plate more than the window apart, and every duplicate preceded by a scan within the window. |
| AnprPipeline.ReadingsRecorded | services/anpr-gateway/internal/pipeline/pipeline.go:154-243 | On every run the scans are the processed jobs in order, each with its tenant, plate, time and the vehicle found; told once, matched exactly when a vehicle was found, alerted exactly when it was stolen, seized or wanted, in that order; and the job is a duplicate exactly beside an earlier scan of the plate within a minute. |
| AnprPipeline.JobHistory | services/anpr-gateway/internal/pipeline/pipeline.go:95-261 | On every run jobs are those enqueued in order, attempts are claims, and a job has failed for good exactly after five failures. |
| AnprPipeline.SpacingBound | services/anpr-gateway/internal/pipeline/pipeline.go:37 | k spaced jobs in an interval need at least (k - 1) windows and a microsecond each. |
| AnprPipeline.DedupSpacing | services/anpr-gateway/internal/pipeline/pipeline.go:154-162 | On every reachable state, k >= 2 done jobs of one tenant and plate captured within length L satisfy (k - 1) * 60 s < L. |
| VehicleTransfers.RandomCode | services/registry/internal/api/transfers.go:435-447 | Six letters of the alphabet, each chosen by one random byte. |
| VehicleTransfers.Registry.StartTransfer | services/registry/internal/api/transfers.go:51-183 | Refuses in the source's order; otherwise adds one pending transfer from the owner under the first of five codes no pending transfer uses. |
| VehicleTransfers.Registry.AcceptTransfer | services/registry/internal/api/transfers.go:190-336 | Refuses in the source's order, closing an expired or flagged transfer; otherwise moves the title, accepts the transfer and tells the event together. |
| VehicleTransfers.Registry.CancelTransfer | services/registry/internal/api/transfers.go:341-373 | Cancels exactly a pending transfer of the caller. |
| VehicleTransfers.StartMeans | services/registry/internal/api/transfers.go:51-183 | Each refusal by its condition; otherwise one pending transfer from the owner, good for a week, under the first offered code that no pending transfer has. |
| VehicleTransfers.AcceptMeans | services/registry/internal/api/transfers.go:190-260 | What a buyer with a pending code is told: missing code or owner, gone after its time, own transfer, else done or blocked. |
| VehicleTransfers.TransferEnds | services/registry/internal/api/transfers.go:225-373 | A transfer changes in exactly four ways: expired by a late code, cancelled by a code for a flagged vehicle or by its seller, accepted by another owner's timely code, who is then named. |
| VehicleTransfers.GoodForAWeek | services/registry/internal/api/transfers.go:95-297 | After any run, the code of a pending transfer is accepted from another owner for an unflagged vehicle exactly until seven days after the start; later it only closes the transfer. |
| VehicleTransfers.StepKeeps | services/registry/internal/api/transfers.go:95-168 | Every step keeps: at most one pending transfer per vehicle, made by its current owner, pending codes distinct, and accepted transfers equal to the events and linked from first to current owner. |
| VehicleTransfers.OwnershipChain | services/registry/internal/api/transfers.go:292-319 | On every run a vehicle's accepted transfers in order lead from its first owner to its current one and are its events. |
| VehicleTransfers.TerminalIsFinal | services/registry/internal/api/transfers.go:355-371 | On every run an accepted, cancelled or expired transfer never changes. |
| VehicleTransfers.OwnerMovesOnlyByAccept | services/registry/internal/api/transfers.go:242-297 | A step changes a vehicle's owner if and only if it accepts a live pending code of that vehicle, unflagged, by somebody else who has an owner profile. |
| Escalation.Target | services/fines/internal/escalation/engine.go:86-93 | The highest stage among the rungs whose time has come, or none. |
| Escalation.Job.AdvanceOne | services/fines/internal/escalation/engine.go:144-194 | Raises stage and status and tells the event, or does nothing when the stage was reached meanwhile. |
| Escalation.Job.RunOnce | services/fines/internal/escalation/engine.go:74-130 | A sweep applies the candidate list of its own query in order. |
| Escalation.SweepIsPointwise | services/fines/internal/escalation/engine.go:81-128 | An undisturbed sweep treats every fine on its own and tells exactly the stage change it made. |
| Escalation.SweepMeans | services/fines/internal/escalation/engine.go:81-216 | A sweep leaves paid, cancelled and disputed fines alone; any other is afterwards at least at every stage whose days are over, and if it moved, then to such a rung with that rung's status. |
| Escalation.EventsTelescope | services/fines/internal/escalation/engine.go:182-193 | For sequential sweeps among handler steps, each event's from-stage is the previous to-stage, from the first to the current stage. |
| Escalation.ScheduleIndependence | services/fines/internal/escalation/engine.go:83-128 | Any non-decreasing sweep times leave every open fine as the last sweep alone would, if and only if the ladder has no unknown action above a known one. |
| Escalation.ReplicasClimb | services/fines/internal/escalation/engine.go:153-164 | With any replicas holding stale lists, stages never fall and no two events of a fine share a to-stage. |
| Escalation.AdvanceSetsStatus | services/fines/internal/escalation/engine.go:153-216 | An advance that takes effect leaves the status of the reached rung's action - warned, overdue, seized or court - even from a stale candidate, and tells that action and the stage the candidate was read at. |
| Escalation.AdvanceOverwrites | services/fines/internal/escalation/engine.go:153-180 | An advance changes a paid, cancelled or disputed status if and only if the stage was not reached meanwhile and the action is known. |
| Escalation.TerminalSurvives | services/fines/internal/escalation/engine.go:83-164 | On every reachable state with any replicas, such a status survives everything up to the next handler on the fine if and only if no replica holds a candidate for a higher stage of it with a known action. |
| Escalation.StaleAdvanceReopensPaidFine | services/fines/internal/escalation/engine.go:157-180 | Concrete run: a fine paid between query and advance ends as warned. |
| Fines.Api.IssueFine | services/fines/internal/api/api.go:148-330 | Refuses in the source's order, duplicates included; otherwise adds the fine at the regulated amount with its event. |
| Fines.Api.HandlePay | services/fines/internal/api/api.go:595-661 | Adds a payment row for the fine's amount; a payment that succeeded at once also pays the fine and tells it. |
| Fines.Api.HandleWebhook | services/fines/internal/api/api.go:1051-1100 | Acts only on an unsettled row of an unpaid fine; then settles every row with the reference, pays the fine and tells one payment. |
| Fines.Api.FileDispute | services/fines/internal/api/api.go:688-757 | Refuses in the source's order; otherwise adds a pending dispute and marks the fine. |
| Fines.Api.ResolveDispute | services/fines/internal/api/api.go:869-921 | Resolves exactly a pending dispute of that fine, with the verdict's status. |
| Fines.Api.CancelFine | services/fines/internal/api/api.go:946-976 | With a reason, cancels the fine whatever its status and tells it. |
| Fines.IssueMeans | services/fines/internal/api/api.go:148-330 | Each refusal by its own condition; otherwise one more fine, issued now at the offence's amount, due in fourteen days, and its event. |
| Fines.HandlersMove | services/fines/internal/api/api.go:595-976 | How handlers move a fine: to paid with that time, to disputed, by verdict to cancelled, issued or court, to cancelled; in no other way, and nothing else of it changes. |
| Fines.HandlersWrite | services/fines/internal/api/api.go:595-976 | What handlers write beside it: payment and dispute rows, and one event each, but none for an open payment, a verdict other than upheld or a refusal. |
| Fines.DisputeMeans | services/fines/internal/api/api.go:688-742 | What a citizen who disputes is told, each answer by its condition. |
| Fines.SweepAllIsSweep | services/fines/internal/escalation/engine.go:118-128 | The sweep among the handlers' steps is the escalation job's own sweep, whatever it told before. |
| FineDisputes.DisputeConsistency | services/fines/internal/api/api.go:731-746 | Over every interleaving of handlers and whole sweeps: at most one pending dispute per fine, a disputed fine has exactly one, and a fine with one is disputed, paid or cancelled. |
| FineDisputes.StaleAdvance | services/fines/internal/escalation/engine.go:153-180 | An advance of a stale candidate keeps that if and only if the stage was reached meanwhile, the action is unknown or no dispute is pending; otherwise a second dispute can be filed. |
| FineDisputes.DisputesExactly | services/fines/internal/escalation/engine.go:118-180 | Over runs of handlers, whole sweeps and stale advances, that holds all through if and only if no advance takes effect on a fine with a pending dispute. |
| FineDisputes.SecondDispute | services/fines/internal/api/api.go:731-742 | Concrete run: query, dispute, advance, and the fine has two pending disputes. |
| FinePayments.WebhookConserves | services/fines/internal/api/api.go:1075-1100 | An effective webhook keeps paid events equal to settled rows of a fine if and only if it settles as many rows of that fine as it tells payments. |
| FinePayments.ConservedExactly | services/fines/internal/api/api.go:637-661 | Without assumptions on references, and with stale advances among the steps: paid events equal settled payments of every fine all through a run if and only if every webhook that acts settles exactly one row, of the fine it pays. |
| FinePayments.EventsNamePayments | services/fines/internal/api/api.go:637-661 | On every run: payment rows and paid events carry their fine's amount, and every paid event names a settled row of that fine with its reference. |
| FinePayments.PaymentConservation | services/fines/internal/api/api.go:637-661 | Over every interleaving with unique references, stale advances included: paid events = settled payments, their sum is the amount times their number, and a paid fine has at least one. |
| FinePayments.ReplayChangesNothing | services/fines/internal/api/api.go:992-993 | With unique references, replaying a webhook that acted changes nothing at any later time. |
| FinePayments.WebhookSettles | services/fines/internal/api/api.go:1075-1085 | After a webhook its row is settled unless it was unsettled and the fine already paid. |
| FinePayments.ReplayNeedsSettled | services/fines/internal/api/api.go:1075-1100 | With unique references: every webhook for a known row, at the end of every continuation, changes nothing if and only if the row is settled now. |
| FinePayments.RepeatedIntentBreaksConservation | services/fines/internal/api/api.go:610-617 | Concrete run: two rows with one intent id give two settled payments and one event. |
| FinePayments.IgnoredWebhookActsLater | services/fines/internal/api/api.go:1075-1090 | A webhook ignored on a paid fine pays it again after a cancellation. |
| FinePayments.PaidBesidePendingIntent | services/fines/internal/api/api.go:631-648 | Concrete run that reaches such a state. |
| FineDuplicates.DuplicatesAppear | services/fines/internal/api/api.go:221-239 | From a state without two uncancelled duplicates, a step makes some if and only if it takes a cancelled fine out of that status (a verdict other than upheld, a payment, an acting webhook, the advance of a stale candidate) while an uncancelled fine for the vehicle and offence lies within the window. |
| FineDuplicates.DuplicateGate | services/fines/internal/api/api.go:221-239 | Over whole runs of handlers, sweeps and stale advances, there are never two uncancelled duplicates if and only if no step revives a fine beside one. |
| FineDuplicates.DuplicatesWereCancelled | services/fines/internal/api/api.go:221-239 | On every run, of two fines where the later repeats the earlier within the window, the earlier was cancelled after its issue. |
| FineDuplicates.RejectedDisputeRevivesDuplicate | services/fines/internal/api/api.go:886-905 | Concrete run: the rejected dispute of a cancelled fine leaves two open duplicates. |
| FineDuplicates.LatePaymentRevivesDuplicate | services/fines/internal/api/api.go:637-648 | Concrete run: paying a cancelled fine leaves it beside its duplicate. |
| FineDuplicates.StaleAdvanceRevivesDuplicate | services/fines/internal/escalation/engine.go:153-180 | Concrete run: a candidate listed before the cancellation takes the fine to warned beside its duplicate. |
| EvidenceReaper.Job.Seal | services/fines/internal/reaper/reaper.go:127-173 | Deletes the object, then seals the row and adds one custody row unless it was sealed already; nothing changes when the store refuses, and only the object is gone when the transaction fails. |
| EvidenceReaper.Job.RunOnce | services/fines/internal/reaper/reaper.go:74-125 | Works off the candidate list of its own query; without interference the result is exactly the number of custody rows it added. |
| EvidenceReaper.SweepSealsDueRows | services/fines/internal/reaper/reaper.go:81-124 | An undisturbed sweep seals exactly the due rows whose deletion and transaction went through, at its own time, and changes nothing else of any row. |
| EvidenceReaper.SweepIsRun | services/fines/internal/reaper/reaper.go:74-125 | A whole sweep is a run of the replica protocol, with the same tables and the same returned count, so the run theorems apply to it. |
| EvidenceReaper.LastQueryMeans | services/fines/internal/reaper/reaper.go:81-112 | The position of a replica's last query holds a query of that replica, and none of its queries comes later. |
| EvidenceReaper.ReaperSafety | services/fines/internal/reaper/reaper.go:81-173 | For any replicas, stale lists, failures and crashes: a sealed row's object is gone, it has exactly one custody row and an unsealed one none, and an object is gone only by a deletion of its row that was a candidate when the deleting replica itself last queried. |
| EvidenceReaper.CandidateMeans | services/fines/internal/reaper/reaper.go:81-101 | A row is a candidate if and only if it is unsealed, its tenant is not under hold, and the days have passed that its tenant's policy, or the default, gives a paid fine from payment, a cancelled or court fine from issue (never without a court limit), or any other. |
| EvidenceReaper.CountsConserved | services/fines/internal/reaper/reaper.go:114-124 | On every run, counts returned, in flight and lost in crashes are the sealed rows plus the transactions that came too late; so returned counts cover the sealed rows if and only if no more counts are in flight or lost than came too late. |
| EvidenceReaper.CrashLosesCount | services/fines/internal/reaper/reaper.go:114-124 | Concrete run: a sweep seals its row, dies, and no count is returned. |
| EvidenceReaper.BothCount | services/fines/internal/reaper/reaper.go:147-157 | Concrete run from no replica at work: two sweeps with one candidate return two for one sealed row. |
| EvidenceReaper.DueAtDeletion | services/fines/internal/reaper/reaper.go:81-139 | On every run, a row deleted although it is not due stopped being due through a change of its own fine or its own tenant's policy, after the deleting replica's last query. |
| EvidenceReaper.DestroysOnlyDue | services/fines/internal/reaper/reaper.go:86-139 | After any run, for each row by itself: no continuation without changes that concern the row deletes it while it is not due, if and only if the row is due now or no replica has it still to delete. |
| EvidenceReaper.HoldProtects | services/fines/internal/reaper/reaper.go:86-87 | After any run, a legal hold set now protects every object of the tenant, whatever the replicas do next, if and only if no replica still has one of the tenant's rows to delete. |
| EvidenceReaper.LateHoldIgnored | services/fines/internal/reaper/reaper.go:127-139 | Concrete run: a hold set between query and deletion does not stop the deletion. |
| EvidenceReaper.CourtEvidenceDestroyed | services/fines/internal/reaper/reaper.go:93-95 | Concrete run: a fine sent to court between query and deletion loses its evidence, although the tenant keeps court evidence without limit. |
| Demerits.Registry.ApplyForFine | services/license/internal/demerit/engine.go:63-203 | Nothing without a driver or points; otherwise one ledger entry, the windowed total cached, and at the threshold one suspension unless a dated one still counts. |
| Demerits.Registry.AddSuspension | services/license/internal/api/api.go:303-355 | Refuses missing fields and unknown kinds or licences; otherwise adds the suspension, raises the flag and tells it. |
| Demerits.Registry.LiftSuspension | services/license/internal/api/api.go:401-440 | Lifts exactly an unlifted suspension of that licence, clears the flag when none counts any more, and always tells. |
| Demerits.SuspensionSafety | services/license/internal/demerit/engine.go:142-171 | On every run: an unlifted, unexpired suspension, open-ended ones included, implies the flag; at no instant are two engine suspensions of a licence in force; and the outbox tells every suspension and demerit in order. |
| Demerits.EntryCounts | services/license/internal/demerit/engine.go:130-136 | A ledger entry, wherever it stands, counts for its own licence only, and in a window only if it is younger than the cut-off. |
| Demerits.AllInWindow | services/license/internal/demerit/engine.go:130-136 | Without older entries of the licence the window holds all its points. |
| Demerits.OpensExactly | services/license/internal/demerit/engine.go:142-200 | A demerit opens one suspension, from now for the policy's months of thirty days, exactly at the threshold and without a dated one that still counts, and tells the new total and then the suspension. |
| Demerits.AfterDemerit | services/license/internal/demerit/engine.go:130-171 | After any run, an applied demerit leaves the cached points equal to the licence's points of the window with the new ones, and every other licence's row and totals as they were; at the threshold the flag is up, and a suspension counts if and only if one did before or the policy suspends for a positive time. |
| Demerits.LiftMakesFlagExact | services/license/internal/api/api.go:413-426 | After any run, lifting leaves the flag up if and only if a suspension of the licence still counts. |
| Demerits.StaffChange | services/license/internal/api/api.go:303-440 | Adding writes one suspension and raises its licence's flag; lifting lowers it unless an unlifted suspension still runs or has no end; points, ledger and other licences stay. |
| Demerits.LiftedExactly | services/license/internal/api/api.go:401-426 | On every run a suspension is lifted exactly if a step lifted it by its number and its licence, at the time of the first such step. |
| Demerits.ReplayCountsAgain | services/license/internal/demerit/engine.go:107-118 | After any run, also one that applied the fine before, a fine changes the tables if and only if it has a driver and points, and then its points are added to the licence again. |
| Demerits.BesideOpenEnded | services/license/internal/demerit/engine.go:148-161 | Where one suspension counted, two count after a demerit if and only if it has no end and the points reach the threshold. |
| Demerits.DoublySuspended | services/license/internal/demerit/engine.go:148-161 | Concrete run: staff suspend a driver without end, and a fine at the threshold suspends him again beside that. |
| Base64.DecodeEncode | services/license/internal/api/verify.go:122-123 | Decoding undoes encoding, and an encoded text has no dot and no line break. |
| Base64.EncodeMeans | services/license/internal/api/verify.go:117-124 | An encoded text, read through the alphabet of RFC 4648 table 2, is the bytes as a number, with four or two zero bits behind one or two left-over bytes, and no padding. |
| Base64.EncodeDecode | services/license/internal/api/verify.go:131-134 | A decodable text is the one the encoder prints if and only if it has no line breaks and no stray low bits. |
| LicenceToken.SplitText | services/license/internal/api/verify.go:148-159 | The loop returns the split: pieces that joined give the text, at most n, only the last holding the separator, and only for lack of room. |
| LicenceToken.SplitIs | services/license/internal/api/verify.go:148-159 | That description determines the pieces: a list satisfies it if and only if it is the one returned. |
| LicenceToken.VerifyBundleString | services/license/internal/api/verify.go:126-146 | The checks in the source's order, with their errors. |
| LicenceToken.RoundTrip | services/license/internal/api/verify.go:117-146 | Verifying a signed bundle returns that bundle until it expires and "expired" afterwards. |
| LicenceToken.OtherSecret | services/license/internal/api/verify.go:135-139 | Another secret rejects the token's signature if and only if it gives the body a different code. |
| LicenceToken.AcceptedMeans | services/license/internal/api/verify.go:126-146 | A token is accepted with a bundle if and only if it reads as a body and that body's code under the secret, the body is the bundle's JSON, and it has not expired. |
| LicenceToken.RejectedMeans | services/license/internal/api/verify.go:126-146 | Each rejection by its own condition, in the source's order. |
| LicenceToken.OneSpelling | services/license/internal/api/verify.go:122-134 | A token that reads as a body and a code is the printed one if and only if both texts are canonical. |
| LicenceToken.IssuedTokenLasts | services/license/internal/api/verify.go:70-75 | An issued token starts with n1., is accepted exactly through the next 300 seconds and carries its licence, tenant, number and times. |
| Rollup.Job.Aggregate | services/audit/internal/rollup/rollup.go:102-128 | Every officer and day of the window with fines gets their counts, keeping its score; other rows stay. |
| Rollup.CountsFit | services/audit/internal/rollup/rollup.go:115-121 | A day of the window gets a row exactly when it has a fine, and neither cancellations nor distinct plates outnumber its fines, so a rate is defined and at most one. |
| Rollup.AggregateCounts | services/audit/internal/rollup/rollup.go:102-128 | Without fines nothing changes; one more fine, in any place, counts once in its own row, among the cancelled or in the total, with its plate if new, and in no other row; a new row starts from it. |
| Rollup.PriorMeans | services/audit/internal/rollup/rollup.go:141-160 | The baseline holds the fines issued on the officer's newest active days in the range, none left out between, newest first, up to the limit. |
| Rollup.Job.Score | services/audit/internal/rollup/rollup.go:137-173 | Every row of the window is scored against up to fourteen earlier active days of its officer. |
| Rollup.Job.DetectAnomalies | services/audit/internal/rollup/rollup.go:194-236 | Afterwards an alert is open if and only if it was open or its row raises it; an open one keeps its details, a new one records the present figures. |
| Rollup.Job.RunOnce | services/audit/internal/rollup/rollup.go:78-94 | Aggregate, score, detect, in this order: the alerts open afterwards are those open before and those the fresh statistics raise. |
| Rollup.SpreadMeans | services/audit/internal/rollup/rollup.go:151-154 | n times the sum of squares less the square of the sum is n times the squared distances from the mean, never negative, and zero if and only if all values are equal. |
| Rollup.ScoreMeans | services/audit/internal/rollup/rollup.go:163-166 | Over the reals, with mean and population deviation: the score is NULL exactly for fewer than three values or a zero deviation, the stored integers have the z-score's sign and square, and z > 2.0 exactly when n*x > S and (n*x - S)^2 > 4*(n*Q - S^2). |
| Rollup.RowScored | services/audit/internal/rollup/rollup.go:137-173 | Scoring keeps every count; in the window it leaves NULL or the z-score, by sign and square, of the row's fines against those issued on the officer's up to fourteen newest active days since fourteen days before the window. |
| Rollup.ZAlertMeans | services/audit/internal/rollup/rollup.go:194-209 | After scoring and detecting, the first alert of a row is open if and only if it was, or the row is in the window and its fines lie above two standard deviations over the mean of at least three baseline days that deviate; a new one records score and fines. |
| Rollup.RateMeans | services/audit/internal/rollup/rollup.go:228-232 | The cancellation alert is for at least five fines with a rate above 0.3, decided in integers. |
| Rollup.RateAlertMeans | services/audit/internal/rollup/rollup.go:211-236 | The second alert is open if and only if it was, or the row is in the window with at least five fines, more than three in ten cancelled; a new one records both counts. |
| Rollup.ReplicasAgree | services/audit/internal/rollup/rollup.go:96-98 | However the phases of concurrent sweeps interleave, once an aggregation was followed by a scoring the statistics are those of one sweep. |
| Rollup.DetectionMeans | services/audit/internal/rollup/rollup.go:190-209 | The two inserts leave exactly that: the outcome is determined by which alerts were open and which rows raise. |
| Rollup.SweepTwice | services/audit/internal/rollup/rollup.go:175-193 | A second sweep changes nothing, and a resolved alert comes back if and only if its row still raises it. |

## Left out

- HTTP routing, request decoding, JWT, bcrypt, configuration, logging, metrics, health monitors, the best-effort audit calls of the other services, and all web applications.
- The SQL engine: transactions are atomic, row locks skip locked rows, the unique indexes hold, `now()` never decreases; SQL errors other than the ones modelled, and commits whose outcome the client does not learn.
- Row-level security: `VehicleTransfers` is one tenant; the other modules carry the tenant in their rows.
- Audit: JSON documents are decoded values, so string escapes and whitespace, malformed documents and JSONB's own limits are not modelled; concurrent writers of one tenant are excluded, as the package comment requires.
- AuditChain.ReadBackCanon: the text forms Postgres gives to uuid and inet are parameters; a client can compare its own text with them.
- Outbox: created_at order is the order of insertion, and rows become visible in id order; several consumers with one name, an id that commits late, and an event bus that fails after publishing.
- OutboxRelay.SoleRelayProgress: progress is for a single relay, because with several one that never commits can keep its rows locked.
- RetryQueue: payloads and errors; a worker reports a job at most once.
- AnprPipeline: raw plates and normalization; confidence, location and image of a scan; two jobs processed at the same instant by different workers.
- VehicleTransfers: reassignment by an administrator, trimming and upper-casing of the typed code, the plate in the event, and the randomness of the code bytes.
- Fines: currency, location, notes and evidence rows of a fine; failed, processing and refunded webhooks, which change nothing in the modelled tables; signature checks; a verdict text other than the three, which is refused; the licence a fine is attached to.
- EvidenceReaper: re-upload of an object, custody rows of other actions, and stored keys shared by two rows; log lines of failed rows.
- Demerits: the cached `suspended_until` date, the reset period, and concurrent applications for one licence; calendar months are a parameter.
- LicenceToken.RoundTrip: the JSON codec is a parameter that has to give this bundle back, which Go's does for valid UTF-8.
- Rollup: rounding of floats to `real`; time zones of the day boundary; resolved alerts themselves, since only open ones restrict inserts.
- Integer widths: counts, amounts and times are unbounded integers.
- Provider contracts and stubs, the licence-plate reader client, notification rendering, country packs, routing helpers and other small pure functions.
