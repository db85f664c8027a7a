# One ticket and one notification per event

A Dafny model of the support-triage engine: an HTTP submission becomes at most
one ticket per idempotency key, a queue worker classifies the ticket with a
model or a rule-based fallback, each transition is announced once through an
outbox, and relays deliver what was announced. Ingestion, the pipeline, the
relays and retention share tables and may be interrupted between any two
statements; the proofs are about every interleaving of them.

`dafny verify dfyconfig.toml` checks the whole project.

## How the model is built

Each part of the protocol is a state machine whose steps are single SQL
statements or transactions. A step that is not enabled changes nothing, so every
sequence of steps is a run. Callers, workers and relays hold local state that
may be stale; a crash drops it between any two steps.

- `Ingestion`: claim, reclaim after the lease, create the ticket under the row
  lock, enqueue, mark. On top of it `IngestionAgreement` (what callers are told),
  `JobAgreement` (completed keys had their job added) and `PayloadAgreement`
  (tickets come from the payload their key was claimed with), each with the
  exact condition on retention passes; `Completion`: when COMPLETED is terminal;
  `Submissions`: when a submission is a conflict, in terms of stored content.
- `TicketPipeline`: load, then the guarded update with its notification, with
  arbitrarily stale prior reads; `TicketAnnouncements`: what is announced, and
  when retention can break it; `TicketContents`: what tickets and notifications
  hold.
- `OutboxRelay`: claiming with SKIP LOCKED, dispatching, whole-batch rollback;
  `RelayFairness`: no due row is starved; `RelayWaits`: how long a row is tried.
- `Retention`, `DeadLetters`, `UpgradeChain`: the prune transaction, replays, and
  the jobs one enqueue can set off.
- `Specification`: what the engine is for, as a sequential machine; `Engine`:
  ingestion, pipeline, relays and retention over the same tables, refining it;
  `SweepSafety`: which sweeps the whole engine can bear; `Timestamps`: the ages
  retention goes by are true.

The classes (`IdempotencyService`, `Service`, `TicketProcessor`, `Relay`,
`RetentionSweeper`, `DlqService`, `Producer`, `ReconcileSweeper`, `Enricher`) run the
code of one object with nobody in between. Their contracts give the new state by
the same functions the machines step by, so what is proved about the runs is
about those methods. `Ingestion.FinishIsARun` shows that a call made alone is one
of the machine's runs.

`CanonicalHash`, `JobIds`, `Backoff`, `AiEnricher` and `PipelineProducer` hold the
sequential parts: hashing, id grammar, delays, the retry loop and the producer.

### Taken as given

One statement or transaction is atomic; an UPDATE re-evaluates its WHERE under
the row lock; UNIQUE with ON CONFLICT DO NOTHING, foreign keys, FOR UPDATE and
SKIP LOCKED behave as documented by PostgreSQL; the database clock does not go
back; generated uuids do not repeat and hold no colon; the queue suppresses an
add under an id it still holds and runs a job at most its configured number of
attempts. Printing a canonical value and hashing it with SHA-256 are one
injective function. Clocks, random draws, the model, the breaker and the
delivery target are parameters.

### Where the code keeps less than its comments say

Each of these is a lemma, with the exact condition under which the promise holds
where there is one.

- A member named `__proto__` of `hashPayload`'s argument does not reach the hash,
  because assigning it sets the accumulator's prototype (`ProtoIsNotHashed`;
  otherwise `CanonicalIffSameContent`). Whether the HTTP layer lets a member of
  that name through is not part of this model.
- "One transition produces one notification" holds in one direction. Two workers
  that both read PENDING can commit a fallback and then an AI result, and no
  upgrade is announced (`StalePriorHidesUpgrade`). The upgrade of a degraded ticket
  can still be lost exactly when a worker on it had read PENDING
  (`UpgradeCanHideIff`); none is when one ticket's jobs run one at a time
  (`SerialUpgradesAreAnnounced`).
- A retention pass that runs while a worker is between its read and its write can
  cause a second announcement, exactly when that worker may still announce a
  pruned row on a ticket that stays (`TicketAnnouncements.PruneSafeIff`).
- A retention pass that deletes a key a caller holds a ticket for can leave a
  later row naming that ticket (`IngestionAgreement.CallersClearIff`); one that
  deletes a key whose job id is held can leave a later key completed without a
  job (`JobAgreement.PruneSafeIff`), and job ids are held up to a day after a
  failure while the retention age may be set to a minute; one spanned by a caller
  past its hash check can leave a key with a ticket of another payload
  (`PayloadAgreement.PruneSafeIff`).
- For the engine as a whole, a sweep can make it leave its specification exactly
  when a caller with a ticket or a worker able to repeat an announcement spans it
  (`SweepSafety.SweepSafeIff`).
- A replayed dead letter that is pruned while its replay is unsettled, or after
  its replayer crashed, can be lost (`DeadLetters.PruneSafeIff`).
- The retention of a finished reconcile job is shorter than the sweep interval
  only for intervals above five seconds; one second is allowed
  (`TtlBelowIntervalIff`).
- `enqueueReconcile` reports false after replacing a failed job, so the sweep's
  count can understate what it did; the report is right exactly when no failed
  job held the id (`ReportIsRightIff`).
- The linear bound on a chain of upgrade jobs needs finished ids to stay held
  unless jobs are not retried or upgrades are off (`LinearBoundIff`); the chain
  ends regardless (`ChainEnds`).
- A submission without a key uses its payload's hash, and is refused in the rare
  case that none of the 64 hexadecimal digits is a letter (`HashKeyUsableIff`).
- COMPLETED is called terminal, but `markFailed` does not look at the status: a
  completed key can become FAILED exactly when a caller granted it has not yet
  got its job in, or is about to mark it failed (`CompletedLeavesIff`). When
  granted callers act within their lease or not at all, it stays
  (`CompletedIsTerminal`).

The ticket status FAILED is declared and never assigned
(`TicketAnnouncements.TicketRowsFollowHistory`).

## Model

| member | source | states |
|---|---|---|
| Engine.EngineRefinesSpec | src/events/events.service.ts:123-202 | Over every run in which no caller with a ticket and no announcing worker spans a sweep, with any number of actors crashing anywhere, each engine step is the specification step that Mirror names: register, open, climb, deliver, forget at sweeps only, and a stutter otherwise |
| Engine.StepRefines | src/pipeline/ticket.processor.ts:76-189 | One step of any actor keeps the joint invariant and is exactly the specification step Mirror names |
| Engine.IngestRefines | src/idempotency/idempotency.service.ts:46-179 | A fresh insert registers its key and a creation opens its ticket; every other statement (lost insert, reclaim, retry, enqueue, mark, answer) is a stutter |
| Engine.WorkRefines | src/pipeline/ticket.processor.ts:110-189 | A write that moves the level or inserts a notification is that climb; skipped and repeated writes, loads, crashes and absorbed notifications are stutters |
| Engine.KindsFit | src/pipeline/ticket.processor.ts:156-187 | What a write inserts, decided by a stale read, fits the status the ticket really had; an upgrade only for a ticket once degraded |
| Engine.RelayRefines | src/outbox/outbox.relay.ts:111-204 | The first dispatch to arrive delivers an announced notification; claims, redeliveries, commits and rollbacks are stutters |
| Engine.SweepIsEnabled | src/retention/retention.sweeper.ts:72-113 | The five deletes at any cutoff take only what ingestion, pipeline and relays can bear to lose |
| Engine.SweepForgets | src/retention/retention.sweeper.ts:72-113 | A sweep is one forget step: whole keys, and tickets no remaining key names |
| Specification.SpecIsSafe | src/events/events.service.ts:164-169 | The specification keeps its invariant; a key keeps its ticket, levels climb, announcements and deliveries are never undone |
| Engine.AbsIsSound | src/pipeline/ticket.processor.ts:156-187 | The engine's invariant implies the specification's: tickets belong to one key, every notification announced once, TRIAGED iff the ticket left PENDING, an upgrade only after a fallback |
| Engine.EngineIsSafe | src/events/events.service.ts:164-202 | At every moment of a safe run the specification's invariant holds of the real tables |
| Engine.EngineGrows | src/retention/retention.sweeper.ts:45-49 | With retention off, between any two moments no key or ticket is lost, a key's ticket never changes and no level falls |
| Engine.DeliveredIsCommitted | src/outbox/outbox.service.ts:37-53 | With retention off, every delivered notification belongs to a committed outbox row, and the rows are exactly the announcements |
| SweepSafety.SweepSafeIff | src/retention/retention.sweeper.ts:72-113 | A sweep is followed by a run without sweeps that leaves the specification iff a caller with a surviving ticket of a deleted key, or a worker that may repeat a pruned announcement, spans it |
| Ingestion.OneTicketPerRow | src/events/events.service.ts:170-202 | In every run, no ledger row is given two tickets and no ticket serves two rows, even with two live owners and pruning |
| Ingestion.ClaimsAreExclusive | src/idempotency/idempotency.service.ts:51-113 | Two grants of one row with no failure marked between are more than a lease apart and no completion lies between |
| Ingestion.NeverWedged | src/idempotency/idempotency.service.ts:46-117 | From any state a run leaves, one resubmission after the lease completes the key, keeps an attached ticket and is answered with it |
| Ingestion.InvStep | src/idempotency/idempotency.service.ts:46-179 | Every statement keeps: unique ids, one creation per row, intact references, status following the last mark, grants justified by the lease |
| Ingestion.InvRun | src/idempotency/idempotency.service.ts:46-179 | ... and so does every run |
| Ingestion.FinishIsARun | src/events/events.service.ts:123-162 | A caller running alone returns within six statements and leaves the tables Finish names |
| IngestionAgreement.ResponsesAgree | src/events/events.service.ts:97-161 | Rows name the ticket created for them, whose event carries their key; completed keys store it with a job id equal to the key; answers name it |
| IngestionAgreement.AnswersAgree | src/events/events.service.ts:97-161 | Any two ticket ids ever answered for one ledger row are equal |
| IngestionAgreement.TicketIdIsWriteOnce | src/idempotency/idempotency.service.ts:140-171 | Once attached, a row's ticket never changes for as long as the row lives |
| IngestionAgreement.AgreedStep | src/events/events.service.ts:123-202 | Each step whose sweep is clear of callers keeps these promises and every caller's view of them |
| IngestionAgreement.CallersClearIff | src/retention/retention.sweeper.ts:89-113 | A pass keeps these promises whatever follows, exactly when no caller holds a surviving ticket of a key it deletes |
| Completion.CompletedLeavesIff | src/idempotency/idempotency.service.ts:153-179 | A completed key can leave COMPLETED in some run without retention iff a caller on it is granted and before its enqueue settled, or about to mark it failed |
| Completion.LateFailure | src/events/events.service.ts:143-148 | From any such state two statements of that caller leave the key FAILED |
| Completion.CompletedIsTerminal | docs/ARCHITECTURE.md:193-201 | In every run whose granted callers act within their lease or not at all, retention included, a completed ledger row stays completed while it lives |
| Completion.LocksHeldStep | src/idempotency/idempotency.service.ts:89-112 | Each step of such a run keeps: while a lease runs the key is pending under its lock and its holder is the only one |
| Submissions.ConflictIffContentDiffers | src/idempotency/idempotency.service.ts:71-74 | Over every run whose sweeps no grant spans, a submission under a key with a ticket is a conflict iff its content differs from that of the stored event |
| Submissions.ReplayIsWiredUp | src/events/events.service.ts:97-107 | Over every clear run a replay names the one ticket created for the key's row, which exists, and a job id equal to the key |
| Submissions.HeaderThenBodyThenHash | src/events/events.service.ts:82 | A key in the header wins over one in the body, and either over the hash |
| Submissions.KeyedByContent | src/events/events.service.ts:73-82 | Without a key, two submissions share one iff they are the same submission |
| JobAgreement.CompletedMeansEnqueued | src/events/events.service.ts:150-158 | Over every run whose sweeps spare held job ids too, a completed key had a job for its ticket added before it was marked |
| JobAgreement.JobsStep | src/events/events.service.ts:137-158 | Each such step keeps the queue and the callers in step with the ledger's tickets |
| JobAgreement.PruneSafeIff | src/retention/retention.sweeper.ts:89-113 | A pass keeps all promises whatever follows, exactly when it is clear of callers and deletes no key whose job id is held or about to be added |
| JobAgreement.HeldJobSwallows | src/pipeline/pipeline.producer.ts:44-54 | With its job id still held, a deleted key can be claimed anew and completed with no job ever added for its ticket |
| PayloadAgreement.TicketsMatchTheirKeys | src/events/events.service.ts:73-82 | Over every run whose sweeps no grant spans, the ticket a key names was created from the payload whose hash the key stores |
| PayloadAgreement.PruneSafeIff | src/idempotency/idempotency.service.ts:68-112 | A pass keeps that whatever follows, exactly when no caller past its hash check spans it: the reclaiming UPDATE does not compare hashes again |
| IngestionAgreement.LateCompletionOverwrites | src/idempotency/idempotency.service.ts:153-171 | A caller that marks after its key was deleted can leave the key's new row naming its own old ticket instead of the one created for that row |
| IdempotencyLedger.IdempotencyService.Claim | src/idempotency/idempotency.service.ts:46-117 | NEW iff the key is unknown, or known with the same payload and failed or past its lease; CONFLICT iff the payload differs; REPLAY iff completed; only NEW writes, keeping the row's identity and ticket |
| IdempotencyLedger.IdempotencyService.Attach | src/idempotency/idempotency.service.ts:141-151 | Sets the row's ticket and nothing else |
| IdempotencyLedger.IdempotencyService.Complete | src/idempotency/idempotency.service.ts:154-171 | Completes an existing row unconditionally, with ticket and response, releasing the lock |
| IdempotencyLedger.IdempotencyService.Fail | src/idempotency/idempotency.service.ts:174-179 | Fails an existing row unconditionally, releasing the lock, keeping its ticket |
| EventsService.Service.CreateTicketIfAbsent | src/events/events.service.ts:170-202 | Does what one Owning statement of the machine does on the locked row: reuses the attached ticket, or creates event and ticket from this payload and attaches it, or rolls back; a vanished row throws |
| EventsService.Service.Enqueue | src/pipeline/pipeline.producer.ts:44-54 | Adds a job under the key unless one is held |
| EventsService.Service.MarkCompleted | src/idempotency/idempotency.service.ts:154-171 | Completes the key unless the foreign key rejects a deleted ticket |
| EventsService.Service.MarkFailed | src/idempotency/idempotency.service.ts:174-179 | Marks the key failed if it exists |
| EventsService.Service.ProcessNew | src/events/events.service.ts:123-162 | Ends where the machine's owner ends; accepted iff the row is there, the transaction commits, a ticket already attached exists and the enqueue returns, and then with the ticket and job id the completed key stores; otherwise an error, the key marked failed |
| EventsService.Service.Ingest | src/events/events.service.ts:69-121 | Bad keys are refused before any write; conflict, replay and processing are answered exactly when the ledger says so, with what it stores; a granted caller is accepted exactly when its work goes through; the tables end as the machine's caller leaves them |
| EventsService.Service.ClaimAndProcess | src/events/events.service.ts:88-121 | The same for a key already validated |
| EventsService.LoserFinishes | src/idempotency/idempotency.service.ts:68-116 | What a caller whose INSERT lost comes to, case by case |
| EventsService.HolderFinishes | src/events/events.service.ts:131-161 | What a caller that has its ticket comes to, by how its enqueue went |
| EventsService.SubmissionFinishes | src/events/events.service.ts:88-121 | A submission ends as its grant is processed, or as its row is answered, by who may process |
| TicketPipeline.EffectsHaveTheirOwnKeys | src/outbox/outbox.service.ts:26-35 | Two notifications share a dedup key iff they are the same ticket and kind, so absorbing by key is absorbing by effect |
| TicketPipeline.DedupKeyReads | src/outbox/outbox.service.ts:33-35 | The key of a notification names the ticket, the event type and version v1 |
| TicketPipeline.InvStep | src/pipeline/ticket.processor.ts:110-189 | Every step keeps: legal histories, status and source matching, priors that were once read, and notifications inserted exactly for what a write owed |
| TicketPipeline.InvRun | src/pipeline/ticket.processor.ts:110-189 | ... and so does every run |
| TicketPipeline.TicketProcessor.Persist | src/pipeline/ticket.processor.ts:110-189 | A write lands iff the ticket exists and no fallback meets an AI result; then status, source, classification, time and attempt are stored, and exactly the notification the stale read calls for is inserted with this outcome; otherwise nothing changes |
| TicketPipeline.TicketProcessor.EmitOnce | src/outbox/outbox.service.ts:37-53 | Inserts the row unless its key exists; the stored payload of an existing one stays |
| TicketPipeline.TicketProcessor.Process | src/pipeline/ticket.processor.ts:70-108 | A missing ticket throws and changes nothing; otherwise the outcome is stored and announced by the status read, and a degraded one schedules the next upgrade while any is left, even if its write was skipped |
| TicketAnnouncements.HistoryShape | src/pipeline/ticket.processor.ts:132-154 | Committed statuses of a ticket are DEGRADED any number of times, then ENRICHED any number of times |
| TicketAnnouncements.TicketRowsFollowHistory | src/pipeline/ticket.processor.ts:117-130 | Status and source match (ENRICHED with AI, DEGRADED with FALLBACK), the status is the last commit's and attempts counts the commits |
| TicketContents.TicketHoldsItsLastWrite | src/pipeline/ticket.processor.ts:117-130 | In every run a ticket holds the status, source, classification and time of its last committed write, and a classification iff it left PENDING |
| TicketContents.NotificationCarriesItsWrite | src/pipeline/ticket.processor.ts:156-187 | In every run a notification in the outbox carries the source and classification of a committed write that owed it |
| TicketAnnouncements.TriagedIffLeftPending | src/pipeline/ticket.processor.ts:168-175 | A ticket has left PENDING iff its triage was announced, however stale the workers |
| TicketAnnouncements.UpgradedIffReadDegraded | src/pipeline/ticket.processor.ts:176-187 | An upgrade is announced iff a run that had read DEGRADED wrote ENRICHED; then a DEGRADED commit came earlier and the ticket is ENRICHED now |
| TicketAnnouncements.AnnouncedAtMostOnce | src/outbox/outbox.service.ts:37-53 | Over every safe run no notification is inserted twice, pruned ones included |
| TicketAnnouncements.PruneSafeIff | src/retention/retention.sweeper.ts:75-80 | A pass causes no second announcement, whatever follows, exactly when no worker that could repeat a pruned row spans it |
| TicketAnnouncements.OutboxHoldsAllEmitted | src/outbox/outbox.service.ts:37-53 | Without passes the outbox rows are exactly the notifications ever inserted |
| TicketAnnouncements.SerialUpgradesAreAnnounced | src/pipeline/ticket.processor.ts:156-187 | When one ticket's jobs run serially, whatever other tickets' jobs do, its upgrade is announced iff it was committed DEGRADED and ENRICHED |
| TicketAnnouncements.StalePriorHidesUpgrade | src/pipeline/ticket.processor.ts:168-187 | A concrete run with two workers in which an upgrade goes unannounced |
| TicketAnnouncements.UpgradeCanHideIff | src/pipeline/ticket.processor.ts:168-187 | From a reachable state with the ticket DEGRADED, some run without retention ends ENRICHED with no upgrade announced iff a worker on it had read PENDING |
| OutboxRelay.RelaySafety | src/outbox/outbox.relay.ts:111-204 | With many relays and rollbacks anywhere: locked sets disjoint, attempts equal committed failures, PENDING below the maximum, FAILED iff at it, SENT implies delivered, claims bounded by the maximum |
| OutboxRelay.InvStep | src/outbox/outbox.relay.ts:111-204 | Every step of every relay keeps these facts |
| OutboxRelay.SettledForGood | src/outbox/outbox.relay.ts:152-187 | No row is lost, and SENT and FAILED rows never change, until pruned |
| OutboxRelay.CommitMakesProgress | src/outbox/outbox.relay.ts:165-199 | A committed drain of n rows uses up at least n of the attempts left over all pending rows |
| OutboxRelay.DispatchFits | src/outbox/outbox.relay.ts:152-199 | Every dispatch, of any relay, has exactly the effect DispatchRow states |
| RelayFairness.DueRowIsClaimed | src/outbox/outbox.relay.ts:113-127 | From any reachable state with one relay that does not crash, a waiting row with k rows ahead is claimed within k / batch + 1 drains, whatever is inserted after its due time |
| RelayFairness.OverdueRowIsClaimed | src/outbox/outbox.relay.ts:113-127 | A millisecond past its due time the same holds with no condition on the backoff base or on arrivals |
| RelayFairness.DrainIsARun | src/outbox/outbox.relay.ts:111-128 | A drain alone is one of the relays' runs and leaves the drained table |
| RelayWaits.AbandonedAfterItsWait | src/outbox/outbox.relay.ts:170-199 | In every run a row is given up only after put-offs, as its own due times moved, that add up to between the half ceilings and base(2^(MAX-1) - 1), and only once that much time has passed |
| RelayWaits.WaitedStep | src/outbox/outbox.relay.ts:111-204 | Every step of every relay keeps the bounds on how far each row was put off |
| RelayFairness.PassedOver | src/outbox/outbox.relay.ts:113-127 | A waiting row that a round passes over keeps waiting while a full batch ahead of it is settled or put behind it |
| RelayFairness.EveryDelayPositiveIff | src/outbox/outbox.relay.ts:190-199 | A retry always waits, whatever the jitter, iff the backoff base is at least 2 ms |
| OutboxRelay.Relay.DispatchRow | src/outbox/outbox.relay.ts:130-204 | A success settles the row as SENT; a failure counts an attempt and gives the row up at the maximum, or puts it off from now by between half of and all of the base doubled once per earlier failure; nothing else of the row changes |
| OutboxRelay.Relay.DrainOnce | src/outbox/outbox.relay.ts:111-128 | The loop dispatches each claimed row once with that effect, SENT rows were delivered, other rows are untouched, and the potential falls by the batch |
| OutboxRelay.Relay.Tick | src/outbox/outbox.relay.ts:80-108 | No overlapping drain, none after shutdown; a rollback restores rows but not deliveries; a full batch drains again at once |
| DeadLetters.ReplayedOnce | src/pipeline/dlq/dlq.service.ts:102-143 | At most one replayer between flip and settle, at most one success, a pending letter carries no replay time, and at rest without crashes REPLAYED iff exactly one replay succeeded |
| DeadLetters.PruneSafeIff | src/retention/retention.sweeper.ts:82-87 | Pruning a replayed letter can never lose it unreplayed, exactly when nobody is between flip and settle and no replayer was lost |
| DeadLetters.DlqService.RecordDeadLetter | src/pipeline/dlq/dlq.service.ts:44-71 | Adds a pending letter and touches no other |
| DeadLetters.DlqService.Replay | src/pipeline/dlq/dlq.service.ts:102-143 | Succeeds iff the letter is pending and the enqueue answers, and then marks it REPLAYED with the time; otherwise the letter is as before, though a job may have been added |
| Retention.SweepKeepsReferences | src/migrations/1700000000000-InitialSchema.ts:74-100 | A pass leaves every foreign key pointing at a row, so SET NULL and RESTRICT never fire |
| Retention.LiveWorkSurvives | src/retention/retention.sweeper.ts:75-113 | No pending notification or dead letter, unsettled key, or PENDING or DEGRADED ticket goes at any age, nor what it refers to |
| Retention.SweepsCompose | src/retention/retention.sweeper.ts:72-113 | A pass at an earlier cutoff never changes what a later one leaves |
| Retention.SweepIsFixpoint | src/retention/retention.sweeper.ts:72-113 | A second pass at the same cutoff deletes nothing |
| Retention.SweepTakesExpired | src/retention/retention.sweeper.ts:75-113 | Per table: a row goes iff it is settled, older than the cutoff and no surviving row names it |
| Retention.NothingYoungGoes | src/retention/retention.sweeper.ts:70-73 | Nothing at or after the cutoff goes, whatever its state |
| Timestamps.StepStamps | src/migrations/1700000000000-InitialSchema.ts:43-124 | Every step of the engine stamps what it inserts, and a ticket it writes, with its time, and keeps every other stamp; a new notification is due at once |
| Timestamps.SweepsSpareTheYoung | src/retention/retention.sweeper.ts:70-113 | In every safe run, what was inserted or written after some moment is not deleted by a sweep whose cutoff is at or before it |
| Retention.RetentionSweeper.DeleteExpired | src/retention/retention.sweeper.ts:75-113 | The five deletes take a row iff it is settled, older than the cutoff and named by no row that stays, and leave every other row as it was |
| Retention.RetentionSweeper.Transaction | src/retention/retention.sweeper.ts:72-121 | All five deletes, each row gone exactly for that reason, with their counts, none negative, or nothing |
| Retention.RetentionSweeper.RunSweep | src/retention/retention.sweeper.ts:65-121 | A pass reports counts iff it ran and committed; then a row goes iff it is settled, older than the maximum age and named by no row that stays; otherwise no row goes |
| UpgradeChain.RunCosts | src/pipeline/ticket.processor.ts:191-211 | Every run of a job lowers the chain's potential by at least one, whatever it schedules |
| UpgradeChain.ChainEnds | src/pipeline/ticket.processor.ts:191-211 | The chain of one enqueue ends, with at most P + P^2 + ... + P^(U+1) runs, even if finished ids expire at once |
| UpgradeChain.ChainBound | src/enrichment/ai.enricher.ts:73-94 | While finished ids are held: at most P(U+1) runs and P(U+1)(R+1) model calls |
| UpgradeChain.ChainBoundIsTight | src/pipeline/ticket.processor.ts:191-211 | Both bounds are reached by a run with every id held |
| UpgradeChain.LinearBoundIff | src/pipeline/ticket.processor.ts:191-211 | P(U+1) runs and P(U+1)(R+1) calls bound every run, whenever finished ids expire, iff P <= 1 or U = 0 |
| UpgradeChain.ExpiredIdsExceedTheBound | src/pipeline/pipeline.producer.ts:81-94 | For every configuration with retries and upgrades, a chain that exceeds P(U+1) once the id of a finished upgrade expires |
| AiEnricher.Enricher.CallWithRetry | src/enrichment/ai.enricher.ts:73-94 | The loop answers iff some allowed call does, with the first such call; it stops there, at the first failure with the breaker open, or at the last attempt, and waits between calls within the bounds of base 500 ms and cap 5000 ms |
| AiEnricher.Enricher.Enrich | src/enrichment/ai.enricher.ts:44-70 | Never throws: the AI result of the first answering call iff configured, the breaker closed and that call within the retries, else the fallback; no call when unconfigured or open, at least one otherwise |
| PipelineProducer.AddsAreIndependent | src/pipeline/pipeline.producer.ts:44-135 | An add under one issued id leaves every other issued id as it was |
| PipelineProducer.ReconcileRevives | src/pipeline/pipeline.producer.ts:112-136 | After a reconcile a job that has not failed holds the id; a failed one is replaced, any other kept |
| PipelineProducer.ReportIsRightIff | src/pipeline/pipeline.producer.ts:112-136 | The report that a job was added is right iff no failed job held the id |
| PipelineProducer.TtlBelowIntervalIff | src/pipeline/pipeline.producer.ts:138-147 | The job's retention is below the sweep interval iff the interval exceeds five seconds |
| PipelineProducer.TtlIsHalfTheInterval | src/pipeline/pipeline.producer.ts:142-147 | Half the interval in whole seconds, never less than five |
| PipelineProducer.Producer.Enqueue | src/pipeline/pipeline.producer.ts:44-54 | The job id is the key; a held id keeps its job, else a live job with this data is added and nothing else changes |
| PipelineProducer.Producer.EnqueueReplay | src/pipeline/pipeline.producer.ts:56-72 | The same under an id that carries the dead letter, as the job's data does |
| PipelineProducer.Producer.EnqueueUpgrade | src/pipeline/pipeline.producer.ts:81-94 | The same under an id that carries the attempt, 1 when none is given |
| PipelineProducer.Producer.EnqueueReconcile | src/pipeline/pipeline.producer.ts:112-136 | A failed job is removed first and replaced by a live one with this data, any other held job stays; true only where no job was held; by where the call throws |
| PipelineProducer.ReconcileSweeper.Sweep | src/pipeline/reconcile.sweeper.ts:62-121 | A row that throws stops no other; every row whose add is reached ends with a job that has not failed; every new job carries its row's key, ticket and event; the count is the ids added unless a throw hid an add or lost a failed job |
| JobIds.ParseRender | src/pipeline/pipeline.producer.ts:44-135 | Every job id issued for an accepted key can be read back from its text |
| JobIds.JobIdsInjective | src/pipeline/pipeline.producer.ts:44-135 | The four id forms are disjoint and each is injective |
| JobIds.EveryIssuedIdIsAccepted | src/events/events.service.ts:19-43 | No issued id looks like an integer, and one with a colon splits into exactly three parts |
| JobIds.UsableIff | src/events/events.service.ts:30-43 | A key is accepted iff it is well formed, at most 255 characters and not all digits |
| JobIds.HashKeyUsableIff | src/events/events.service.ts:75-85 | A payload hash can serve as the key iff one of its 64 hexadecimal digits is a letter |
| JobIds.RenderedParts | src/pipeline/pipeline.producer.ts:44-135 | The parts of each of the four id forms, literally |
| JobIds.DecimalIsBaseTen | src/pipeline/pipeline.producer.ts:86 | The upgrade attempt is written in base ten |
| JobIds.DedupKeyParts | src/outbox/outbox.service.ts:33-35 | The four parts of a dedup key, in order |
| JobIds.DedupKeysInjective | src/outbox/outbox.service.ts:26-35 | Dedup keys agree iff all four components do, when none holds a colon |
| JobIds.DedupKeysInjectiveIff | src/outbox/outbox.service.ts:26-35 | Dedup keys are injective over all components whose colons are confined to given places iff there is at most one such place |
| JobIds.ColonsCollide | src/outbox/outbox.service.ts:33-35 | For any two components that may hold a colon, two different effects share a key |
| CanonicalHash.CanonicalIffSameContent | src/common/hash/canonical-hash.ts:3-22 | Canonical forms are equal iff the values are equal up to member order at every depth, leaving out members named `__proto__` |
| CanonicalHash.CanonicalSameContent | src/common/hash/canonical-hash.ts:9-22 | The canonical form has unique names and the content of the original |
| CanonicalHash.CanonicalizeIdempotent | src/common/hash/canonical-hash.ts:9-22 | Canonicalizing twice changes nothing |
| CanonicalHash.SameHashIff | src/events/events.service.ts:73-82 | Two submissions share a request hash iff every field agrees, metadata up to content |
| CanonicalHash.ProtoIsNotHashed | src/common/hash/canonical-hash.ts:14-19 | A member named `__proto__` is not hashed |
| Backoff.DelayBounds | src/common/backoff/backoff.ts:19-27 | The delay is at least half the ceiling, below a positive ceiling and never negative |
| Backoff.DelayBoundsTight | src/common/backoff/backoff.ts:19-27 | Both ends of that range are reached |
| Backoff.CeilingMonotone | src/common/backoff/backoff.ts:23-25 | The ceiling grows with the attempt and stays within the cap |
| Backoff.CeilingDoubles | src/common/backoff/backoff.ts:23-25 | The ceiling starts at the base and doubles with every attempt until it meets the cap |
| Backoff.DelayInWindow | src/common/backoff/backoff.ts:19-27 | The delay after n earlier failures lies between half of and all of the base doubled n times, or of the cap |
| Backoff.DelayFollowsDraw | src/common/backoff/backoff.ts:26 | The delay is the floor of (1 + draw) times half the ceiling |
| Backoff.HalfCeilingsClosed | src/outbox/outbox.relay.ts:190-192 | The half ceilings of n attempts sum to base/2 + base(2^(n-1) - 1) while the cap is not reached |
| Backoff.OneMoreDelay | src/common/backoff/backoff.ts:19-27 | n delays in a row sum to between the half ceilings and base(2^n - 1): the bound is kept by one more delay, for any cap |

## Left out

- HTTP controllers, DTO validation, rate limiting, the landing page, the demo sink and the health probes.
- The model client, the breaker's own states, prompts and the keyword rules of the fallback: each call is an oracle's answer.
- Metrics, logging, correlation ids, environment parsing, and the timers and jitter that start a poll or a sweep.
- The subject, body and requester columns of tickets, and the error texts of outbox rows and dead letters: no branch reads them.
- The order of strings is by character code; the engine's is by UTF-16 code unit. Only that it is a total order matters to the hash. Cyclic, non-JSON and non-finite values are not payloads here.
- Uuids are numbers in the machines and colon-free text in the id grammar.
- The ticket row is split by writer: its event in `Ingestion`, its enrichment in `TicketPipeline`; the outbox row likewise between `TicketPipeline` and `OutboxRelay`. `Engine` ties the halves together.
- The pipeline machine lets a worker start on any ticket at any time instead of following the queue; that covers retries, upgrades, replays, reconciles and stalled jobs run twice, so the safety results hold for all of them. Job lifetimes are in `UpgradeChain` and `PipelineProducer`.
- Dead letters are not part of the `Engine` state: they share no row with the other tables, and a replay reaches the rest only by starting a worker.
- The decision whether a failed job is dead-lettered (`isTerminalFailure`, `onFailed`), the dead-letter listing and the admin endpoints.
- The query that selects stranded tickets for the reconcile sweep: its rows are an input of the pass.
- The delay of a scheduled upgrade and of a retried job: the machines let a job run at any later time.
- Ingestion.NeverWedged: speaks of an uncontended caller whose transaction commits and whose enqueue succeeds; while enqueues fail, the key stays re-drivable.
- RelayFairness.DueRowIsClaimed: speaks of one relay whose drains commit. A row due in this very millisecond needs a base of at least 2 ms and no insert in that millisecond; from the next one on, nothing (`OverdueRowIsClaimed`).
- Engine.EngineRefinesSpec: covers sweeps that no caller with a ticket and no announcing worker spans; the condition is exact (`SweepSafety.SweepSafeIff`). Jobs and payloads are not in the specification; `JobAgreement` and `PayloadAgreement` state theirs.
