# RiskFlow verification model

A Dafny model of RiskFlow, the at-least-once payment-risk pipeline: idempotent payment creation with an
outbox row, publishers that claim rows with `SKIP LOCKED`, Kafka, a Redis-backed risk worker, Kafka again, a
transactional decision consumer, manual review, a reconciler, a dashboard and streaming metrics. The proofs are
about all runs: crashes, duplicates, lost acknowledgements and interleaved workers.

## How the model is laid out

- `Text`, `Domain`, `Counting`: strings and bytes, the values and tables, cardinalities.
- `Validation`, `Fingerprint`, `Creation`, `Service`: accepting a payment request once.
- `Ledger`, `LedgerInvariant`, `Database`: the four transactions as atomic steps, what each keeps, and the
  repositories as classes over mutable tables proved equal to the atomic steps.
- `Interleaving`, `Serial`, `Reviews`: the same transactions statement by statement under READ COMMITTED, and
  what concurrent callers are told.
- `EventContract`, `ContractFields`, `Deliveries`, `Handling`: the decision consumer, its contract, repeats, the
  offset loop, and what becomes of a record.
- `Features`, `FeatureExpiry`, `Scoring`, `DecisionContents`, `RiskWorker`: the Redis scripts, their key expiry,
  rules, model policy, what a decision says, and the loop.
- `Kafka`, `Pipeline`, `PipelineInvariant`: the whole system as one state machine, and its invariant.
- `PipelineSafety`, `PipelineSteady`, `PipelineFeatures`, `PipelineStuck`: the theorems over runs: in all of them,
  while a source event's cached decision lasts, while feature keys last, and once a record cannot be handled.
- `PipelineAlone`: the steps of one process, uninterrupted, against its service.
- `PipelineWitness`, `PipelineFatal`: states and one whole run that show the limits are real.
- `Reconciliation`, `Dashboard`: the queries and what they can report.
- `Backoff`, `OutboxStore`, `OutboxScheduler`: retry delays, claims, terminal states, bounded waiting.
- `Metrics`, `MetricContents`: observations, mergeable summaries, batch overwrite, re-aggregation, and what the
  stored rows say.

`dafny verify dfyconfig.toml` checks everything.

## Assumptions

- SHA-256 is injective: a digest is modelled by the value it digests.
- A name-based UUID (section 5.5 of RFC 9562) is injective on its name; random UUIDs (section 5.4) are drawn
  from a counter and never repeat. The two kinds differ in their version digits.
- Consumer groups start from the earliest record; the application and the database share one clock, which does
  not go back; clocks never show the zero time.
- The model probability lies in [0, 1]; the model artifact guarantees its threshold and a version that is not blank.
- Other producers may write to both topics, but only records that the services cannot parse.
- JSON marshalling is injective, so events are datatypes. Times are integers (microseconds in the pipeline,
  milliseconds in Redis, nanosecond durations on 64 bits in the publisher).
- Environment readers have validated the settings; the inequalities they check appear as `ValidSettings` and
  `ValidConfig`, retry bounds as `0 < min <= max`.
- Claiming an outbox row is one step: the row is the first due free one of the tables at the moment it is locked.
  Under READ COMMITTED a row that failed and fell due again between a claim's snapshot and its lock would be
  re-checked in its new version and could be claimed out of order.
- PostgreSQL reads a UUID as 32 hex digits with at most one hyphen between groups of four.
- The reconciler's queries answer sets of rows: the queue has at most one row per decision (a unique column).

## Where the code is weaker than its promises

- A decision record that parsed and was rejected cannot be handled again (`RejectedForever`): a consumer that
  loses the offset commit after such a rejection never gets past the record, while
  docs/decision-persistence.md describes redelivery as harmless. `DecisionWorker.Run` and `StuckForever` say so
  over runs, and `StuckIsReachable` gives a run from the empty system.
- A decision record without a value can never be rejected, so it blocks its partition for good
  (`TombstoneBlocks`, `TombstonesBlock`).
- The producer bounds the model version by 255 characters, the consumer by 255 bytes. A decision meets the
  consumer contract exactly when the label fits in bytes (`ProducerMeetsContract`, `AcceptedByProducerOnly`).
- The consumer accepts UUID texts with surplus hyphens in even number (`UuidAcceptance`, `SurplusHyphensAccepted`).
  PostgreSQL does not, with an error that counts as temporary: an event with such a payment id is retried
  without end (`StallsExactly`, `StalledIsHopeless`, `DecisionWorker.Run`).
- The settings check compares the velocity window with the time-to-live of the event cache
  (services/risk-service/src/risk_service/config.py:92), while the sorted sets live for the other one, the
  feature state. Expiry is harmless exactly when that one covers window, lag and lead (`HarmlessExactly`).
- An outbox row is stamped with the start of its inserting transaction, so a row may become visible behind
  younger ones and still be claimed before them (`OpenCreateOvertakes`).
- "A worker's record is never rejected" needs the cached decision of its source event to last. Without that
  assumption `WorkerRecordFate` gives the exact condition, `ExpiredCacheBreaks` the states that meet it, and the
  run of `StuckIsReachable` reaches one.
- A refused Apply may report another refusal than the serial run would: which one its statements meet first
  decides the rejection code (`StatementExplains`, predicate `AnswerFits`).
- An evicted sorted-set entry is gone for good, so an out-of-order event can report less than the history
  holds; `VelocityAgainstHistory` says exactly when.

## Model

| member | source | states |
|---|---|---|
| Text.TrimSpaceTrims | services/payment-api/internal/payment/validation.go:11-20 | trimming leaves text without white space at either end and leaves such text alone |
| Text.TrimSpaceKeeps | services/payment-api/internal/payment/validation.go:11-20 | what trimming drops is white space at the two ends, and nothing else |
| Text.Utf8Injective | services/payment-api/internal/payment/fingerprint.go:30-37 | different strings have different UTF-8 bytes, so lengths measured in bytes prefix unambiguous values |
| Text.DecimalRoundTrip | services/payment-api/internal/payment/fingerprint.go:30-37 | the decimal length prefix can be read back |
| LedgerInvariant.RecordedKeeps | services/payment-api/internal/decision/postgres_store.go:115-210 | the writes of a first acceptance keep payments and outbox in bijection, one decision per payment and per source event, the status owed to each decision, queue rows for exactly the REVIEW decisions, the audit rows and one APPLIED receipt per decision |
| LedgerInvariant.ApplyKeeps | services/payment-api/internal/decision/postgres_store.go:37-210 | every outcome of Apply keeps that invariant |
| LedgerInvariant.RejectKeeps | services/payment-api/internal/decision/postgres_store.go:213-261 | every outcome of Reject keeps it |
| LedgerInvariant.ResolveKeeps | services/payment-api/internal/review/postgres_repository.go:44-114 | every outcome of a manual resolution keeps it; a manual audit row exists exactly for resolved queue rows, in the matching kind |
| LedgerInvariant.CreateKeeps | services/payment-api/internal/payment/postgres_repository.go:25-80 | every outcome of Create keeps it, and the unique idempotency key |
| Database.Database.Apply | services/payment-api/internal/decision/postgres_store.go:37-210 | the statement sequence on mutable tables, with rollback, leaves exactly the tables and the result of the atomic specification ApplyTx |
| Database.Database.Reject | services/payment-api/internal/decision/postgres_store.go:213-261 | the same for RejectTx; a null value fails the receipt shape check |
| Database.Database.InsertReceipt | services/payment-api/internal/decision/postgres_store.go:286-321 | on conflict nothing is written and the stored receipt decides whether the caller fails |
| Database.Database.LoadReceipt | services/payment-api/internal/decision/postgres_store.go:263-284 | missing, found with its disposition, or stored with another digest |
| Database.Database.Resolve | services/payment-api/internal/review/postgres_repository.go:44-114 | the conditional update, payment update and audit insert leave exactly what ResolveTx specifies, or nothing; Reviews.ResolvedExactly says field by field what that is |
| Database.Database.CurrentConflict | services/payment-api/internal/review/postgres_repository.go:127-142 | not found, already resolved, or version conflict, from the current row |
| Database.Database.Create | services/payment-api/internal/payment/postgres_repository.go:25-80 | insert-on-conflict plus outbox insert leave exactly what CreateTx specifies |
| Interleaving.StatementKeeps | services/payment-api/internal/decision/postgres_store.go:47-210 | each statement of Apply, Reject, Resolve or Create re-establishes what the transaction may rely on: what it locked and the index entries it holds; it waits for another only when the committed tables do not already decide it |
| Interleaving.CommitIsAlone | services/payment-api/internal/decision/postgres_store.go:204-210 | a transaction that may commit leaves the tables, and reports the result, of its atomic specification run on the tables at commit time |
| Interleaving.NoOrphan | services/payment-api/internal/decision/postgres_store.go:286-321 | a first acceptance never finds an accepted receipt at its own coordinate when it inserts one |
| Interleaving.Stable | services/payment-api/internal/decision/postgres_store.go:66-73 | what a transaction relies on survives the commit of any other whose keys are disjoint |
| Interleaving.StatementExplains | services/payment-api/internal/decision/postgres_store.go:47-210 | a statement that sends its caller back answers what the atomic run on the tables of that statement would refuse too, with the same error or one of the listed racing ones |
| Interleaving.ResolveRefusalExplained | services/payment-api/internal/review/postgres_repository.go:44-142 | a refused Resolve answers not found, already resolved or version conflict from the row it reads, whatever keys others hold; never a payment state conflict |
| Interleaving.InterleavingsAreSerial | services/payment-api/internal/decision/postgres_store.go:47-210 | every READ COMMITTED interleaving of any number of Apply, Reject, Resolve and Create transactions, with aborts anywhere, leaves the tables of the committed ones run one by one in commit order; every committed caller gets the serial answer, and every caller sent back an answer explained at its deciding statement |
| Serial.PaymentsStayOn | services/payment-api/internal/payment/postgres_repository.go:122-151 | in any serial run a stored payment keeps everything but its status |
| Creation.Create | services/payment-api/internal/payment/service.go:37-106 | validation first, then the payment with its single event goes to the repository; result and tables are those of the specification, whose contents Service.RefusedCall, NewPaymentStores and SecondCall give |
| Creation.CreateTells | services/payment-api/internal/payment/postgres_repository.go:49-62 | one create call is answered by the payment stored under its key: same request, its id; other request, a conflict |
| Creation.NoClashOfIds | services/payment-api/internal/payment/service.go:64-106 | when the random ids are fresh no create call ever fails on a clash of ids, in any interleaving |
| Creation.CreationIsIdempotent | services/payment-api/internal/payment/postgres_repository.go:25-80 | under any interleaving every key has one payment and one outbox row; with fresh ids, calls with an equal normalized request were told that payment id, all others a conflict, the losing calls by the row their SELECT read |
| Service.RefusedCall | services/payment-api/internal/payment/service.go:37-46 | a refused call changes nothing and is told the rule its key breaks, or else exactly the offending fields of the normalized request, each with its problem |
| Service.NewPaymentStores | services/payment-api/internal/payment/service.go:64-106 | an accepted call under an unused key stores one payment, under the trimmed key, with a fingerprint that agrees exactly with those of equal normal forms, and one event about it that is due at once; nothing else changes |
| Service.SecondCall | services/payment-api/internal/payment/postgres_repository.go:49-62 | whatever ran in between, a second call under a key with the same trimmed text replays the first payment if and only if the normalized requests agree, and is a conflict otherwise |
| Service.ServiceIsIdempotent | services/payment-api/internal/payment/service.go:37-106 | under any interleaving from an empty database, with every create started by the service and no premise on fingerprints: each key has one payment, and each caller was told its id exactly when the normalized requests agree, else a conflict |
| Reviews.NoStateConflict | services/payment-api/internal/review/postgres_repository.go:72-78 | the payment-state conflict is unreachable: a PENDING queue row implies payment REVIEW |
| Reviews.ResolvedExactly | services/payment-api/internal/review/postgres_repository.go:44-114 | one resolution in consistent tables: not found, already resolved at version 2, version conflict at 1, or the queue row, payment status and audit row written field by field, the reviewer being the actor; only a clash of the random audit id can prevent it |
| Reviews.SystemRow | services/payment-api/internal/decision/postgres_store.go:168-190 | every recorded decision has its audit row, under its id, by the consumer, at the time it was decided |
| Reviews.ReviewsAreExclusive | services/payment-api/internal/review/postgres_repository.go:44-142 | for any concurrent reviewers at most one resolution per payment succeeds; it stands with version 2, the matching payment status and exactly one manual audit row; everyone answered later is told already resolved at version 2, every other refusal names the current row, and nobody is told of a payment state conflict |
| Deliveries.HandleKeeps | services/payment-api/internal/decision/worker.go:180-218 | handling any record keeps the ledger invariant |
| Deliveries.HandledHasReceipt | services/payment-api/internal/decision/worker.go:180-218 | handling succeeds only by leaving a receipt of that very record |
| Deliveries.HandlingAgain | services/payment-api/internal/decision/worker.go:180-231 | after a success, handling again changes nothing, and succeeds if and only if the record did not parse or was not rejected |
| Deliveries.RejectedForever | services/payment-api/internal/decision/postgres_store.go:53-65 | a record that parsed and was rejected fails on every later attempt, whatever runs in between, and changes nothing |
| Deliveries.TombstoneBlocks | database/migrations/000003_risk_decision_persistence.up.sql:46-62 | a record without a value is never handled unless its coordinate already holds a rejected receipt of an empty value |
| Deliveries.DuplicatesTouchOnlyReceipts | services/payment-api/internal/decision/postgres_store.go:53-113 | dropping from any run every delivery of an event after its first application leaves payments, outbox, decisions, audits and reviews as they are |
| Deliveries.DecisionWorker.HandleRecord | services/payment-api/internal/decision/worker.go:180-218 | the calls on the store amount to the specification Handle, whose outcome Handling.HandledExactly and FirstReceipt give |
| Handling.HandledExactly | services/payment-api/internal/decision/worker.go:180-231 | an attempt on any record, in consistent tables, succeeds if and only if the coordinate is real, holds no receipt of another value, the record is not one that no attempt can handle, and no manual audit row happens to have the id of the decision |
| Handling.FirstReceipt | services/payment-api/internal/decision/worker.go:180-231 | what the first success leaves, read from record and tables alone: an unparsable value is quarantined as an invalid event; an unknown payment, another event on record under the decision id or the source, and a payment that has moved on each get their rejection code; a known event is replayed; any other is applied, with every row it writes |
| Deliveries.DecisionWorker.Attempt | services/payment-api/internal/decision/worker.go:109-134 | an attempt handles the record as specified, keeps every earlier receipt, and a handled record has one |
| Deliveries.HopelessFails | services/payment-api/internal/decision/worker.go:180-231 | no attempt handles a parsed record that is quarantined or whose payment id PostgreSQL does not take, or a tombstone that is not quarantined |
| Deliveries.StalledIsHopeless | services/payment-api/internal/decision/worker.go:180-231 | an encoded event on the stalling route is such a record: it fails on every attempt, stores nothing and is not quarantined |
| Deliveries.DecisionWorker.Run | services/payment-api/internal/decision/worker.go:79-170 | through poll failures, database outages, lost and unacknowledged commits the loop does what its specification Looping does: every record below the committed offset has a receipt; a run that starts at a record no attempt can handle neither moves the offset nor changes the tables |
| Deliveries.HealthyRun | services/payment-api/internal/decision/worker.go:79-170 | without faults and with as many attempts as records the whole log is committed if and only if every record is handled in its turn |
| Deliveries.CommitFaults | services/payment-api/internal/decision/worker.go:132-141 | a record that is handled stays handled when its commit fails; the offset has moved exactly if the commit landed, and the run ends in error |
| EventContract.UuidAcceptance | services/payment-api/internal/decision/event.go:223-233 | the consumer accepts exactly the framed 36-character texts of hex digits and hyphens with an even number of hyphens; the payment API exactly the canonical ones |
| EventContract.UuidNormalForm | services/payment-api/internal/decision/event.go:223-233 | the consumer normal form is a canonical UUID if and only if there is no surplus hyphen |
| EventContract.SurplusHyphensAccepted | services/payment-api/internal/decision/event.go:223-233 | a text with six hyphens is accepted although it is no UUID |
| EventContract.CastsExactly | services/payment-api/internal/decision/postgres_store.go:67-74 | PostgreSQL takes a normalized id as a UUID exactly when its raw text has the four framing hyphens only |
| EventContract.StallsExactly | services/payment-api/internal/decision/worker.go:180-231 | an event is neither quarantined nor looked up exactly when it meets the contract and its payment id has surplus hyphens |
| EventContract.EncodedEventStalls | services/payment-api/internal/decision/postgres_store.go:67-74 | an encoded event takes that route exactly when it meets the contract and its payment id is no UUID |
| EventContract.StallingEventStalls | services/payment-api/internal/decision/event.go:146-233 | a concrete event of that kind |
| EventContract.NormalizeAndValidate | services/payment-api/internal/decision/event.go:146-221 | the rewriting and checking loop returns the normal form exactly when the normal form satisfies the contract |
| EventContract.EncodedEventsParse | services/risk-service/src/risk_service/models.py:76-115 | an event a producer encoded is its own normal form, and parses back to itself exactly when the typed contract holds |
| EventContract.EncodingInjective | services/payment-api/internal/decision/event.go:134-144 | equal encodings mean equal events, so repeats have equal fingerprints and changes do not |
| ContractFields.NumbersMatter | services/payment-api/internal/decision/event.go:176-221 | of an event that meets the contract, with any other schema version, scores, probability, threshold and velocity: it meets it exactly within their bounds |
| ContractFields.AddressesMatter | services/payment-api/internal/decision/event.go:176-221 | the same for its ids and times: the envelope repeats decision and payment, and the three times are one, not zero |
| ContractFields.WordsMatter | services/payment-api/internal/decision/event.go:176-221 | the same for its reasons, version labels and country, character by character |
| ContractFields.PaddingIsOverlooked | services/payment-api/internal/decision/event.go:146-174 | normalization gives the event that differs in white space around texts and in the case of ids only, and exactly the events with such ids have one |
| Reconciliation.NoContradictions | services/payment-api/internal/decision/reconciliation.go:112-204 | in consistent tables none of the four contradiction queries returns a row |
| Reconciliation.SilenceMeansConsistency | services/payment-api/internal/decision/reconciliation.go:112-204 | the converse: silence of the four queries means one decision per payment, the owed statuses, and queue rows for exactly the REVIEW decisions |
| Reconciliation.MissingExactly | services/payment-api/internal/decision/reconciliation.go:113-130 | in consistent tables a decision is missing exactly for a payment that still waits for one, was created by the cutoff and has been announced |
| Reconciliation.RepeatsExactly | services/payment-api/internal/decision/reconciliation.go:143-153 | a decision is reported as delivered n times exactly when n receipts, two or more, name it |
| Reconciliation.ExceptionsName | services/payment-api/internal/decision/reconciliation.go:112-204 | whatever the tables hold, each exception names its payment, its decision or its coordinate, and the number it reports is the size of the group |
| Reconciliation.Run | services/payment-api/internal/decision/reconciliation.go:53-81 | the report lists every exception the seven queries find in the tables, each once, and counts them |
| Reconciliation.CodeIsQuery | services/payment-api/internal/decision/reconciliation.go:112-204 | the exceptions of a code are exactly the answer of the query of that code |
| Reconciliation.Count | services/payment-api/internal/decision/reconciliation.go:83-110 | the count of each code is the size of its query on the tables, and the total is the length of the report for the same tables |
| Dashboard.SnapshotAddsUp | services/payment-api/internal/dashboard/postgres_repository.go:153-191 | status counts sum to total; decisions equal total minus pending; pending reviews equal REVIEW payments; allowed equals ALLOW plus approved; blocked equals BLOCK plus rejected; failed is zero |
| Dashboard.OutboxAddsUp | services/payment-api/internal/dashboard/postgres_repository.go:184-191 | pending, published and dead-lettered outbox rows sum to the payments; retrying rows are pending |
| Dashboard.CountedAs | services/payment-api/internal/dashboard/postgres_repository.go:153-191 | a new receipt is counted as rejected, a new outbox row as pending, retrying or dead, exactly when it is; empty tables count nothing; a limit outside 1-100 is refused |
| Validation.NormalizeAndValidate | services/payment-api/internal/payment/validation.go:11-41 | a request comes back normalized exactly when it is valid; otherwise exactly the offending fields are named with their problems |
| Validation.ProblemsDecide | services/payment-api/internal/payment/validation.go:21-40 | no problem is found exactly in the valid requests |
| Validation.NormalizeIdempotent | services/payment-api/internal/payment/validation.go:11-20 | normalizing twice is normalizing once |
| Validation.RequestBounds | services/payment-api/internal/payment/validation.go:21-40 | the valid requests are those whose texts have 1-255 characters, whose amount is positive and whose codes are three and two letters of the upper-case alphabet |
| Validation.NormalizeKey | services/payment-api/internal/payment/validation.go:43-58 | the trimmed key, or which rule it breaks |
| Validation.IsUpperAscii | services/payment-api/internal/payment/validation.go:70-81 | byte length and every character decide |
| Fingerprint.CanonicalInput | services/payment-api/internal/payment/fingerprint.go:18-28 | the builder writes the length-prefixed fields in order |
| Fingerprint.ReadUndoesWrite | services/payment-api/internal/payment/fingerprint.go:30-37 | a written field can be read back whatever it holds and whatever follows |
| Fingerprint.DecodeUndoesCanonical | services/payment-api/internal/payment/fingerprint.go:18-37 | decoding the canonical input of any request gives back its fields |
| Fingerprint.CanonicalInjective | services/payment-api/internal/payment/fingerprint.go:18-37 | canonical inputs agree exactly when the requests agree |
| Fingerprint.FingerprintsOfNormalForms | services/payment-api/internal/payment/fingerprint.go:12-16 | fingerprints of accepted requests agree exactly when their normal forms do, and resending a normal form changes nothing |
| Features.FeatureStore.ObserveEvent | services/risk-service/src/risk_service/features.py:24-57 | the script on sorted set, device set, baseline and snapshot keys does what the specification Observe says |
| Features.FeatureStore.Save | services/risk-service/src/risk_service/features.py:59-66 | the first decision saved for a source event wins |
| Features.RepeatsChangeNothing | services/risk-service/src/risk_service/features.py:24-30 | any sequence of observe calls leaves the store that its first calls per event leave |
| Features.RepeatsReturnTheSame | services/risk-service/src/risk_service/features.py:24-30 | every repeat returns the snapshot of the first call |
| Features.VelocityCounts | services/risk-service/src/risk_service/features.py:32-36 | the velocity is the number of calls in the window whose entry no later call evicted or replaced |
| Features.VelocityAgainstHistory | services/risk-service/src/risk_service/features.py:32-36 | velocity is at least 1, at most the naive count over history, and equal to it if and only if nothing in the window was evicted |
| Features.VelocityInOrder | services/risk-service/src/risk_service/features.py:32-36 | it equals the naive count when event times never go back |
| Features.DeviceAndCountry | services/risk-service/src/risk_service/features.py:38-45 | a device is new exactly when no earlier call of the customer had it; the baseline is the country of the first call |
| FeatureExpiry.ExpiryHarmless | services/risk-service/src/risk_service/features.py:24-57 | if events are observed at most a lag after and a lead before their time, and the feature keys live at least as long as window, lag and lead together, every velocity is the one of a store without expiry |
| FeatureExpiry.HarmlessExactly | services/risk-service/src/risk_service/features.py:53-55 | that bound on the time-to-live is exact: below it some two calls within the lag and the lead return a velocity that expiry changed |
| Scoring.Evaluate | services/risk-service/src/risk_service/rules.py:22-60 | the accumulating evaluation returns the sum of the raised signals points, capped, with verdict and reasons |
| DecisionContents.RulePoints | services/risk-service/src/risk_service/rules.py:22-60 | the score is the sum of the points of the signs of the payment, 100 at most, and the verdict follows from the two thresholds |
| Scoring.RulesMonotone | services/risk-service/src/risk_service/rules.py:22-60 | more risk never lowers the score or softens the verdict |
| Scoring.ReasonsExplain | services/risk-service/src/risk_service/rules.py:26-60 | the reasons name exactly the raised signals; NO_RISK_SIGNALS stands alone, exactly when the score is 0 |
| Scoring.ReasonList | services/risk-service/src/risk_service/processor.py:71-77 | the reasons loop drops the placeholder and adds the model reasons |
| Scoring.Policy | services/risk-service/src/risk_service/processor.py:63-90 | BLOCK exactly by the rules; ALLOW exactly when the rules allow and an available model is below threshold; the model never softens a verdict; the fallback score is at least the review threshold |
| DecisionContents.Scores | services/risk-service/src/risk_service/processor.py:84-94 | the risk score is the larger of rule score and model score, and without a model the larger of rule score and review threshold; both scores are reported as they were given |
| DecisionContents.ReasonsInOrder | services/risk-service/src/risk_service/processor.py:71-77 | the whole list of reasons from payment, snapshot and model: the texts of the signs seen, in the order of the rules, then those of the model; the placeholder alone when there is none |
| DecisionContents.RoundsToMillionths | services/risk-service/src/risk_service/processor.py:96 | the reported probability is the nearest millionth, the even one of two |
| DecisionContents.Identity | services/risk-service/src/risk_service/processor.py:79-113 | whose decision it is, what it was made with, and when: every id, version, threshold and time of the envelope |
| DecisionContents.ParsedExactly | services/risk-service/src/risk_service/models.py:19-54 | a payments record is read exactly when it is a version 1 event that names its payment twice alike with fields that are valid once stripped, and only white space is lost |
| Scoring.AnnouncedEventParses | services/risk-service/src/risk_service/models.py:19-54 | the risk service reads an event announcing a normalized valid request exactly as it was written |
| Scoring.ProducerMeetsContract | services/risk-service/src/risk_service/models.py:76-115 | a built decision satisfies the consumer contract if and only if its stripped version label has at most 255 UTF-8 bytes |
| Scoring.AcceptedByProducerOnly | services/risk-service/src/risk_service/models.py:12 | a label of 128 two-byte characters passes the producer and fails the consumer |
| Scoring.DecisionNameInjective | services/risk-service/src/risk_service/processor.py:81-84 | the decision name determines model version and source event, whatever the version contains |
| Scoring.Process | services/risk-service/src/risk_service/processor.py:40-113 | load, observe, evaluate, score and save amount to the specification Processed |
| Scoring.ProcessedTwice | services/risk-service/src/risk_service/processor.py:41-43 | once a decision is cached, clock, model and settings no longer matter and nothing changes |
| DecisionContents.FreshDecision | services/risk-service/src/risk_service/processor.py:40-113 | an event seen for the first time is observed with the customer, device and country of its payment, decided at the time of the call, and cached; a model version that is blank or too long gives none |
| RiskWorker.RiskWorker.Handle | services/risk-service/src/risk_service/kafka_worker.py:124-161 | the attempt does what its specification Attempted does; whatever fails, the position moves only past a record answered by a decision or a quarantine record |
| RiskWorker.RiskWorker.CommitOffset | services/risk-service/src/risk_service/kafka_worker.py:208-229 | a commit may land without its acknowledgement; only an acknowledged one moves on |
| RiskWorker.AttemptMoves | services/risk-service/src/risk_service/kafka_worker.py:124-161 | position and offset move, and one record is written, exactly when the record can be answered and the environment lets the produce call and the commit through |
| RiskWorker.RiskWorker.Run | services/risk-service/src/risk_service/kafka_worker.py:104-122 | at any moment all records below offset and position are answered, and all decisions written for one source event are equal |
| PipelineInvariant.StepKeeps | services/risk-service/src/risk_service/kafka_worker.py:124-229 | every step of the whole system keeps the pipeline invariant: tables, topics, cache, worker and consumer sessions, offsets |
| PipelineInvariant.Reachable | services/payment-api/internal/decision/worker.go:79-170 | the invariant holds in every reachable state |
| PipelineInvariant.CreateStepKeeps | services/payment-api/internal/payment/service.go:37-106 | creation with fresh ids keeps it |
| PipelineInvariant.PublishStepKeeps | services/risk-service/src/risk_service/kafka_worker.py:139-148 | a produce call that may land unacknowledged keeps it |
| PipelineInvariant.ApplyStepKeeps | services/payment-api/internal/decision/worker.go:180-218 | a transaction that may commit unnoticed keeps it |
| PipelineSafety.NoContradictionReachable | services/payment-api/internal/decision/reconciliation.go:112-204 | in every reachable state, key expiry included, the reconciler reports no DUPLICATE_DECISION, PAYMENT_STATUS_MISMATCH, REVIEW_QUEUE_MISSING or UNEXPECTED_REVIEW_QUEUE |
| PipelineSafety.SnapshotsAddUp | services/payment-api/internal/dashboard/postgres_repository.go:22-62 | the dashboard sums hold in every reachable state |
| PipelineSafety.WorkerRecordFate | services/payment-api/internal/decision/worker.go:180-231 | in every reachable state a record a risk worker wrote is rejected exactly when its label is too wide or another decision for its source event is on record; otherwise it is applied or replayed |
| PipelineSafety.NothingLost | services/risk-service/src/risk_service/kafka_worker.py:124-229 | every record below a committed risk offset has a decision or quarantine record; every record below a committed decision offset has a receipt of exactly that record |
| PipelineSteady.OneDecisionPerSource | services/risk-service/src/risk_service/processor.py:40-113 | while the cached decision of a source event does not expire, whatever else expires and however wide the label, all decision records for that event are identical |
| PipelineSteady.NeverRejected | services/risk-service/src/risk_service/processor.py:40-113 | under the same condition a record for the event never ends REJECTED, and handling it succeeds, if and only if its version label fits 255 bytes |
| PipelineSteady.CommittedMeansDecided | services/payment-api/internal/decision/worker.go:79-170 | under the same condition the event, once below the committed risk offset, has a decision record, and any of its fitting records below the committed decision offset means its payment has left PENDING_RISK |
| PipelineStuck.StuckForever | services/payment-api/internal/decision/worker.go:79-170 | from any state satisfying the invariant in which a parsed record is REJECTED and no consumer is past it or in the middle of handling it, no run whatever moves the committed offset or any session beyond it |
| PipelineStuck.RefusingSessionPasses | services/payment-api/internal/decision/postgres_store.go:213-261 | the second half of that condition is needed: a session already rejecting the record gets past it |
| PipelineStuck.TombstonesBlock | database/migrations/000003_risk_decision_persistence.up.sql:46-62 | in every reachable state a tombstone has no receipt, and neither offset nor session of its partition is past it |
| PipelineFeatures.StateMovedOncePerEvent | services/risk-service/src/risk_service/features.py:24-57 | while feature keys last, crashes, redeliveries and rival workers leave the customer state of observing each source event once |
| PipelineFeatures.PublishedVelocity | services/risk-service/src/risk_service/features.py:24-57 | every published decision carries the snapshot of its first observation; its velocity is between 1 and the number of payments scored in the window, and equal to it exactly when none was evicted |
| PipelineFeatures.PublishedDevice | services/risk-service/src/risk_service/features.py:38-45 | in every published decision the device is new exactly when no payment of the customer scored before used it, and the baseline is the country of the first |
| PipelineAlone.ConsumerAlone | services/payment-api/internal/decision/worker.go:101-170 | the four moves of a consumer on a record, uninterrupted, are one call of handle: its tables, and session and offset one further exactly when it succeeds |
| PipelineAlone.WorkerAlone | services/risk-service/src/risk_service/kafka_worker.py:124-161 | the moves of a risk worker on a record, uninterrupted, are one call of the service: an unparsable record to the invalid topic, any other to the processor and its decision to the topic; session and offset move on then and only then |
| PipelineAlone.PublisherAlone | services/payment-api/internal/outbox/postgres_store.go:39-103 | the moves of a publisher on a row are those of the outbox store: an event that can be sent is appended and marked, a failure is retriable exactly for such an event |
| PipelineAlone.CreateAlone | services/payment-api/internal/payment/service.go:37-106 | a create move leaves the tables that the call of the service leaves |
| PipelineWitness.RejectedIsReachable | services/payment-api/internal/decision/reconciliation.go:197-204 | a run that ends with a REJECTED_DECISION_EVENT |
| PipelineWitness.MissingIsReachable | services/payment-api/internal/decision/reconciliation.go:113-130 | a run that ends with a MISSING_DECISION |
| PipelineWitness.SecondRecordIsDuplicate | services/payment-api/internal/decision/reconciliation.go:143-153 | in any consistent tables, handling a second record of an applied decision is reported as DUPLICATE_DELIVERY |
| PipelineWitness.ExpiredCacheBreaks | services/risk-service/src/risk_service/processor.py:41-46 | in any state satisfying the invariant, a worker whose cached decision expired under it publishes a decision of its own; if another is on record, its record is rejected |
| PipelineFatal.StuckIsReachable | services/payment-api/internal/decision/worker.go:79-231 | a concrete run from the empty system ends with DUPLICATE_DELIVERY and REJECTED_DECISION_EVENT, the rejected record being one that parses and fails when handled; after it no further moves whatever get the partition past that record |
| Backoff.DeliveryBackoff | services/payment-api/internal/outbox/postgres_store.go:167-173 | the n-th attempt waits the smaller of min*2^(n-1) and max; no 64-bit value overflows on the way |
| Backoff.NextDoubles | services/payment-api/internal/outbox/worker.go:159-164 | nextBackoff steps from the n-th capped delay to the next |
| Backoff.Run | services/payment-api/internal/outbox/worker.go:77-113 | the loop sleeps the capped delay of the running failure count, the poll interval when idle, and resets on success |
| Backoff.KthFailureSleeps | services/payment-api/internal/outbox/worker.go:77-113 | whatever came before, and from the very start of the loop, the k-th failure in a row sleeps the k-th capped delay |
| Backoff.NextSleep | services/payment-api/internal/outbox/worker.go:77-113 | after any script the next attempt sleeps the delay of its streak, the poll interval, or not at all |
| OutboxStore.PermanentMeansUnsendable | services/payment-api/internal/outbox/event.go:80-106 | an error is permanent exactly for an event that can never be sent, and then nothing was produced |
| OutboxStore.FirstExists | services/payment-api/internal/outbox/postgres_store.go:129-145 | some due free row means exactly one first row |
| OutboxStore.FirstInOrder | services/payment-api/internal/outbox/postgres_store.go:129-145 | the claimed row spelled out: undelivered, due and free, and no other such row has an earlier attempt time, then an earlier creation time, then a smaller id |
| OutboxStore.NthFailureWaits | services/payment-api/internal/outbox/postgres_store.go:79-103 | after n failures in all the attempts are n, and the last one schedules the next attempt min*2^(n-1) later, capped |
| OutboxStore.PostgresStore.Select | services/payment-api/internal/outbox/postgres_store.go:129-145 | the claimed row is the first due free one in (next_attempt_at, created_at, id) order |
| OutboxStore.PostgresStore.RecordFailure | services/payment-api/internal/outbox/postgres_store.go:79-103 | an open row gets one attempt more and the backoff of that number, or is dead-lettered; a terminal row is left alone |
| OutboxStore.PostgresStore.MarkPublished | services/payment-api/internal/outbox/postgres_store.go:147-154 | only an open row is marked |
| OutboxStore.PostgresStore.ProcessNext | services/payment-api/internal/outbox/postgres_store.go:39-77 | claims the first due free row and completes it by what its publish call came to; without one nothing changes |
| OutboxScheduler.StepKeeps | services/payment-api/internal/outbox/postgres_store.go:39-103 | with any number of publishers every step keeps one claim per row, published implies acknowledged, dead-lettered implies never produced, and terminal rows unchanged |
| OutboxScheduler.OneStatePerRow | database/migrations/000002_outbox_delivery_controls.up.sql:5-13 | over every run a row is exactly one of pending, published or dead-lettered, terminal states are never left, and no row has two claims in flight |
| OutboxScheduler.AttemptsCount | services/payment-api/internal/outbox/postgres_store.go:79-103 | in every run the attempts of a row are its committed claims, and a recorded failure that is the n-th of its row over the run schedules min*2^(n-1), capped |
| OutboxScheduler.ClaimIsAhead | services/payment-api/internal/outbox/postgres_store.go:129-145 | while a due row is free, publishers claim it or a row ahead of it |
| OutboxScheduler.BoundedWaiting | services/payment-api/internal/outbox/postgres_store.go:79-103 | until a due free row is claimed, only rows that come before it are claimed: rows ahead of it when it began to wait, or rows that become visible later with an earlier time stamp, that of the start of their inserting transaction; each has at most one of its new claims committed, and every other commit is of a claim then in flight. So, once it is past due, the commits are at most the rows ahead of it then, plus the transactions open then whose rows will be ahead, plus the claims in flight |
| OutboxScheduler.OpenCreateOvertakes | database/migrations/000002_outbox_delivery_controls.up.sql:5-13 | the open transactions do count: of two overlapping creates the later commits first, and the row of the earlier is claimed before its row although nothing was ahead of that one and no claim was in flight |
| Metrics.MergeLaws | services/streaming-analytics/src/streaming_analytics/metrics.py:103-124 | null-aware sums, counts, minima and maxima merge associatively and commutatively |
| Metrics.MetricsSink.WriteBatch | services/streaming-analytics/src/streaming_analytics/metrics.py:161-169 | writing a batch replaces what the batch wrote before |
| Metrics.MetricsSink.Process | services/streaming-analytics/src/streaming_analytics/metrics.py:172-195 | any sequence of writes and retries leaves the specified storage |
| Metrics.StoredIsSurvivors | services/streaming-analytics/src/streaming_analytics/metrics.py:161-169 | after any writes a stored row aggregates exactly the observations of the last write of its batch, and exactly the occurring keys are stored |
| Metrics.ReaggregationIsOneShot | services/streaming-analytics/scripts/inspect_output.py:54-132 | for every split, retry sequence, row selection and reading order, merging the stored deltas equals one aggregation of the surviving observations |
| Metrics.TotalIgnoresOrder | services/streaming-analytics/src/streaming_analytics/metrics.py:103-124 | aggregation does not depend on the order of observations |
| Metrics.BucketsCountDecisions | services/streaming-analytics/src/streaming_analytics/metrics.py:34-70 | each decision is counted once by the rate family and once by the overall buckets, with its score |
| Metrics.BucketHoldsScore | services/streaming-analytics/src/streaming_analytics/metrics.py:48-51 | the labels partition 0-100 and each holds its own bounds |
| MetricContents.SumMeans | services/streaming-analytics/src/streaming_analytics/metrics.py:113-124 | an aggregate holds the number of the selected observations and sum, count, minimum and maximum of their values, null without any |
| MetricContents.StoredRowsTell | services/streaming-analytics/src/streaming_analytics/metrics.py:11-124 | for every key: a batch stores a row exactly when some input row counts for it, read from the key (payments by day, merchant or country, decisions by outcome or bucket, delays by topic, errors by topic and code), and the row aggregates exactly their values |
| MetricContents.BucketLabel | services/streaming-analytics/src/streaming_analytics/metrics.py:48-51 | a label is the decimal text of the bounds of its bucket |
| Metrics.ReportsAgree | services/streaming-analytics/scripts/inspect_output.py:87-108 | the outcome counts and the score buckets of the report both sum to the decisions in the last attempt of every batch |
| Metrics.OutcomesAddUp | services/streaming-analytics/scripts/inspect_output.py:87-97 | the counts of the outcome report over the stored deltas sum to the decisions in the last attempt of every batch, and none is 0, so no rate divides by 0 |
| Metrics.Rates | services/streaming-analytics/scripts/inspect_output.py:94-97 | over the stored deltas each rate is the share of its outcome in the decisions of the last attempts, and the rates sum to 1 |

## Left out

- HTTP handlers, server lifecycle, request middleware, authentication, Prometheus metrics, logging and the web dashboard: plumbing around the core.
- JSON syntax, unknown or duplicate JSON fields, and timestamp text formats: events are datatypes after decoding.
- Key expiry by elapsed time in the pipeline: there expiry is a step that may happen to any key at any moment; the deadlines and their effect on velocities are modelled in FeatureExpiry, their effect on devices and baseline countries is not.
- Float rounding: probabilities and rates are reals; rounding a probability to six digits is modelled to the nearest, ties to even.
- XGBoost scoring, training and feature transforms: the model is an arbitrary score or a failure.
- Column widths beyond those the code checks itself, such as 32-bit attempt counters and version columns.
- Deadlocks and lock timeouts: they appear as aborts, which may happen to any transaction at any time; the outbox claim is modelled in its own state machine rather than together with the other transactions.
- Kafka partition assignment and fencing: any number of sessions may hold a partition, which allows more behaviour than a group does; the partition of a record is arbitrary rather than a hash of its key.
- Liveness of retries: the loops run over a given script of environment behaviour, so no theorem says that a retry eventually succeeds; `HealthyRun`, `AttemptMoves`, `ConsumerAlone` and `WorkerAlone` say what an undisturbed attempt achieves.
- Listing pending reviews, the latest-version and recent-decision queries, and fetching one payment: reads without further logic.
- Spark watermarks, deduplication, checkpoints and partial file writes, the daily window columns derived inside one batch, and the quarantine validation of the streaming job: library and storage behaviour.
- Reconciliation.Run: the database cursor is a sequence of rows, so a failing scan and the order of the rows are not modelled.
- Backoff.Run: cancellation is the end of the script, and logging and counters are omitted.
- Deliveries.StalledIsHopeless: covers the payment id, which the first lookup casts; a surplus hyphen in another id of the event fails a later statement only if the lookups before it let the transaction get there.
- Interleaving.InterleavingsAreSerial: a transaction that aborts on a database error has no answer and is not logged; its caller retries.
