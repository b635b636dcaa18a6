/** The values that travel through RiskFlow and the PostgreSQL tables they end in.

    Digests are modelled by the value they digest, so SHA-256 is injective by construction. A UUID is
    either random (version 4, identified by the serial number of the draw) or derived from a decision
    name (version 5); the version digits keep the two kinds apart, and `Scoring.DecisionNameInjective`
    shows that a decision name determines its model version and source event. The third kind is a text that
    the decision consumer takes for an id although PostgreSQL does not; no row is filed under one. Times are
    integers, 0 is Go's zero time. */
module Domain {
  import opened Text

  datatype Uuid = V4(serial: nat) | V5(version: string, source: Uuid) | Uncast(text: string)

  // ---------------------------------------------------------------- payments and their events

  /** payment.CreateRequest. */
  datatype Request = Request(
    customerId: string, merchantId: string, deviceId: string,
    amountMinor: int, currency: string, country: string)

  /** The status domain of the payments table; UnderReview is 'REVIEW'. */
  datatype Status = PendingRisk | Allowed | UnderReview | Blocked | Failed

  datatype Payment = Payment(
    id: Uuid, idempotencyKey: string, fingerprint: Bytes, request: Request, status: Status, createdAt: int)

  datatype EventType = PaymentsCreated | OtherType(name: string)
  datatype OutboxPayload = Created(paymentId: Uuid, request: Request,
      createdAt: int) | OtherObject(raw: string) | NotAnObject

  /** outbox.Event, and the Kafka envelope marshalled from it. */
  datatype OutboxEvent = OutboxEvent(
    id: Uuid, eventType: EventType, aggregateId: Uuid, schemaVersion: int,
    occurredAt: int, traceId: Uuid, payload: OutboxPayload)

  /** The value of a payments-topic record. */
  datatype PayValue = PayGarbage(rawPay: string) | PayEvent(created: OutboxEvent)

  datatype Delivery = Pending | Published | DeadLettered

  datatype OutboxRow = OutboxRow(
    event: OutboxEvent, createdAt: int, nextAttemptAt: int, attempts: nat, delivery: Delivery)

  // ---------------------------------------------------------------- decisions

  datatype Verdict = Allow | Review | Block

  datatype Snapshot = Snapshot(
    velocity: int, newDevice: bool, crossBorder: bool, baselineCountry: string, decisionAt: int)

  datatype Payload = Payload(
    decisionId: Uuid, paymentId: Uuid, sourceEventId: Uuid, verdict: Verdict,
    riskScore: int, ruleScore: int, modelScore: int, modelProbability: real, reviewThreshold: real,
    reasons: seq<string>, ruleVersion: string, modelVersion: string, decisionAt: int, features: Snapshot)

  /** A risk.decision.completed event: decision.Event after parsing, RiskDecisionEnvelope before encoding. */
  datatype Event = Event(
    eventId: Uuid, aggregateId: Uuid, schemaVersion: int, occurredAt: int, traceId: Uuid, payload: Payload)

  /** The value of a decision-topic record: a Kafka tombstone, bytes that are not a schema-v2 event,
      or the JSON encoding of an event. */
  datatype Value = Null | Garbage(raw: string) | Json(event: Event)

  datatype Coord = Coord(topic: string, partition: int, offset: int)
  datatype Record = Record(at: Coord, value: Value)

  /** recordSHA256: a nil value hashes like the empty one. */
  function Digest(v: Value): Value { if v.Null? then Garbage("") else v }

  // ---------------------------------------------------------------- tables

  datatype Disposition = Applied | Replayed | Rejected
  datatype RejectionCode = InvalidEvent | PaymentNotFound | DecisionConflict | PaymentStateConflict

  /** decision_ingestion_records. */
  datatype Receipt = Receipt(
    digest: Value, disposition: Disposition, eventId: Option<Uuid>, paymentId: Option<Uuid>,
    code: Option<RejectionCode>, rejectedValue: Option<Value>)

  datatype AuditKind = RiskDecisionRecorded | ManualReviewApproved | ManualReviewRejected

  datatype Audit = Audit(
    aggregateId: Uuid, kind: AuditKind, actor: string, decisionId: Uuid, occurredAt: int)

  /** manual_review_queue.status; Declined is 'REJECTED'. */
  datatype ReviewStatus = Waiting | Approved | Declined

  datatype QueueRow = QueueRow(
    decisionId: Uuid, status: ReviewStatus, version: int, enqueuedAt: int,
    resolvedAt: Option<int>, reviewer: Option<string>, reason: Option<string>)

  datatype Db = Db(
    payments: map<Uuid, Payment>, outbox: map<Uuid, OutboxRow>, decisions: map<Uuid, Event>,
    receipts: map<Coord, Receipt>, audits: map<Uuid, Audit>, reviews: map<Uuid, QueueRow>)

  const EMPTY_DB := Db(map[], map[], map[], map[], map[], map[])

  // ---------------------------------------------------------------- review commands

  datatype Action = Approve | Decline

  datatype ResolveCommand = ResolveCommand(
    paymentId: Uuid, action: Action, expectedVersion: int, reason: string,
    reviewer: string, auditId: Uuid, resolvedAt: int)
}
