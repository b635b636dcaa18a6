/** The four PostgreSQL transactions that change RiskFlow's tables, each as one atomic step on `Db`.
    A failed transaction leaves the tables as they were; `Constraint` is a unique or check violation. */
module Ledger {
  import opened Text
  import opened Domain

  // ---------------------------------------------------------------- decision consumer

  datatype StoreError = BadSource | SourceConflict | NoPayment | CastError | DecisionClash | StateClash | Constraint
  datatype ApplyResult = Accepted(first: bool) | Refused(error: StoreError)

  /** validateSourceRecord. */
  predicate ValidSource(at: Coord) {
    TrimSpace(at.topic) != "" && |Utf8(TrimSpace(at.topic))| <= 249 && at.partition >= 0 && at.offset >= 0
  }

  datatype Lookup = Missing | Found(disposition: Disposition) | Different

  /** existingReceipt. */
  function ExistingReceipt(db: Db, r: Record): Lookup {
    if r.at !in db.receipts then Missing
    else if db.receipts[r.at].digest != Digest(r.value) then Different
    else Found(db.receipts[r.at].disposition)
  }

  function StatusFor(v: Verdict): Status {
    match v case Allow => Allowed case Review => UnderReview case Block => Blocked
  }

  predicate SourceTaken(decisions: map<Uuid, Event>, source: Uuid) {
    exists d | d in decisions :: decisions[d].payload.sourceEventId == source
  }

  predicate AuditTaken(audits: map<Uuid, Audit>, kind: AuditKind, decision: Uuid) {
    exists a | a in audits :: audits[a].kind == kind && audits[a].decisionId == decision
  }

  predicate QueuedDecision(reviews: map<Uuid, QueueRow>, decision: Uuid) {
    exists p | p in reviews :: reviews[p].decisionId == decision
  }

  function AcceptedReceipt(e: Event, r: Record, d: Disposition): Receipt {
    Receipt(Digest(r.value), d, Some(e.eventId), Some(e.payload.paymentId), None, None)
  }

  function DecisionAudit(e: Event): Audit {
    Audit(e.payload.paymentId, RiskDecisionRecorded, "risk-decision-consumer", e.payload.decisionId,
        e.payload.decisionAt)
  }

  function NewQueueRow(e: Event): QueueRow {
    QueueRow(e.payload.decisionId, Waiting, 1, e.payload.decisionAt, None, None, None)
  }

  /** Everything the first acceptance of a decision writes. */
  function Recorded(db: Db, e: Event, r: Record): Db
    requires e.payload.paymentId in db.payments
  {
    var p, d := e.payload.paymentId, e.payload.decisionId;
    db.(decisions := db.decisions[d := e],
        payments := db.payments[p := db.payments[p].(status := StatusFor(e.payload.verdict))],
        audits := db.audits[d := DecisionAudit(e)],
        reviews := if e.payload.verdict.Review? then db.reviews[p := NewQueueRow(e)] else db.reviews,
        receipts := db.receipts[r.at := AcceptedReceipt(e, r, Applied)])
  }

  /** The unique indexes the first acceptance inserts into are free. */
  predicate RoomFor(db: Db, e: Event) {
    && e.payload.decisionId !in db.audits
    && !AuditTaken(db.audits, RiskDecisionRecorded, e.payload.decisionId)
    && (e.payload.verdict.Review? ==>
          e.payload.paymentId !in db.reviews && !QueuedDecision(db.reviews, e.payload.decisionId))
  }

  /** The lookup of a payment that is not stored: no row, or an error because the id is not a UUID. */
  function Unfound(p: Uuid): StoreError { if p.Uncast? then CastError else NoPayment }

  /** PostgresStore.Apply. */
  function ApplyTx(db: Db, e: Event, r: Record): (Db, ApplyResult) {
    var p, d := e.payload.paymentId, e.payload.decisionId;
    if !ValidSource(r.at) then (db, Refused(BadSource))
    else match ExistingReceipt(db, r)
      case Different => (db, Refused(SourceConflict))
      case Found(Rejected) => (db, Refused(SourceConflict))
      case Found(_) => (db, Accepted(false))
      case Missing =>
        if p !in db.payments then (db, Refused(Unfound(p)))
        else if d in db.decisions then
          if db.decisions[d] != e then (db, Refused(DecisionClash))
          else (db.(receipts := db.receipts[r.at := AcceptedReceipt(e, r, Replayed)]), Accepted(false))
        else if SourceTaken(db.decisions, e.payload.sourceEventId) then (db, Refused(DecisionClash))
        else if !db.payments[p].status.PendingRisk? then (db, Refused(StateClash))
        else if !RoomFor(db, e) then (db, Refused(Constraint))
        else (Recorded(db, e, r), Accepted(true))
  }

  function RejectedReceipt(r: Record, code: RejectionCode): Receipt {
    Receipt(Digest(r.value), Rejected, None, None, Some(code), Some(r.value))
  }

  /** PostgresStore.Reject. A nil value violates the receipt shape check. */
  function RejectTx(db: Db, r: Record, code: RejectionCode): (Db, Option<StoreError>) {
    if !ValidSource(r.at) then (db, Some(BadSource))
    else match ExistingReceipt(db, r)
      case Different => (db, Some(SourceConflict))
      case Found(Rejected) => (db, None)
      case Found(_) => (db, Some(SourceConflict))
      case Missing =>
        if r.value.Null? then (db, Some(Constraint))
        else (db.(receipts := db.receipts[r.at := RejectedReceipt(r, code)]), None)
  }

  // ---------------------------------------------------------------- manual review

  datatype ResolveResult =
    | Resolved(row: QueueRow)
    | NotFound
    | AlreadyResolved(status: ReviewStatus, version: int)
    | VersionConflict(version: int)
    | ReviewStateConflict
    | ResolveConstraint

  function ReviewStatusFor(a: Action): ReviewStatus { if a.Approve? then Approved else Declined }
  function PaymentStatusFor(a: Action): Status { if a.Approve? then Allowed else Blocked }
  function AuditKindFor(a: Action): AuditKind { if a.Approve? then ManualReviewApproved else ManualReviewRejected }

  function ResolvedRow(q: QueueRow, c: ResolveCommand): QueueRow {
    q.(status := ReviewStatusFor(c.action), version := q.version + 1,
       resolvedAt := Some(c.resolvedAt), reviewer := Some(c.reviewer), reason := Some(c.reason))
  }

  function ManualAudit(q: QueueRow, c: ResolveCommand): Audit {
    Audit(c.paymentId, AuditKindFor(c.action), c.reviewer, q.decisionId, c.resolvedAt)
  }

  /** review.PostgresRepository.Resolve. */
  function ResolveTx(db: Db, c: ResolveCommand): (Db, ResolveResult) {
    var p := c.paymentId;
    if p !in db.reviews then (db, NotFound)
    else
      var q := db.reviews[p];
      if !q.status.Waiting? then (db, AlreadyResolved(q.status, q.version))
      else if q.version != c.expectedVersion then (db, VersionConflict(q.version))
      else if p !in db.payments || !db.payments[p].status.UnderReview? then (db, ReviewStateConflict)
      else if c.auditId in db.audits ||
          AuditTaken(db.audits, AuditKindFor(c.action), q.decisionId) then (db, ResolveConstraint)
      else
        (db.(reviews := db.reviews[p := ResolvedRow(q, c)],
             payments := db.payments[p := db.payments[p].(status := PaymentStatusFor(c.action))],
             audits := db.audits[c.auditId := ManualAudit(q, c)]),
         Resolved(ResolvedRow(q, c)))
  }

  // ---------------------------------------------------------------- payment creation

  datatype CreateResult =
    | NewPayment(payment: Payment)
    | ReplayedPayment(payment: Payment)
    | IdempotencyConflict
    | CreateConstraint

  predicate KeyTaken(payments: map<Uuid, Payment>, key: string) {
    exists p | p in payments :: payments[p].idempotencyKey == key
  }

  /** payments.idempotency_key is UNIQUE. */
  ghost predicate UniqueKeys(payments: map<Uuid, Payment>) {
    forall p, q | p in payments && q in payments && payments[p].idempotencyKey == payments[q].idempotencyKey :: p == q
  }

  /** The one payment stored under an idempotency key. */
  function PaymentFor(payments: map<Uuid, Payment>, key: string): (p: Uuid)
    requires KeyTaken(payments, key) && UniqueKeys(payments)
    ensures p in payments && payments[p].idempotencyKey == key
  {
    var p :| p in payments && payments[p].idempotencyKey == key;
    p
  }

  function NewRow(event: OutboxEvent, now: int): OutboxRow { OutboxRow(event, now, now, 0, Pending) }

  /** payment.PostgresRepository.Create. */
  function CreateTx(db: Db, candidate: Payment, event: OutboxEvent, now: int): (Db, CreateResult)
    requires UniqueKeys(db.payments)
  {
    if KeyTaken(db.payments, candidate.idempotencyKey) then
      var existing := db.payments[PaymentFor(db.payments, candidate.idempotencyKey)];
      if existing.fingerprint != candidate.fingerprint then (db, IdempotencyConflict)
      else (db, ReplayedPayment(existing))
    else if candidate.id in db.payments || event.id in db.outbox then (db, CreateConstraint)
    else
      (db.(payments := db.payments[candidate.id := candidate],
           outbox := db.outbox[event.id := NewRow(event, now)]),
       NewPayment(candidate))
  }
}
