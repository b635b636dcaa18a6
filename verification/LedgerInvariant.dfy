/** What every committed transaction keeps true of the tables. Each invariant names only the tables it
    speaks about, so a transaction has to answer only for the tables it writes. */
module LedgerInvariant {
  import opened Text
  import opened Domain
  import opened Ledger

  type Payments = map<Uuid, Payment>
  type Outbox = map<Uuid, OutboxRow>
  type Decisions = map<Uuid, Event>
  type Receipts = map<Coord, Receipt>
  type Audits = map<Uuid, Audit>
  type Reviews = map<Uuid, QueueRow>

  // ---------------------------------------------------------------- payments and outbox

  /** The outbox event announces exactly this payment. */
  predicate Announces(e: OutboxEvent, p: Payment) {
    && e.eventType.PaymentsCreated? && e.schemaVersion == 1 && e.aggregateId == p.id
    && e.occurredAt == p.createdAt && e.payload == Created(p.id, p.request, p.createdAt)
  }

  ghost predicate HasOutboxRow(outbox: Outbox, p: Uuid) {
    exists o | o in outbox :: outbox[o].event.aggregateId == p
  }

  /** Payments and outbox rows are in bijection. */
  ghost predicate Outboxed(payments: Payments, outbox: Outbox) {
    && UniqueKeys(payments)
    && (forall p | p in payments :: payments[p].id == p && HasOutboxRow(outbox, p))
    && (forall o | o in outbox ::
          && outbox[o].event.id == o && outbox[o].event.aggregateId in payments
          && Announces(outbox[o].event, payments[outbox[o].event.aggregateId]))
    && (forall o, o' | o in outbox && o' in outbox
          && outbox[o].event.aggregateId == outbox[o'].event.aggregateId :: o == o')
  }

  // ---------------------------------------------------------------- decisions and statuses

  ghost predicate HasDecision(decisions: Decisions, p: Uuid) {
    exists d | d in decisions :: decisions[d].payload.paymentId == p
  }

  /** Decisions are keyed by their id; no two share a payment or a source event. */
  ghost predicate DecisionsUnique(decisions: Decisions) {
    && (forall d | d in decisions :: decisions[d].eventId == d && decisions[d].payload.decisionId == d)
    && (forall d, d' | d in decisions && d' in decisions
          && decisions[d].payload.paymentId == decisions[d'].payload.paymentId :: d == d')
    && (forall d, d' | d in decisions && d' in decisions
          && decisions[d].payload.sourceEventId == decisions[d'].payload.sourceEventId :: d == d')
  }

  /** The status a payment must have once event `e` is its recorded decision. */
  ghost function StatusOwed(reviews: Reviews, e: Event): Status {
    var p := e.payload.paymentId;
    match e.payload.verdict
    case Allow => Allowed
    case Block => Blocked
    case Review =>
      if p !in reviews then UnderReview
      else match reviews[p].status case Waiting => UnderReview case Approved => Allowed case Declined => Blocked
  }

  /** A decided payment has the status owed; an undecided one is PENDING_RISK. */
  ghost predicate Decided(payments: Payments, decisions: Decisions, reviews: Reviews) {
    && (forall d | d in decisions ::
          && decisions[d].payload.paymentId in payments
          && payments[decisions[d].payload.paymentId].status == StatusOwed(reviews, decisions[d]))
    && (forall p | p in payments :: payments[p].status.PendingRisk? || HasDecision(decisions, p))
  }

  predicate RowShape(q: QueueRow) {
    if q.status.Waiting? then q.version == 1 && q.resolvedAt.None? && q.reviewer.None? && q.reason.None?
    else q.version == 2 && q.resolvedAt.Some? && q.reviewer.Some? && q.reason.Some?
  }

  predicate QueueRowOk(decisions: Decisions, p: Uuid, q: QueueRow) {
    && RowShape(q) && q.decisionId in decisions
    && decisions[q.decisionId].payload.verdict.Review? && decisions[q.decisionId].payload.paymentId == p
  }

  /** Queue rows and REVIEW decisions are in bijection. */
  ghost predicate Queued(decisions: Decisions, reviews: Reviews) {
    && (forall d | d in decisions && decisions[d].payload.verdict.Review? ::
          && decisions[d].payload.paymentId in reviews
          && reviews[decisions[d].payload.paymentId].decisionId == d)
    && (forall p | p in reviews :: QueueRowOk(decisions, p, reviews[p]))
  }

  // ---------------------------------------------------------------- audit rows and receipts

  function ManualKind(s: ReviewStatus): AuditKind
    requires !s.Waiting?
  { if s.Approved? then ManualReviewApproved else ManualReviewRejected }

  predicate AuditRowOk(decisions: Decisions, reviews: Reviews, a: Uuid, u: Audit) {
    && u.decisionId in decisions && u.aggregateId == decisions[u.decisionId].payload.paymentId
    && if u.kind.RiskDecisionRecorded? then a == u.decisionId
       else
         && u.aggregateId in reviews && reviews[u.aggregateId].decisionId == u.decisionId
         && !reviews[u.aggregateId].status.Waiting?
         && u.kind == ManualKind(reviews[u.aggregateId].status)
  }

  ghost predicate ManuallyAudited(audits: Audits, q: QueueRow) {
    q.status.Waiting? || AuditTaken(audits, ManualKind(q.status), q.decisionId)
  }

  /** (kind, decision) is a unique key of the audit table. */
  ghost predicate Solitary(audits: Audits) {
    forall a, b | a in audits && b in audits
      && audits[a].kind == audits[b].kind && audits[a].decisionId == audits[b].decisionId :: a == b
  }

  ghost predicate SystemAudited(decisions: Decisions, audits: Audits) {
    forall d | d in decisions :: d in audits && audits[d] == DecisionAudit(decisions[d])
  }

  ghost predicate AuditRowsOk(decisions: Decisions, audits: Audits, reviews: Reviews) {
    forall a | a in audits :: AuditRowOk(decisions, reviews, a, audits[a])
  }

  ghost predicate ReviewsAudited(audits: Audits, reviews: Reviews) {
    forall p | p in reviews :: ManuallyAudited(audits, reviews[p])
  }

  /** Every decision has its system audit row; a manual row exists for a decision exactly when its
      queue row is resolved, in the matching kind; (kind, decision) is unique. */
  ghost predicate Audited(decisions: Decisions, audits: Audits, reviews: Reviews) {
    && SystemAudited(decisions, audits) && AuditRowsOk(decisions, audits, reviews)
    && ReviewsAudited(audits, reviews) && Solitary(audits)
  }

  ghost predicate HasAppliedReceipt(receipts: Receipts, d: Uuid) {
    exists c | c in receipts :: receipts[c].disposition.Applied? && receipts[c].eventId == Some(d)
  }

  /** The receipt shape check; an accepted receipt also carries a recorded decision. */
  predicate ReceiptOk(decisions: Decisions, t: Receipt) {
    if t.disposition.Rejected? then t.eventId.None? && t.paymentId.None? && t.code.Some? && t.rejectedValue.Some?
    else
      && t.digest.Json? && t.digest.event.eventId in decisions
      && decisions[t.digest.event.eventId] == t.digest.event
      && t.eventId == Some(t.digest.event.eventId) && t.paymentId == Some(t.digest.event.payload.paymentId)
      && t.code.None? && t.rejectedValue.None?
  }

  /** Every decision has exactly one APPLIED receipt. */
  ghost predicate Receipted(decisions: Decisions, receipts: Receipts) {
    && (forall c | c in receipts :: ReceiptOk(decisions, receipts[c]))
    && (forall d | d in decisions :: HasAppliedReceipt(receipts, d))
    && (forall c, c' | c in receipts && c' in receipts
          && receipts[c].disposition.Applied? && receipts[c'].disposition.Applied?
          && receipts[c].eventId == receipts[c'].eventId :: c == c')
  }

  ghost predicate DbInv(db: Db) {
    && Outboxed(db.payments, db.outbox)
    && DecisionsUnique(db.decisions)
    && Decided(db.payments, db.decisions, db.reviews)
    && Queued(db.decisions, db.reviews)
    && Audited(db.decisions, db.audits, db.reviews)
    && Receipted(db.decisions, db.receipts)
  }

  // ---------------------------------------------------------------- changing a status

  lemma StatusKeepsOutboxed(payments: Payments, outbox: Outbox, p: Uuid, s: Status)
    requires Outboxed(payments, outbox) && p in payments
    ensures Outboxed(payments[p := payments[p].(status := s)], outbox)
  {
    var n := payments[p := payments[p].(status := s)];
    forall q | q in n ensures n[q].id == q && HasOutboxRow(outbox, q) {
      assert payments[q].id == q && HasOutboxRow(outbox, q);
    }
  }

  // ---------------------------------------------------------------- Apply and Reject

  /** An event as the parser hands it on, with the record it came from. */
  ghost predicate Carries(r: Record, e: Event) {
    r.value == Json(e) && e.eventId == e.payload.decisionId && e.aggregateId == e.payload.paymentId
  }

  lemma UndecidedPayment(payments: Payments, decisions: Decisions, reviews: Reviews, p: Uuid)
    requires Decided(payments, decisions, reviews) && p in payments && payments[p].status.PendingRisk?
    ensures !HasDecision(decisions, p)
  {
  }

  lemma InsertKeepsUnique(decisions: Decisions, e: Event)
    requires DecisionsUnique(decisions) && e.payload.decisionId !in decisions
    requires e.eventId == e.payload.decisionId
    requires !HasDecision(decisions, e.payload.paymentId) && !SourceTaken(decisions, e.payload.sourceEventId)
    ensures DecisionsUnique(decisions[e.payload.decisionId := e])
  {
  }

  lemma InsertKeepsDecided(payments: Payments, decisions: Decisions, reviews: Reviews, e: Event)
    requires Decided(payments, decisions, reviews) && Queued(decisions, reviews)
    requires e.payload.decisionId !in decisions && e.payload.paymentId in payments
    requires !HasDecision(decisions, e.payload.paymentId)
    ensures var p := e.payload.paymentId;
            Decided(payments[p := payments[p].(status := StatusFor(e.payload.verdict))],
                    decisions[e.payload.decisionId := e],
                    if e.payload.verdict.Review? then reviews[p := NewQueueRow(e)] else reviews)
  {
    var p, d := e.payload.paymentId, e.payload.decisionId;
    var payments' := payments[p := payments[p].(status := StatusFor(e.payload.verdict))];
    var decisions' := decisions[d := e];
    assert decisions'[d].payload.paymentId == p;
    forall q | q in payments' ensures payments'[q].status.PendingRisk? || HasDecision(decisions', q) {
      if q != p && HasDecision(decisions, q) {
        var x :| x in decisions && decisions[x].payload.paymentId == q;
        assert decisions'[x] == decisions[x];
      }
    }
  }

  lemma InsertKeepsQueued(decisions: Decisions, reviews: Reviews, e: Event)
    requires Queued(decisions, reviews) && e.payload.decisionId !in decisions
    requires !HasDecision(decisions, e.payload.paymentId)
    ensures Queued(decisions[e.payload.decisionId := e],
                   if e.payload.verdict.Review? then reviews[e.payload.paymentId := NewQueueRow(e)] else reviews)
  {
    var decisions' := decisions[e.payload.decisionId := e];
    var reviews' := if e.payload.verdict.Review? then reviews[e.payload.paymentId := NewQueueRow(e)] else reviews;
    forall p | p in reviews' ensures QueueRowOk(decisions', p, reviews'[p]) {
      if p in reviews && p != e.payload.paymentId { assert QueueRowOk(decisions, p, reviews[p]); }
    }
  }

  lemma InsertKeepsAudited(decisions: Decisions, audits: Audits, reviews: Reviews, e: Event)
    requires Audited(decisions, audits, reviews) && Queued(decisions, reviews)
    requires e.payload.decisionId !in decisions && !HasDecision(decisions, e.payload.paymentId)
    requires e.payload.decisionId !in audits && !AuditTaken(audits, RiskDecisionRecorded, e.payload.decisionId)
    ensures Audited(decisions[e.payload.decisionId := e], audits[e.payload.decisionId := DecisionAudit(e)],
                    if e.payload.verdict.Review? then reviews[e.payload.paymentId := NewQueueRow(e)] else reviews)
  {
    hide AuditRowsOk, ReviewsAudited, Solitary, AuditTaken;
    var reviews' := if e.payload.verdict.Review? then reviews[e.payload.paymentId := NewQueueRow(e)] else reviews;
    NoQueueRow(decisions, reviews, e.payload.paymentId);
    AuditRowJoins(audits, e.payload.decisionId, DecisionAudit(e));
    InsertKeepsRows(decisions, audits, reviews, e);
    hide Queued, HasDecision;
    InsertKeepsReviews(audits, reviews, e);
  }

  lemma NoQueueRow(decisions: Decisions, reviews: Reviews, p: Uuid)
    requires Queued(decisions, reviews) && !HasDecision(decisions, p)
    ensures p !in reviews
  {
  }

  lemma AuditRowJoins(audits: Audits, a: Uuid, u: Audit)
    requires Solitary(audits) && a !in audits && !AuditTaken(audits, u.kind, u.decisionId)
    ensures Solitary(audits[a := u])
  {
  }

  lemma InsertKeepsRows(decisions: Decisions, audits: Audits, reviews: Reviews, e: Event)
    requires AuditRowsOk(decisions, audits, reviews) && e.payload.decisionId !in decisions &&
        e.payload.paymentId !in reviews
    ensures AuditRowsOk(decisions[e.payload.decisionId := e], audits[e.payload.decisionId := DecisionAudit(e)],
                        if e.payload.verdict.Review? then reviews[e.payload.paymentId := NewQueueRow(e)] else reviews)
  {
    var decisions', audits' := decisions[e.payload.decisionId := e], audits[e.payload.decisionId := DecisionAudit(e)];
    var reviews' := if e.payload.verdict.Review? then reviews[e.payload.paymentId := NewQueueRow(e)] else reviews;
    forall a | a in audits' ensures AuditRowOk(decisions', reviews', a, audits'[a]) {
      if a != e.payload.decisionId { assert AuditRowOk(decisions, reviews, a, audits[a]); }
    }
  }

  lemma InsertKeepsReviews(audits: Audits, reviews: Reviews, e: Event)
    requires ReviewsAudited(audits, reviews) && e.payload.decisionId !in audits && e.payload.paymentId !in reviews
    ensures var p := e.payload.paymentId;
            ReviewsAudited(audits[e.payload.decisionId := DecisionAudit(e)],
              if e.payload.verdict.Review? then reviews[p := NewQueueRow(e)] else reviews)
  {
    forall q | q in reviews { AuditTakenGrows(audits, e.payload.decisionId, DecisionAudit(e), reviews[q]); }
  }

  lemma AuditTakenGrows(audits: Audits, a: Uuid, u: Audit, q: QueueRow)
    requires ManuallyAudited(audits, q) && a !in audits
    ensures ManuallyAudited(audits[a := u], q)
  {
    if !q.status.Waiting? {
      var x :| x in audits && audits[x].kind == ManualKind(q.status) && audits[x].decisionId == q.decisionId;
      assert audits[a := u][x] == audits[x];
    }
  }

  lemma ReceiptKeepsReceipted(decisions: Decisions, receipts: Receipts, at: Coord, t: Receipt)
    requires Receipted(decisions, receipts) && at !in receipts && ReceiptOk(decisions, t) && !t.disposition.Applied?
    ensures Receipted(decisions, receipts[at := t])
  {
    var receipts' := receipts[at := t];
    forall d | d in decisions ensures HasAppliedReceipt(receipts', d) {
      assert HasAppliedReceipt(receipts, d);
      var c :| c in receipts && receipts[c].disposition.Applied? && receipts[c].eventId == Some(d);
      assert receipts'[c] == receipts[c];
    }
  }

  lemma InsertKeepsReceipted(decisions: Decisions, receipts: Receipts, e: Event, r: Record)
    requires Receipted(decisions, receipts) && r.at !in receipts && Carries(r, e) && e.payload.decisionId !in decisions
    ensures Receipted(decisions[e.payload.decisionId := e], receipts[r.at := AcceptedReceipt(e, r, Applied)])
  {
    var d := e.payload.decisionId;
    var decisions', receipts' := decisions[d := e], receipts[r.at := AcceptedReceipt(e, r, Applied)];
    forall c | c in receipts ensures ReceiptOk(decisions', receipts[c]) && receipts[c].eventId != Some(d) {
      assert ReceiptOk(decisions, receipts[c]);
    }
    assert receipts'[r.at].disposition.Applied?;
    forall x | x in decisions' ensures HasAppliedReceipt(receipts', x) {
      if x != d {
        assert HasAppliedReceipt(receipts, x);
        var c :| c in receipts && receipts[c].disposition.Applied? && receipts[c].eventId == Some(x);
        assert receipts'[c] == receipts[c];
      }
    }
  }

  lemma RecordedKeeps(db: Db, e: Event, r: Record)
    requires DbInv(db) && Carries(r, e) && r.at !in db.receipts
    requires e.payload.paymentId in db.payments && db.payments[e.payload.paymentId].status.PendingRisk?
    requires e.payload.decisionId !in db.decisions && !SourceTaken(db.decisions, e.payload.sourceEventId) &&
        RoomFor(db, e)
    ensures DbInv(Recorded(db, e, r))
  {
    hide Outboxed, DecisionsUnique, Decided, Queued, Audited, Receipted;
    UndecidedPayment(db.payments, db.decisions, db.reviews, e.payload.paymentId);
    StatusKeepsOutboxed(db.payments, db.outbox, e.payload.paymentId, StatusFor(e.payload.verdict));
    InsertKeepsUnique(db.decisions, e);
    InsertKeepsDecided(db.payments, db.decisions, db.reviews, e);
    InsertKeepsQueued(db.decisions, db.reviews, e);
    InsertKeepsAudited(db.decisions, db.audits, db.reviews, e);
    InsertKeepsReceipted(db.decisions, db.receipts, e, r);
  }

  lemma ApplyKeeps(db: Db, e: Event, r: Record)
    requires DbInv(db) && Carries(r, e)
    ensures DbInv(ApplyTx(db, e, r).0)
  {
    hide Outboxed, DecisionsUnique, Decided, Queued, Audited, Receipted, Recorded, ValidSource;
    var (n, res) := ApplyTx(db, e, r);
    if res == Accepted(true) {
      RecordedKeeps(db, e, r);
    } else if n != db {
      ReceiptKeepsReceipted(db.decisions, db.receipts, r.at, AcceptedReceipt(e, r, Replayed));
    }
  }

  lemma RejectKeeps(db: Db, r: Record, code: RejectionCode)
    requires DbInv(db)
    ensures DbInv(RejectTx(db, r, code).0)
  {
    hide Outboxed, DecisionsUnique, Decided, Queued, Audited, Receipted, ValidSource;
    if RejectTx(db, r, code).0 != db {
      ReceiptKeepsReceipted(db.decisions, db.receipts, r.at, RejectedReceipt(r, code));
    }
  }

  // ---------------------------------------------------------------- Resolve

  lemma ResolvedKeepsDecided(payments: Payments, decisions: Decisions, reviews: Reviews, c: ResolveCommand)
    requires Decided(payments, decisions, reviews) && Queued(decisions, reviews) && DecisionsUnique(decisions)
    requires c.paymentId in reviews && c.paymentId in payments && reviews[c.paymentId].status.Waiting?
    ensures var p := c.paymentId;
            Decided(payments[p := payments[p].(status := PaymentStatusFor(c.action))], decisions,
                    reviews[p := ResolvedRow(reviews[p], c)])
  {
    var p := c.paymentId;
    var payments' := payments[p := payments[p].(status := PaymentStatusFor(c.action))];
    var reviews' := reviews[p := ResolvedRow(reviews[p], c)];
    assert QueueRowOk(decisions, p, reviews[p]) && HasDecision(decisions, p);
    forall d | d in decisions && decisions[d].payload.paymentId == p ensures decisions[d].payload.verdict.Review? {
      assert d == reviews[p].decisionId;
    }
    hide Queued, DecisionsUnique, StatusOwed;
    forall d | d in decisions
      ensures decisions[d].payload.paymentId in payments'
           && payments'[decisions[d].payload.paymentId].status == StatusOwed(reviews', decisions[d])
    {
      StatusOwedAfter(payments, reviews, c, decisions[d]);
    }
    forall q | q in payments' ensures payments'[q].status.PendingRisk? || HasDecision(decisions, q) {
      assert q == p || payments[q].status.PendingRisk? || HasDecision(decisions, q);
    }
  }

  lemma StatusOwedAfter(payments: Payments, reviews: Reviews, c: ResolveCommand, e: Event)
    requires c.paymentId in payments && c.paymentId in reviews
    requires e.payload.paymentId in payments && payments[e.payload.paymentId].status == StatusOwed(reviews, e)
    requires e.payload.paymentId == c.paymentId ==> e.payload.verdict.Review?
    ensures var p := c.paymentId;
            payments[p := payments[p].(status := PaymentStatusFor(c.action))][e.payload.paymentId].status
              == StatusOwed(reviews[p := ResolvedRow(reviews[p], c)], e)
  {
  }

  lemma ResolvedKeepsQueued(decisions: Decisions, reviews: Reviews, c: ResolveCommand)
    requires Queued(decisions, reviews) && c.paymentId in reviews && reviews[c.paymentId].status.Waiting?
    ensures Queued(decisions, reviews[c.paymentId := ResolvedRow(reviews[c.paymentId], c)])
  {
    var reviews' := reviews[c.paymentId := ResolvedRow(reviews[c.paymentId], c)];
    forall p | p in reviews' ensures QueueRowOk(decisions, p, reviews'[p]) {
      assert QueueRowOk(decisions, p, reviews[p]);
    }
  }

  lemma ResolvedKeepsAudited(decisions: Decisions, audits: Audits, reviews: Reviews, c: ResolveCommand)
    requires Audited(decisions, audits, reviews) && Queued(decisions, reviews)
    requires c.paymentId in reviews && reviews[c.paymentId].status.Waiting? && c.auditId !in audits
    requires !AuditTaken(audits, AuditKindFor(c.action), reviews[c.paymentId].decisionId)
    ensures Audited(decisions, audits[c.auditId := ManualAudit(reviews[c.paymentId], c)],
                    reviews[c.paymentId := ResolvedRow(reviews[c.paymentId], c)])
  {
    hide AuditRowsOk, ReviewsAudited, Solitary, AuditTaken;
    assert QueueRowOk(decisions, c.paymentId, reviews[c.paymentId]);
    hide Queued, RowShape;
    AuditRowJoins(audits, c.auditId, ManualAudit(reviews[c.paymentId], c));
    ResolvedKeepsRows(decisions, audits, reviews, c);
    ResolvedKeepsReviews(audits, reviews, c);
  }

  lemma ResolvedKeepsRows(decisions: Decisions, audits: Audits, reviews: Reviews, c: ResolveCommand)
    requires AuditRowsOk(decisions, audits, reviews) && c.paymentId in reviews &&
        reviews[c.paymentId].status.Waiting? && c.auditId !in audits
    requires QueueRowOk(decisions, c.paymentId, reviews[c.paymentId])
    ensures AuditRowsOk(decisions, audits[c.auditId := ManualAudit(reviews[c.paymentId], c)],
                        reviews[c.paymentId := ResolvedRow(reviews[c.paymentId], c)])
  {
    var audits' := audits[c.auditId := ManualAudit(reviews[c.paymentId], c)];
    var reviews' := reviews[c.paymentId := ResolvedRow(reviews[c.paymentId], c)];
    forall a | a in audits' ensures AuditRowOk(decisions, reviews', a, audits'[a]) {
      if a != c.auditId {
        assert AuditRowOk(decisions, reviews, a, audits[a]);
        ResolvedKeepsRow(decisions, reviews, c, a, audits[a]);
      }
    }
  }

  lemma ResolvedKeepsReviews(audits: Audits, reviews: Reviews, c: ResolveCommand)
    requires ReviewsAudited(audits, reviews) && c.paymentId in reviews && c.auditId !in audits
    ensures ReviewsAudited(audits[c.auditId := ManualAudit(reviews[c.paymentId], c)],
                           reviews[c.paymentId := ResolvedRow(reviews[c.paymentId], c)])
  {
    var q := reviews[c.paymentId];
    var audits', reviews' := audits[c.auditId := ManualAudit(q, c)], reviews[c.paymentId := ResolvedRow(q, c)];
    assert audits'[c.auditId].kind == ManualKind(reviews'[c.paymentId].status);
    forall x | x in reviews' ensures ManuallyAudited(audits', reviews'[x]) {
      if x != c.paymentId { AuditTakenGrows(audits, c.auditId, ManualAudit(q, c), reviews[x]); }
    }
  }

  lemma ResolvedKeepsRow(decisions: Decisions, reviews: Reviews, c: ResolveCommand, a: Uuid, u: Audit)
    requires AuditRowOk(decisions, reviews, a, u) && c.paymentId in reviews && reviews[c.paymentId].status.Waiting?
    ensures AuditRowOk(decisions, reviews[c.paymentId := ResolvedRow(reviews[c.paymentId], c)], a, u)
  {
  }

  lemma ResolveKeeps(db: Db, c: ResolveCommand)
    requires DbInv(db)
    ensures DbInv(ResolveTx(db, c).0)
  {
    hide Outboxed, DecisionsUnique, Decided, Queued, Audited, Receipted;
    if ResolveTx(db, c).1.Resolved? {
      StatusKeepsOutboxed(db.payments, db.outbox, c.paymentId, PaymentStatusFor(c.action));
      ResolvedKeepsDecided(db.payments, db.decisions, db.reviews, c);
      ResolvedKeepsQueued(db.decisions, db.reviews, c);
      ResolvedKeepsAudited(db.decisions, db.audits, db.reviews, c);
    }
  }

  // ---------------------------------------------------------------- Create

  lemma CreatedKeepsOutboxed(payments: Payments, outbox: Outbox, candidate: Payment, event: OutboxEvent, now: int)
    requires Outboxed(payments, outbox) && Announces(event, candidate)
    requires !KeyTaken(payments, candidate.idempotencyKey) && candidate.id !in payments && event.id !in outbox
    ensures Outboxed(payments[candidate.id := candidate], outbox[event.id := NewRow(event, now)])
  {
    var payments', outbox' := payments[candidate.id := candidate], outbox[event.id := NewRow(event, now)];
    assert outbox'[event.id].event.aggregateId == candidate.id;
    forall p | p in payments' ensures payments'[p].id == p && HasOutboxRow(outbox', p) {
      if p != candidate.id {
        assert payments[p].id == p && HasOutboxRow(outbox, p);
        var o :| o in outbox && outbox[o].event.aggregateId == p;
        assert outbox'[o] == outbox[o];
      }
    }
  }

  lemma CreatedKeepsDecided(payments: Payments, decisions: Decisions, reviews: Reviews, candidate: Payment)
    requires Decided(payments, decisions, reviews) && candidate.id !in payments && candidate.status.PendingRisk?
    ensures Decided(payments[candidate.id := candidate], decisions, reviews)
  {
    var payments' := payments[candidate.id := candidate];
    forall p | p in payments' ensures payments'[p].status.PendingRisk? || HasDecision(decisions, p) {
      if p != candidate.id { assert payments[p].status.PendingRisk? || HasDecision(decisions, p); }
    }
  }

  lemma CreateKeeps(db: Db, candidate: Payment, event: OutboxEvent, now: int)
    requires DbInv(db) && Announces(event, candidate) && candidate.status.PendingRisk?
    ensures UniqueKeys(db.payments) && DbInv(CreateTx(db, candidate, event, now).0)
  {
    assert UniqueKeys(db.payments);
    hide Outboxed, DecisionsUnique, Decided, Queued, Audited, Receipted;
    if CreateTx(db, candidate, event, now).1.NewPayment? {
      CreatedKeepsOutboxed(db.payments, db.outbox, candidate, event, now);
      CreatedKeepsDecided(db.payments, db.decisions, db.reviews, candidate);
    }
  }
}
