/** The repositories as the services run them: statement after statement on mutable tables inside a
    transaction, with the deferred rollback putting the tables back when a later statement fails.
    Every method is proved against its atomic specification in `Ledger`. */
module Database {
  import opened Text
  import opened Domain
  import opened Ledger
  import opened LedgerInvariant

  class Database {
    var payments: Payments
    var outbox: Outbox
    var decisions: Decisions
    var receipts: Receipts
    var audits: Audits
    var reviews: Reviews

    function View(): Db
      reads this
    {
      Db(payments, outbox, decisions, receipts, audits, reviews)
    }

    constructor ()
      ensures View() == EMPTY_DB
    {
      payments, outbox, decisions, receipts, audits, reviews := map[], map[], map[], map[], map[], map[];
    }

    method Rollback(to: Db)
      modifies this
      ensures View() == to
    {
      payments, outbox, decisions := to.payments, to.outbox, to.decisions;
      receipts, audits, reviews := to.receipts, to.audits, to.reviews;
    }

    method LoadReceipt(r: Record) returns (found: Lookup)
      ensures found == ExistingReceipt(View(), r)
    {
      if r.at !in receipts { return Missing; }
      var stored := receipts[r.at];
      if stored.digest != Digest(r.value) { return Different; }
      return Found(stored.disposition);
    }

    /** insertReceipt: on conflict nothing is written and the stored receipt decides. */
    method InsertReceipt(e: Event, r: Record, disposition: Disposition) returns (error: Option<StoreError>)
      modifies this`receipts
      ensures old(ExistingReceipt(View(), r)).Missing? ==>
                error.None? && receipts == old(receipts)[r.at := AcceptedReceipt(e, r, disposition)]
      ensures !old(ExistingReceipt(View(), r)).Missing? ==> receipts == old(receipts)
      ensures error.Some? <==> old(ExistingReceipt(View(), r)) in {Different, Found(Rejected)}
    {
      if r.at !in receipts {
        receipts := receipts[r.at := AcceptedReceipt(e, r, disposition)];
        return None;
      }
      var stored := LoadReceipt(r);
      if stored.Different? || stored == Found(Rejected) { return Some(SourceConflict); }
      return None;
    }

    method Apply(e: Event, r: Record) returns (result: ApplyResult)
      modifies this
      ensures (View(), result) == ApplyTx(old(View()), e, r)
    {
      if !ValidSource(r.at) { return Refused(BadSource); }
      var begin := View();
      var p, d := e.payload.paymentId, e.payload.decisionId;

      var found := LoadReceipt(r);
      match found {
        case Different => return Refused(SourceConflict);
        case Found(disposition) =>
          if disposition == Rejected { return Refused(SourceConflict); }
          return Accepted(false);
        case Missing =>
      }

      if p !in payments { return Refused(Unfound(p)); }
      var status := payments[p].status;
      if d in decisions {
        if decisions[d] != e { return Refused(DecisionClash); }
        var clash := InsertReceipt(e, r, Replayed);  // the coordinate was free above, so no conflict here
        return Accepted(false);
      }
      if SourceTaken(decisions, e.payload.sourceEventId) { return Refused(DecisionClash); }
      if status != PendingRisk { return Refused(StateClash); }

      decisions := decisions[d := e];
      payments := payments[p := payments[p].(status := StatusFor(e.payload.verdict))];
      if d in audits || AuditTaken(audits, RiskDecisionRecorded, d) {
        Rollback(begin);
        return Refused(Constraint);
      }
      audits := audits[d := DecisionAudit(e)];
      if e.payload.verdict == Review {
        if p in reviews || QueuedDecision(reviews, d) {
          Rollback(begin);
          return Refused(Constraint);
        }
        reviews := reviews[p := NewQueueRow(e)];
      }
      var clash := InsertReceipt(e, r, Applied);
      return Accepted(true);
    }

    method Reject(r: Record, code: RejectionCode) returns (error: Option<StoreError>)
      modifies this
      ensures (View(), error) == RejectTx(old(View()), r, code)
    {
      if !ValidSource(r.at) { return Some(BadSource); }
      var found := LoadReceipt(r);
      match found {
        case Different => return Some(SourceConflict);
        case Found(disposition) =>
          if disposition != Rejected { return Some(SourceConflict); }
        case Missing =>
          if r.value.Null? { return Some(Constraint); }
          receipts := receipts[r.at := RejectedReceipt(r, code)];
      }
      return None;
    }

    method Resolve(c: ResolveCommand) returns (result: ResolveResult)
      modifies this
      ensures (View(), result) == ResolveTx(old(View()), c)
    {
      var begin := View();
      var p := c.paymentId;
      if p !in reviews || reviews[p].status != Waiting || reviews[p].version != c.expectedVersion {
        result := CurrentConflict(p, c.expectedVersion);
        return;
      }
      var before := reviews[p];
      reviews := reviews[p := ResolvedRow(before, c)];
      if p !in payments || payments[p].status != UnderReview {
        Rollback(begin);
        return ReviewStateConflict;
      }
      payments := payments[p := payments[p].(status := PaymentStatusFor(c.action))];
      if c.auditId in audits || AuditTaken(audits, AuditKindFor(c.action), before.decisionId) {
        Rollback(begin);
        return ResolveConstraint;
      }
      audits := audits[c.auditId := ManualAudit(before, c)];
      return Resolved(reviews[p]);
    }

    /** currentConflict. */
    method CurrentConflict(p: Uuid, expected: int) returns (result: ResolveResult)
      requires p in reviews ==> reviews[p].status != Waiting || reviews[p].version != expected
      ensures result.NotFound? <==> p !in reviews
      ensures p in reviews && reviews[p].status == Waiting ==> result == VersionConflict(reviews[p].version)
      ensures p in reviews && reviews[p].status != Waiting ==>
          result == AlreadyResolved(reviews[p].status, reviews[p].version)
    {
      if p !in reviews { return NotFound; }
      if reviews[p].status != Waiting { return AlreadyResolved(reviews[p].status, reviews[p].version); }
      return VersionConflict(reviews[p].version);
    }

    method Create(candidate: Payment, event: OutboxEvent, now: int) returns (result: CreateResult)
      requires UniqueKeys(payments)
      modifies this
      ensures (View(), result) == CreateTx(old(View()), candidate, event, now)
    {
      var begin := View();
      if KeyTaken(payments, candidate.idempotencyKey) {
        var existing := payments[PaymentFor(payments, candidate.idempotencyKey)];
        if existing.fingerprint != candidate.fingerprint { return IdempotencyConflict; }
        return ReplayedPayment(existing);
      }
      if candidate.id in payments { return CreateConstraint; }
      payments := payments[candidate.id := candidate];
      if event.id in outbox {
        Rollback(begin);
        return CreateConstraint;
      }
      outbox := outbox[event.id := NewRow(event, now)];
      return NewPayment(candidate);
    }
  }
}
