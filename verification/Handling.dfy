/** What the decision consumer makes of a record, told from the tables and the record alone: when an attempt
    succeeds, and what its success leaves in every table. */
module Handling {
  import opened Text
  import opened Domain
  import opened EventContract
  import opened Ledger
  import opened LedgerInvariant
  import opened Deliveries

  // ---------------------------------------------------------------- when an attempt succeeds

  /** The coordinate of a Kafka record. */
  predicate RealCoordinate(at: Coord) {
    Trimmed(TrimSpace(at.topic)) && 1 <= |Utf8(TrimSpace(at.topic))| <= 249 && at.partition >= 0 && at.offset >= 0
  }

  /** The consumer's receipt for the coordinate, if there is one, is for this value. */
  predicate NotAnother(db: Db, r: Record) {
    r.at in db.receipts ==> db.receipts[r.at].digest == if r.value.Null? then Garbage("") else r.value
  }

  /** A first acceptance that meets a manual audit row under the decision's own id. */
  predicate IdTaken(db: Db, e: Event) {
    && e.payload.decisionId in db.audits && e.payload.decisionId !in db.decisions
    && e.payload.paymentId in db.payments && db.payments[e.payload.paymentId].status.PendingRisk?
    && forall d | d in db.decisions :: db.decisions[d].payload.sourceEventId != e.payload.sourceEventId
  }

  /** An unparsable value under a receipt that says it was accepted; no run of the consumer produces one. */
  predicate Misfiled(db: Db, r: Record) {
    ParseEvent(r.value).None? && !r.value.Null? && r.at in db.receipts && !db.receipts[r.at].disposition.Rejected?
  }

  lemma RealCoordinateIsValid(at: Coord)
    ensures RealCoordinate(at) <==> ValidSource(at)
  {
    var t := TrimSpace(at.topic);
    TrimSpaceTrims(at.topic);
    Utf8Length(t);
    hide TrimSpace;
    assert t == "" ==> Utf8(t) == [];
  }

  /** In consistent tables the unique indexes are free for an unrecorded decision of a pending payment, but for
      a manual audit row that happens to have its id. */
  lemma RoomExactly(db: Db, e: Event)
    requires DbInv(db) && e.payload.decisionId !in db.decisions
    requires e.payload.paymentId in db.payments && db.payments[e.payload.paymentId].status.PendingRisk?
    ensures RoomFor(db, e) <==> e.payload.decisionId !in db.audits
  {
    hide Outboxed, DecisionsUnique, Receipted, SystemAudited, ReviewsAudited, Solitary;
    forall a | a in db.audits ensures AuditRowOk(db.decisions, db.reviews, a, db.audits[a]) { }
    forall p | p in db.reviews ensures QueueRowOk(db.decisions, p, db.reviews[p]) { }
    hide AuditRowsOk;
    assert QueuedFor(db, e.payload.paymentId) ==> HasDecision(db.decisions, e.payload.paymentId);
  }

  ghost predicate QueuedFor(db: Db, p: Uuid) { p in db.reviews && QueueRowOk(db.decisions, p, db.reviews[p]) }

  /** The tables hold another event under the decision's id or its source event. */
  ghost predicate AnotherRecorded(decisions: Decisions, e: Event) {
    exists d | d in decisions ::
      decisions[d] != e && (d == e.payload.decisionId || decisions[d].payload.sourceEventId == e.payload.sourceEventId)
  }

  ghost predicate ThisRecorded(decisions: Decisions, e: Event) { exists d | d in decisions :: decisions[d] == e }

  /** Where a parsed record without a receipt finds the tables, as Apply sees it. */
  lemma ApplyMeets(db: Db, e: Event, r: Record)
    requires DbInv(db) && ValidSource(r.at) && r.at !in db.receipts && e.eventId == e.payload.decisionId
    ensures var p, x := e.payload.paymentId, ApplyTx(db, e, r).1;
            && (p !in db.payments ==> x == Refused(if p.Uncast? then CastError else NoPayment))
            && (p in db.payments && AnotherRecorded(db.decisions, e) ==> x == Refused(DecisionClash))
            && (p in db.payments && !AnotherRecorded(db.decisions, e) && ThisRecorded(db.decisions, e) ==>
                  x == Accepted(false))
            && (p in db.payments && !AnotherRecorded(db.decisions, e) && !ThisRecorded(db.decisions, e) ==>
                  if !db.payments[p].status.PendingRisk? then x == Refused(StateClash)
                  else if IdTaken(db, e) then x == Refused(Constraint) else x == Accepted(true))
  {
    RecordedMeets(db.decisions, e);
    if e.payload.paymentId in db.payments && db.payments[e.payload.paymentId].status.PendingRisk? &&
        e.payload.decisionId !in db.decisions { RoomExactly(db, e); }
    hide DbInv, RoomFor, AnotherRecorded, ThisRecorded, ValidSource;
  }

  lemma RecordedMeets(decisions: Decisions, e: Event)
    requires DecisionsUnique(decisions) && e.eventId == e.payload.decisionId
    ensures ThisRecorded(decisions, e) <==> e.payload.decisionId in decisions && decisions[e.payload.decisionId] == e
    ensures AnotherRecorded(decisions, e) <==>
              if e.payload.decisionId in decisions then decisions[e.payload.decisionId] != e
              else SourceTaken(decisions, e.payload.sourceEventId)
  {
  }

  /** An attempt succeeds exactly when the coordinate is real, holds no receipt of another value, the record is
      not one that no attempt can handle, and no audit row sits under the decision's id by chance. */
  lemma HandledExactly(db: Db, r: Record)
    requires DbInv(db)
    ensures Handle(db, r).1 <==>
              && RealCoordinate(r.at) && NotAnother(db, r) && !Hopeless(db, r) && !Misfiled(db, r)
              && (ParseEvent(r.value).Some? && r.at !in db.receipts ==> !IdTaken(db, ParseEvent(r.value).value))
  {
    hide DbInv, RealCoordinate, ContractOk, ValidSource, IdTaken;
    RealCoordinateIsValid(r.at);
    if ValidSource(r.at) {
      if r.at in db.receipts { ReceiptedExactly(db, r); } else { UnreceiptedExactly(db, r); }
    } else {
      NowhereFails(db, r);
    }
  }

  lemma NowhereFails(db: Db, r: Record)
    requires !ValidSource(r.at)
    ensures !Handle(db, r).1
  {
    hide ValidSource, ContractOk;
  }

  lemma ReceiptedExactly(db: Db, r: Record)
    requires DbInv(db) && ValidSource(r.at) && r.at in db.receipts
    ensures Handle(db, r).1 <==> NotAnother(db, r) && !Hopeless(db, r) && !Misfiled(db, r)
  {
    if r.value.Null? {
      TombstoneBlocks(db, r.at);
      hide DbInv, ValidSource, Handle;
      assert r == Record(r.at, Null);
    } else if ExistingReceipt(db, r).Different? {
      hide DbInv, Hopeless, ContractOk;
      DifferentFails(db, r);
    } else if Misfiled(db, r) {
      hide DbInv, Hopeless, ContractOk;
      MisfiledFails(db, r);
    } else {
      hide DbInv, Handle, ContractOk, ValidSource;
      SettledRecord(db, r);
    }
  }

  lemma DifferentFails(db: Db, r: Record)
    requires ExistingReceipt(db, r).Different?
    ensures !Handle(db, r).1
  {
    hide ContractOk, ValidSource;
  }

  lemma MisfiledFails(db: Db, r: Record)
    requires Misfiled(db, r)
    ensures !Handle(db, r).1
  {
    hide ContractOk, ValidSource;
  }

  /** Handling a parsed record, by what Apply said. */
  lemma HandleFollows(db: Db, r: Record)
    requires ParseEvent(r.value).Some? && ValidSource(r.at) && r.at !in db.receipts
    ensures var x := ApplyTx(db, ParseEvent(r.value).value, r);
            if x.1.Accepted? then Handle(db, r) == (x.0, true)
            else match x.1.error
              case NoPayment => Handle(db, r) == (Quarantining(db, r, PaymentNotFound), true)
              case DecisionClash => Handle(db, r) == (Quarantining(db, r, RejectionCode.DecisionConflict), true)
              case StateClash => Handle(db, r) == (Quarantining(db, r, RejectionCode.PaymentStateConflict), true)
              case _ => Handle(db, r) == (db, false)
  {
    RefusalLeaves(db, ParseEvent(r.value).value, r);
    hide ApplyTx, ContractOk, ValidSource;
  }

  /** The tables with a REJECTED receipt for the record. */
  function Quarantining(db: Db, r: Record, code: RejectionCode): Db {
    db.(receipts := db.receipts[r.at := Receipt(r.value, Rejected, None, None, Some(code), Some(r.value))])
  }

  lemma UnreceiptedExactly(db: Db, r: Record)
    requires DbInv(db) && ValidSource(r.at) && r.at !in db.receipts
    ensures Handle(db, r).1 <==>
              !Hopeless(db, r) && (ParseEvent(r.value).Some? ==> !IdTaken(db, ParseEvent(r.value).value))
  {
    if ParseEvent(r.value).Some? {
      hide DbInv, ValidSource, ApplyTx, AnotherRecorded, ThisRecorded, Handle, ContractOk;
      ApplyMeets(db, ParseEvent(r.value).value, r);
      HandleFollows(db, r);
      if IdTaken(db, ParseEvent(r.value).value) { TakenIsNew(db, ParseEvent(r.value).value); }
    } else if r.value.Null? {
      hide DbInv, ValidSource, Handle;
      TombstoneBlocks(db, r.at);
      assert r == Record(r.at, Null);
    } else {
      hide DbInv, ValidSource, ContractOk;
    }
  }

  lemma TakenIsNew(db: Db, e: Event)
    requires IdTaken(db, e)
    ensures e.payload.paymentId in db.payments && db.payments[e.payload.paymentId].status.PendingRisk?
    ensures !AnotherRecorded(db.decisions, e)
  {
  }

  // ---------------------------------------------------------------- what a success leaves

  /** The record was rejected under this code: a receipt that keeps its value, and nothing else. */
  ghost predicate RejectedAs(db: Db, n: Db, r: Record, code: RejectionCode) {
    n == db.(receipts := db.receipts[r.at := Receipt(r.value, Rejected, None, None, Some(code), Some(r.value))])
  }

  ghost predicate AcceptedAs(db: Db, n: Db, r: Record, e: Event, d: Disposition) {
    n.receipts == db.receipts[r.at := Receipt(r.value, d, Some(e.eventId), Some(e.payload.paymentId), None, None)]
  }

  /** The rows the first acceptance of a decision writes besides its receipt. */
  ghost predicate FirstWrites(db: Db, n: Db, e: Event) {
    var p, d := e.payload.paymentId, e.payload.decisionId;
    && p in db.payments && n.outbox == db.outbox
    && n.decisions == db.decisions[d := e]
    && n.payments == db.payments[p := db.payments[p].(status :=
        match e.payload.verdict case Allow => Allowed case Review => UnderReview case Block => Blocked)]
    && n.audits == db.audits[d := Audit(p, RiskDecisionRecorded, "risk-decision-consumer", d, e.payload.decisionAt)]
    && n.reviews == (if e.payload.verdict.Review?
                     then db.reviews[p := QueueRow(d, Waiting, 1, e.payload.decisionAt, None, None, None)]
                     else db.reviews)
  }

  /** What the tables make of a parsed event: refused for want of its payment, for another decision on record,
      or for a payment that has moved on; else replayed, or applied for the first time. */
  ghost predicate Judged(db: Db, n: Db, r: Record, e: Event) {
    var p := e.payload.paymentId;
    if p !in db.payments then RejectedAs(db, n, r, PaymentNotFound)
    else if AnotherRecorded(db.decisions, e) then RejectedAs(db, n, r, RejectionCode.DecisionConflict)
    else if ThisRecorded(db.decisions, e) then AcceptedAs(db, n, r, e, Replayed) && n == db.(receipts := n.receipts)
    else if !db.payments[p].status.PendingRisk? then RejectedAs(db, n, r, RejectionCode.PaymentStateConflict)
    else AcceptedAs(db, n, r, e, Applied) && FirstWrites(db, n, e)
  }

  lemma AcceptedLeaves(db: Db, e: Event, r: Record)
    requires ApplyTx(db, e, r).1.Accepted? && r.at !in db.receipts && r.value == Json(e)
    ensures var (n, x) := ApplyTx(db, e, r);
            if x.first then AcceptedAs(db, n, r, e, Applied) && FirstWrites(db, n, e)
            else AcceptedAs(db, n, r, e, Replayed) && n == db.(receipts := n.receipts)
  {
    hide ValidSource, SourceTaken, RoomFor;
  }

  /** The first handling of a record that succeeds leaves exactly what the record and the tables call for:
      an unparsable value is quarantined as an invalid event, a parsed one is judged. */
  lemma FirstReceipt(db: Db, r: Record)
    requires DbInv(db) && Handle(db, r).1 && r.at !in db.receipts
    ensures match ParseEvent(r.value)
            case None => RejectedAs(db, Handle(db, r).0, r, InvalidEvent)
            case Some(e) => Judged(db, Handle(db, r).0, r, e)
  {
    hide DbInv, RealCoordinate, Hopeless, Misfiled, IdTaken, ValidSource, ContractOk, FirstWrites;
    HandledHasReceipt(db, r);
    ParsedCarries(r);
    match ParseEvent(r.value)
    case None => UnparsedLeaves(db, r);
    case Some(e) => {
      hide Handle, ApplyTx, AnotherRecorded, ThisRecorded;
      ApplyMeets(db, e, r);
      HandleFollows(db, r);
      if ApplyTx(db, e, r).1.Accepted? { AcceptedLeaves(db, e, r); }
    }
  }

  lemma UnparsedLeaves(db: Db, r: Record)
    requires Handle(db, r).1 && r.at !in db.receipts && ParseEvent(r.value).None?
    ensures RejectedAs(db, Handle(db, r).0, r, InvalidEvent)
  {
    hide ValidSource, ContractOk;
  }
}
