/** The decision reconciler: its seven exception queries, the report and the grouped counts. */
module Reconciliation {
  import opened Text
  import opened Domain
  import opened Ledger
  import opened LedgerInvariant
  import opened Counting

  datatype Code =
    | MISSING_DECISION | DUPLICATE_DECISION | DUPLICATE_DELIVERY | PAYMENT_STATUS_MISMATCH
    | REVIEW_QUEUE_MISSING | UNEXPECTED_REVIEW_QUEUE | REJECTED_DECISION_EVENT

  /** One row of the report; the coordinate and the count stand for the detail text. */
  datatype Exception = Exception(code: Code, paymentId: Option<Uuid>, decisionId: Option<Uuid>, at: Option<Coord>,
      n: nat)

  // ---------------------------------------------------------------- the queries

  function MissingDecisions(db: Db, cutoff: int): set<Exception> {
    set p | p in db.payments
            && db.payments[p].status.PendingRisk? && db.payments[p].createdAt <= cutoff
            && (exists o | o in db.outbox ::
                  db.outbox[o].event.aggregateId == p && db.outbox[o].event.eventType.PaymentsCreated? &&
                      db.outbox[o].delivery.Published?)
            && !(exists d | d in db.decisions :: db.decisions[d].payload.paymentId == p)
      :: Exception(MISSING_DECISION, Some(p), None, None, 0)
  }

  function DecisionsOf(decisions: Decisions, p: Uuid): set<Uuid> {
    set d | d in decisions && decisions[d].payload.paymentId == p
  }

  function DuplicateDecisions(db: Db): set<Exception> {
    set d | d in db.decisions && |DecisionsOf(db.decisions, db.decisions[d].payload.paymentId)| > 1
      :: var p := db.decisions[d].payload.paymentId;
         Exception(DUPLICATE_DECISION, Some(p), None, None, |DecisionsOf(db.decisions, p)|)
  }

  function DeliveriesOf(receipts: Receipts, d: Uuid): set<Coord> {
    set c | c in receipts && !receipts[c].disposition.Rejected? && receipts[c].eventId == Some(d)
  }

  function DuplicateDeliveries(db: Db): set<Exception> {
    set d | d in db.decisions && |DeliveriesOf(db.receipts, d)| > 1
      :: Exception(DUPLICATE_DELIVERY, Some(db.decisions[d].payload.paymentId), Some(d), None,
          |DeliveriesOf(db.receipts, d)|)
  }

  /** The CASE expression: the status a decision and its joined queue status call for. */
  function ExpectedStatus(v: Verdict, queue: Option<ReviewStatus>): Status {
    if v.Review? && queue == Some(Approved) then Allowed
    else if v.Review? && queue == Some(Declined) then Blocked
    else if v.Review? then UnderReview
    else if v.Allow? then Allowed
    else Blocked
  }

  /** Some row of decision LEFT JOIN queue ON decision_id disagrees with the payment's status. */
  predicate Mismatched(db: Db, d: Uuid)
    requires d in db.decisions
  {
    var e := db.decisions[d];
    && e.payload.paymentId in db.payments
    && var status := db.payments[e.payload.paymentId].status;
       if QueuedDecision(db.reviews, d) then
         exists q | q in db.reviews ::
             db.reviews[q].decisionId == d && status != ExpectedStatus(e.payload.verdict, Some(db.reviews[q].status))
       else status != ExpectedStatus(e.payload.verdict, None)
  }

  function StatusMismatches(db: Db): set<Exception> {
    set d | d in db.decisions && Mismatched(db, d)
      :: Exception(PAYMENT_STATUS_MISMATCH, Some(db.decisions[d].payload.paymentId), Some(d), None, 0)
  }

  function MissingQueueRows(db: Db): set<Exception> {
    set d | d in db.decisions && db.decisions[d].payload.verdict.Review? && !QueuedDecision(db.reviews, d)
      :: Exception(REVIEW_QUEUE_MISSING, Some(db.decisions[d].payload.paymentId), Some(d), None, 0)
  }

  function UnexpectedQueueRows(db: Db): set<Exception> {
    set p | p in db.reviews && db.reviews[p].decisionId in db.decisions &&
        !db.decisions[db.reviews[p].decisionId].payload.verdict.Review?
      :: Exception(UNEXPECTED_REVIEW_QUEUE, Some(p), Some(db.reviews[p].decisionId), None, 0)
  }

  function RejectedEvents(db: Db): set<Exception> {
    set c | c in db.receipts && db.receipts[c].disposition.Rejected?
      :: Exception(REJECTED_DECISION_EVENT, None, None, Some(c), 0)
  }

  function Exceptions(db: Db, cutoff: int): set<Exception> {
    MissingDecisions(db, cutoff) + DuplicateDecisions(db) + DuplicateDeliveries(db) + StatusMismatches(db)
    + MissingQueueRows(db) + UnexpectedQueueRows(db) + RejectedEvents(db)
  }

  // ---------------------------------------------------------------- consistent tables raise no alarm

  /** A control break: data that contradicts itself, as opposed to work that is late, repeated or refused. */
  predicate Contradiction(c: Code) {
    c in {DUPLICATE_DECISION, PAYMENT_STATUS_MISMATCH, REVIEW_QUEUE_MISSING, UNEXPECTED_REVIEW_QUEUE}
  }

  lemma OneDecisionPerPayment(decisions: Decisions, p: Uuid)
    requires DecisionsUnique(decisions)
    ensures |DecisionsOf(decisions, p)| <= 1
  {
    var s := DecisionsOf(decisions, p);
    if s != {} {
      var d :| d in s;
      assert s == {d};
    }
  }

  lemma NoMismatch(db: Db, d: Uuid)
    requires DecisionsUnique(db.decisions) && Decided(db.payments, db.decisions, db.reviews) &&
        Queued(db.decisions, db.reviews)
    requires d in db.decisions
    ensures !Mismatched(db, d)
  {
    forall q | q in db.reviews && db.reviews[q].decisionId == d ensures q == db.decisions[d].payload.paymentId {
      assert QueueRowOk(db.decisions, q, db.reviews[q]);
    }
    if db.decisions[d].payload.paymentId in db.reviews {
      var p := db.decisions[d].payload.paymentId;
      assert QueueRowOk(db.decisions, p, db.reviews[p]);
    }
  }

  lemma NoDecisionAlarms(db: Db)
    requires DecisionsUnique(db.decisions) && Decided(db.payments, db.decisions, db.reviews) &&
        Queued(db.decisions, db.reviews)
    ensures DuplicateDecisions(db) == {} && StatusMismatches(db) == {}
  {
    hide DecisionsUnique, Decided, Queued, Mismatched, DecisionsOf;
    forall d | d in db.decisions
      ensures |DecisionsOf(db.decisions, db.decisions[d].payload.paymentId)| <= 1 && !Mismatched(db, d)
    {
      OneDecisionPerPayment(db.decisions, db.decisions[d].payload.paymentId);
      NoMismatch(db, d);
    }
  }

  lemma NoQueueAlarms(db: Db)
    requires Queued(db.decisions, db.reviews)
    ensures MissingQueueRows(db) == {} && UnexpectedQueueRows(db) == {}
  {
    forall p | p in db.reviews ensures QueueRowOk(db.decisions, p, db.reviews[p]) { }
  }

  /** In tables that satisfy the ledger invariant the reconciler never reports a contradiction. */
  lemma NoContradictions(db: Db, cutoff: int)
    requires DbInv(db)
    ensures forall x | x in Exceptions(db, cutoff) :: !Contradiction(x.code)
  {
    hide Outboxed, Audited, Receipted, DecisionsUnique, Decided, Queued, DuplicateDecisions, StatusMismatches;
    hide MissingQueueRows, UnexpectedQueueRows;
    NoDecisionAlarms(db);
    NoQueueAlarms(db);
  }

  /** Conversely the reconciler misses no contradiction: when it is silent about those four codes, tables
      that respect the foreign keys, whose queue rows sit under their own payment, have one decision per
      payment, the status owed to each, and queue rows for exactly the REVIEW decisions. */
  lemma SilenceMeansConsistency(db: Db, cutoff: int)
    requires forall x | x in Exceptions(db, cutoff) :: !Contradiction(x.code)
    requires forall d | d in db.decisions :: db.decisions[d].payload.paymentId in db.payments
    requires forall p | p in db.reviews ::
        db.reviews[p].decisionId in db.decisions && db.decisions[db.reviews[p].decisionId].payload.paymentId == p
    ensures forall d, x | d in db.decisions && x in db.decisions
              && db.decisions[d].payload.paymentId == db.decisions[x].payload.paymentId :: d == x
    ensures forall d | d in db.decisions ::
              db.payments[db.decisions[d].payload.paymentId].status == StatusOwed(db.reviews, db.decisions[d])
    ensures forall d | d in db.decisions ::
              db.decisions[d].payload.verdict.Review? <==> QueuedDecision(db.reviews, d)
  {
    assert Silent(db) by {
      hide Mismatched, DecisionsOf, QueuedDecision;
      SilenceIsSilence(db, cutoff);
    }
    hide Exceptions;
    forall d, x | d in db.decisions && x in db.decisions &&
        db.decisions[d].payload.paymentId == db.decisions[x].payload.paymentId
      ensures d == x
    {
      PairFits(DecisionsOf(db.decisions, db.decisions[d].payload.paymentId), d, x);
    }
    forall d | d in db.decisions
      ensures db.payments[db.decisions[d].payload.paymentId].status == StatusOwed(db.reviews, db.decisions[d])
    {
      MatchedIsOwed(db, d);
    }
  }

  /** No decision or queue row answers one of the four contradiction queries. */
  ghost predicate Silent(db: Db) {
    && (forall d | d in db.decisions ::
          && |DecisionsOf(db.decisions, db.decisions[d].payload.paymentId)| <= 1
          && !Mismatched(db, d)
          && (db.decisions[d].payload.verdict.Review? ==> QueuedDecision(db.reviews, d)))
    && (forall p | p in db.reviews && db.reviews[p].decisionId in db.decisions ::
          db.decisions[db.reviews[p].decisionId].payload.verdict.Review?)
  }

  lemma SilenceIsSilence(db: Db, cutoff: int)
    requires forall x | x in Exceptions(db, cutoff) :: !Contradiction(x.code)
    ensures Silent(db)
  {
    var all := Exceptions(db, cutoff);
    assert DuplicateDecisions(db) <= all && StatusMismatches(db) <= all && MissingQueueRows(db) <= all &&
        UnexpectedQueueRows(db) <= all;
    forall p | p in db.reviews && db.reviews[p].decisionId in db.decisions
      ensures db.decisions[db.reviews[p].decisionId].payload.verdict.Review?
    {
      QueueAlarmRaised(db, p);
    }
    hide Exceptions, MissingDecisions, DuplicateDeliveries, RejectedEvents, DuplicateDecisions, StatusMismatches;
    hide MissingQueueRows;
    forall d | d in db.decisions
      ensures |DecisionsOf(db.decisions, db.decisions[d].payload.paymentId)| <= 1 && !Mismatched(db, d)
      ensures db.decisions[d].payload.verdict.Review? ==> QueuedDecision(db.reviews, d)
    {
      AlarmsRaised(db, d);
    }
  }

  lemma MatchedIsOwed(db: Db, d: Uuid)
    requires Silent(db) && d in db.decisions && db.decisions[d].payload.paymentId in db.payments
    requires forall x, y | x in db.decisions && y in db.decisions &&
        db.decisions[x].payload.paymentId == db.decisions[y].payload.paymentId :: x == y
    requires forall p | p in db.reviews ::
        db.reviews[p].decisionId in db.decisions && db.decisions[db.reviews[p].decisionId].payload.paymentId == p
    ensures db.payments[db.decisions[d].payload.paymentId].status == StatusOwed(db.reviews, db.decisions[d])
  {
    var p := db.decisions[d].payload.paymentId;
    hide DecisionsOf;
    if p in db.reviews {
      assert db.reviews[p].decisionId == d;
    }
  }

  lemma PairFits<T>(s: set<T>, d: T, x: T)
    requires d in s && x in s && |s| <= 1
    ensures d == x
  {
    if d != x { assert |s - {d}| >= 1 by { assert x in s - {d}; } }
  }

  lemma QueueAlarmRaised(db: Db, p: Uuid)
    requires p in db.reviews && db.reviews[p].decisionId in db.decisions
    ensures !db.decisions[db.reviews[p].decisionId].payload.verdict.Review? ==>
              exists x :: x in UnexpectedQueueRows(db) && x.code == UNEXPECTED_REVIEW_QUEUE
  {
    if !db.decisions[db.reviews[p].decisionId].payload.verdict.Review? {
      assert Exception(UNEXPECTED_REVIEW_QUEUE, Some(p), Some(db.reviews[p].decisionId), None,
          0) in UnexpectedQueueRows(db);
    }
  }

  lemma AlarmsRaised(db: Db, d: Uuid)
    requires d in db.decisions
    ensures var p := db.decisions[d].payload.paymentId;
            && (|DecisionsOf(db.decisions, p)| > 1 ==> exists x ::
                x in DuplicateDecisions(db) && x.code == DUPLICATE_DECISION)
            && (Mismatched(db, d) ==> exists x :: x in StatusMismatches(db) && x.code == PAYMENT_STATUS_MISMATCH)
            && (db.decisions[d].payload.verdict.Review? && !QueuedDecision(db.reviews, d) ==>
                  exists x :: x in MissingQueueRows(db) && x.code == REVIEW_QUEUE_MISSING)
  {
    var p := db.decisions[d].payload.paymentId;
    if |DecisionsOf(db.decisions, p)| > 1 {
      assert Exception(DUPLICATE_DECISION, Some(p), None, None,
          |DecisionsOf(db.decisions, p)|) in DuplicateDecisions(db);
    }
    if Mismatched(db, d) {
      assert Exception(PAYMENT_STATUS_MISMATCH, Some(p), Some(d), None, 0) in StatusMismatches(db);
    }
    if db.decisions[d].payload.verdict.Review? && !QueuedDecision(db.reviews, d) {
      assert Exception(REVIEW_QUEUE_MISSING, Some(p), Some(d), None, 0) in MissingQueueRows(db);
    }
  }

  // ---------------------------------------------------------------- when each alarm is raised

  /** The payment's announcement has reached the broker. */
  ghost predicate Announced(outbox: Outbox, p: Uuid) {
    exists o | o in outbox :: outbox[o].event.aggregateId == p && outbox[o].delivery.Published?
  }

  /** In consistent tables a decision is reported missing exactly for a payment that still waits for one, was
      created by the cutoff, and has been announced. */
  lemma MissingExactly(db: Db, cutoff: int, p: Uuid)
    requires DbInv(db)
    ensures Exception(MISSING_DECISION, Some(p), None, None, 0) in Exceptions(db, cutoff) <==>
              && p in db.payments && db.payments[p].status == PendingRisk && db.payments[p].createdAt <= cutoff
              && Announced(db.outbox, p)
  {
    hide DbInv, Exceptions, MissingDecisions, DuplicateDecisions, DuplicateDeliveries, StatusMismatches;
    hide MissingQueueRows, UnexpectedQueueRows, RejectedEvents, Announced;
    PendingIsUndecided(db, p);
    OutboxOfPayments(db);
    OthersCoded(db, cutoff, MISSING_DECISION);
    MissingMember(db, cutoff, p);
  }

  /** Whatever the tables hold: a decision on record or an announcement of another type silences the alarm and
      does not raise it. */
  lemma MissingInGeneral(db: Db, cutoff: int, p: Uuid)
    ensures Exception(MISSING_DECISION, Some(p), None, None, 0) in Exceptions(db, cutoff) <==>
              && p in db.payments && db.payments[p].status == PendingRisk && db.payments[p].createdAt <= cutoff
              && (exists o | o in db.outbox :: db.outbox[o].delivery == Published
                    && db.outbox[o].event.eventType == PaymentsCreated && db.outbox[o].event.aggregateId == p)
              && forall d | d in db.decisions :: db.decisions[d].payload.paymentId != p
  {
    hide DuplicateDecisions, DuplicateDeliveries, StatusMismatches, MissingQueueRows, UnexpectedQueueRows;
    hide RejectedEvents, Exceptions;
    OthersCoded(db, cutoff, MISSING_DECISION);
  }

  lemma MissingMember(db: Db, cutoff: int, p: Uuid)
    requires forall o | o in db.outbox :: db.outbox[o].event.eventType.PaymentsCreated?
    requires p in db.payments && db.payments[p].status.PendingRisk? ==>
               forall d | d in db.decisions :: db.decisions[d].payload.paymentId != p
    ensures Exception(MISSING_DECISION, Some(p), None, None, 0) in MissingDecisions(db, cutoff) <==>
              && p in db.payments && db.payments[p].status == PendingRisk && db.payments[p].createdAt <= cutoff
              && Announced(db.outbox, p)
  {
  }

  lemma PendingIsUndecided(db: Db, p: Uuid)
    requires DbInv(db)
    ensures p in db.payments && db.payments[p].status.PendingRisk? ==>
              forall d | d in db.decisions :: db.decisions[d].payload.paymentId != p
  {
    hide Outboxed, DecisionsUnique, Queued, Audited, Receipted;
  }

  lemma OutboxOfPayments(db: Db)
    requires DbInv(db)
    ensures forall o | o in db.outbox :: db.outbox[o].event.eventType.PaymentsCreated?
  {
    hide DecisionsUnique, Decided, Queued, Audited, Receipted, UniqueKeys;
  }

  /** An exception belongs to the query of its own code. */
  lemma OthersCoded(db: Db, cutoff: int, c: Code)
    ensures forall x: Exception | x.code == c :: x in Exceptions(db, cutoff) <==> x in QueryFor(db, cutoff, c)
  {
    hide *;
    CodeIsQuery(db, cutoff, c);
    CodedMembers(Exceptions(db, cutoff), c);
  }

  lemma CodedMembers(s: set<Exception>, c: Code)
    ensures forall x: Exception | x.code == c :: x in s <==> x in OfCodes(s, {c})
  {
  }

  /** A delivery is reported as repeated exactly for a recorded decision with two or more accepted records, by
      their number. */
  lemma RepeatsExactly(db: Db, cutoff: int, p: Uuid, d: Uuid, n: nat)
    requires DbInv(db)
    ensures Exception(DUPLICATE_DELIVERY, Some(p), Some(d), None, n) in Exceptions(db, cutoff) <==>
              && d in db.decisions && p == db.decisions[d].payload.paymentId && n >= 2
              && n == |set c | c in db.receipts && db.receipts[c].eventId == Some(d)|
  {
    hide DbInv, MissingDecisions, DuplicateDecisions, StatusMismatches, MissingQueueRows, UnexpectedQueueRows;
    hide RejectedEvents, DeliveriesOf, Exceptions;
    AcceptedOf(db, d);
    OthersCoded(db, cutoff, DUPLICATE_DELIVERY);
  }

  lemma AcceptedOf(db: Db, d: Uuid)
    requires DbInv(db)
    ensures DeliveriesOf(db.receipts, d) == set c | c in db.receipts && db.receipts[c].eventId == Some(d)
  {
    hide Outboxed, DecisionsUnique, Decided, Queued, Audited;
    forall c | c in db.receipts ensures ReceiptOk(db.decisions, db.receipts[c]) { }
    hide Receipted;
  }

  /** A record is reported as rejected exactly when its receipt is. */
  lemma RejectedExactly(db: Db, cutoff: int, c: Coord)
    ensures Exception(REJECTED_DECISION_EVENT, None, None, Some(c), 0) in Exceptions(db, cutoff) <==>
              c in db.receipts && db.receipts[c].disposition == Rejected
  {
    hide MissingDecisions, DuplicateDecisions, DuplicateDeliveries, StatusMismatches, MissingQueueRows;
    hide UnexpectedQueueRows;
    OthersCoded(db, cutoff, REJECTED_DECISION_EVENT);
  }

  /** Whatever the tables hold, an exception names its payment and its decision. */
  lemma ExceptionsName(db: Db, cutoff: int, x: Exception)
    requires x in Exceptions(db, cutoff)
    ensures match x.code
            case MISSING_DECISION =>
              x.paymentId.Some? && x.paymentId.value in db.payments && x.decisionId.None?
            case DUPLICATE_DECISION =>
              && x.paymentId.Some? && x.decisionId.None? && x.n >= 2
              && x.n == |set d | d in db.decisions && db.decisions[d].payload.paymentId == x.paymentId.value|
            case REJECTED_DECISION_EVENT =>
              x.paymentId.None? && x.decisionId.None? && x.at.Some? && x.at.value in db.receipts
            case UNEXPECTED_REVIEW_QUEUE =>
              && x.paymentId.Some? && x.paymentId.value in db.reviews
              && x.decisionId == Some(db.reviews[x.paymentId.value].decisionId)
              && x.decisionId.value in db.decisions && !db.decisions[x.decisionId.value].payload.verdict.Review?
            case _ =>
              && x.decisionId.Some? && x.decisionId.value in db.decisions
              && x.paymentId == Some(db.decisions[x.decisionId.value].payload.paymentId)
  {
    OthersCoded(db, cutoff, x.code);
    hide Exceptions, Mismatched, QueuedDecision, DeliveriesOf;
    assert x in QueryFor(db, cutoff, x.code);
  }

  // ---------------------------------------------------------------- report and counts

  /** The rows of a query in the order the database returns them. */
  ghost predicate Lists(rows: seq<Exception>, s: set<Exception>) {
    && (forall x :: x in s <==> x in rows)
    && forall i, j | 0 <= i < j < |rows| :: rows[i] != rows[j]
  }

  lemma {:induction false} ListedCount(rows: seq<Exception>, s: set<Exception>)
    requires Lists(rows, s)
    ensures |rows| == |s|
  {
    if rows == [] {
      assert s == {};
    } else {
      var rest := rows[1..];
      forall x ensures x in s - {rows[0]} <==> x in rest {
        if x in rest { var i :| 0 <= i < |rest| && rest[i] == x; assert rows[i + 1] == x; }
        if x in s - {rows[0]} { var i :| 0 <= i < |rows| && rows[i] == x; assert rest[i - 1] == x; }
      }
      ListedCount(rest, s - {rows[0]});
    }
  }

  /** Reconciler.Run on the rows of the union of the seven queries: the report lists every exception of the
      tables once, in the query's order, and counts them. */
  method Run(ghost db: Db, ghost cutoff: int, rows: seq<Exception>) returns (exceptions: seq<Exception>, count: nat)
    requires Lists(rows, Exceptions(db, cutoff))
    ensures exceptions == rows && Lists(exceptions, Exceptions(db, cutoff)) && count == |Exceptions(db, cutoff)|
  {
    hide Exceptions;
    exceptions := [];
    for i := 0 to |rows|
      invariant exceptions == rows[..i]
    {
      exceptions := exceptions + [rows[i]];
    }
    count := |exceptions|;
    ListedCount(exceptions, Exceptions(db, cutoff));
  }

  /** The query that answers for a code. */
  function QueryFor(db: Db, cutoff: int, c: Code): set<Exception> {
    match c
    case MISSING_DECISION => MissingDecisions(db, cutoff)
    case DUPLICATE_DECISION => DuplicateDecisions(db)
    case DUPLICATE_DELIVERY => DuplicateDeliveries(db)
    case PAYMENT_STATUS_MISMATCH => StatusMismatches(db)
    case REVIEW_QUEUE_MISSING => MissingQueueRows(db)
    case UNEXPECTED_REVIEW_QUEUE => UnexpectedQueueRows(db)
    case REJECTED_DECISION_EVENT => RejectedEvents(db)
  }

  function OfCodes(s: set<Exception>, codes: set<Code>): set<Exception> { set x | x in s && x.code in codes }

  lemma OwnCode(db: Db, cutoff: int, c: Code)
    ensures forall x | x in QueryFor(db, cutoff, c) :: x.code == c
  {
    hide Mismatched, DecisionsOf, DeliveriesOf, QueuedDecision;
  }

  /** Each code is answered by its own query and by no other. */
  lemma CodeIsQuery(db: Db, cutoff: int, c: Code)
    ensures OfCodes(Exceptions(db, cutoff), {c}) == QueryFor(db, cutoff, c)
  {
    forall k: Code ensures forall x | x in QueryFor(db, cutoff, k) :: x.code == k { OwnCode(db, cutoff, k); }
    hide MissingDecisions, DuplicateDecisions, DuplicateDeliveries, StatusMismatches, MissingQueueRows;
    hide UnexpectedQueueRows, RejectedEvents;
    var all := Exceptions(db, cutoff);
    forall x | x in all ensures x in QueryFor(db, cutoff, x.code) {
      assert exists k :: x in QueryFor(db, cutoff, k) by { UnionOfQueries(db, cutoff, x); }
    }
    assert QueryFor(db, cutoff, c) <= all;
  }

  lemma UnionOfQueries(db: Db, cutoff: int, x: Exception)
    requires x in Exceptions(db, cutoff)
    ensures exists k :: x in QueryFor(db, cutoff, k)
  {
    hide MissingDecisions, DuplicateDecisions, DuplicateDeliveries, StatusMismatches, MissingQueueRows;
    hide UnexpectedQueueRows, RejectedEvents;
    assert x in QueryFor(db, cutoff, MISSING_DECISION) || x in QueryFor(db, cutoff, DUPLICATE_DECISION)
        || x in QueryFor(db, cutoff, DUPLICATE_DELIVERY) || x in QueryFor(db, cutoff, PAYMENT_STATUS_MISMATCH)
        || x in QueryFor(db, cutoff, REVIEW_QUEUE_MISSING) || x in QueryFor(db, cutoff, UNEXPECTED_REVIEW_QUEUE)
        || x in QueryFor(db, cutoff, REJECTED_DECISION_EVENT);
  }

  /** SELECT code, count(*) ... GROUP BY code: one pair per code that occurs. */
  ghost predicate Grouped(groups: seq<(Code, nat)>, s: set<Exception>) {
    && (forall i | 0 <= i < |groups| :: groups[i].1 == |OfCodes(s, {groups[i].0})| > 0)
    && (forall i, j | 0 <= i < j < |groups| :: groups[i].0 != groups[j].0)
    && (forall x | x in s :: exists i | 0 <= i < |groups| :: groups[i].0 == x.code)
  }

  lemma OneMoreCode(s: set<Exception>, codes: set<Code>, c: Code)
    requires c !in codes
    ensures |OfCodes(s, codes + {c})| == |OfCodes(s, codes)| + |OfCodes(s, {c})|
  {
    TwoParts(OfCodes(s, codes + {c}), OfCodes(s, codes), OfCodes(s, {c}));
  }

  lemma NoCodes(s: set<Exception>)
    ensures OfCodes(s, {}) == {}
  {
  }

  function CountFor(byCode: map<Code, nat>, c: Code): nat { if c in byCode then byCode[c] else 0 }

  /** Reconciler.Count on the groups of the same union: the count of each code is the size of its query's
      answer, and the total is the length of the report Run gives for the same tables. */
  method Count(ghost db: Db, ghost cutoff: int, groups: seq<(Code, nat)>) returns (byCode: map<Code, nat>, total: nat)
    requires Grouped(groups, Exceptions(db, cutoff))
    ensures total == |Exceptions(db, cutoff)|
    ensures forall c: Code :: CountFor(byCode, c) == |QueryFor(db, cutoff, c)|
  {
    hide Exceptions, QueryFor, CountFor, OfCodes;
    ghost var s := Exceptions(db, cutoff);
    byCode, total := map[], 0;
    NoCodes(s);
    assert byCode.Keys == {};
    for i := 0 to |groups|
      invariant forall c | c in byCode :: byCode[c] == |OfCodes(s, {c})|
      invariant forall c | c in byCode :: exists k | 0 <= k < i :: groups[k].0 == c
      invariant forall k | 0 <= k < i :: groups[k].0 in byCode
      invariant total == |OfCodes(s, byCode.Keys)|
    {
      var (code, count) := groups[i];
      assert groups[i].0 !in byCode;
      OneMoreCode(s, byCode.Keys, code);
      assert byCode[code := count].Keys == byCode.Keys + {code};
      byCode := byCode[code := count];
      total := total + count;
    }
    CountsAnswer(db, cutoff, byCode);
  }

  lemma CountsAnswer(db: Db, cutoff: int, byCode: map<Code, nat>)
    requires forall c | c in byCode :: byCode[c] == |OfCodes(Exceptions(db, cutoff), {c})|
    requires forall x | x in Exceptions(db, cutoff) :: x.code in byCode
    ensures OfCodes(Exceptions(db, cutoff), byCode.Keys) == Exceptions(db, cutoff)
    ensures forall c: Code :: CountFor(byCode, c) == |QueryFor(db, cutoff, c)|
  {
    hide Exceptions, QueryFor;
    forall c: Code ensures CountFor(byCode, c) == |QueryFor(db, cutoff, c)| {
      CodeIsQuery(db, cutoff, c);
      if c !in byCode { assert OfCodes(Exceptions(db, cutoff), {c}) == {}; }
    }
  }
}
