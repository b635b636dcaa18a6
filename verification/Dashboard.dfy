/** The dashboard's count queries over one repeatable-read snapshot, and what they must add up to. */
module Dashboard {
  import opened Text
  import opened Domain
  import opened LedgerInvariant
  import opened Counting

  datatype ByStatus = ByStatus(pendingRisk: nat, allowed: nat, review: nat, blocked: nat, failed: nat)
  datatype ByOutcome = ByOutcome(allow: nat, review: nat, block: nat)
  datatype Summary = Summary(
    payments: nat, byStatus: ByStatus, decisions: nat, byOutcome: ByOutcome, pendingReviews: nat,
    outboxPending: nat, outboxRetrying: nat, outboxDeadLettered: nat, rejectedEvents: nat)

  function WithStatus(payments: Payments, s: Status): set<Uuid> {
    set p | p in payments && payments[p].status == s
  }

  function WithVerdict(decisions: Decisions, v: Verdict): set<Uuid> {
    set d | d in decisions && decisions[d].payload.verdict == v
  }

  function WithReview(reviews: Reviews, s: ReviewStatus): set<Uuid> {
    set p | p in reviews && reviews[p].status == s
  }

  function WithDelivery(outbox: Outbox, d: Delivery): set<Uuid> {
    set o | o in outbox && outbox[o].delivery == d
  }

  /** Rows that failed at least once and are tried again. */
  function Retrying(outbox: Outbox): set<Uuid> {
    set o | o in outbox && outbox[o].delivery == Pending && outbox[o].attempts > 0
  }

  function Refused(receipts: Receipts): set<Coord> {
    set c | c in receipts && receipts[c].disposition == Rejected
  }

  /** PostgresRepository.Load: the summary queries; a limit outside 1-100 is an error. */
  function Load(db: Db, recentLimit: int): Option<Summary> {
    if recentLimit < 1 || recentLimit > 100 then None
    else Some(Summary(
      |db.payments|,
      ByStatus(|WithStatus(db.payments, PendingRisk)|, |WithStatus(db.payments, Allowed)|,
          |WithStatus(db.payments, UnderReview)|,
               |WithStatus(db.payments, Blocked)|, |WithStatus(db.payments, Failed)|),
      |db.decisions|,
      ByOutcome(|WithVerdict(db.decisions, Allow)|, |WithVerdict(db.decisions, Review)|,
          |WithVerdict(db.decisions, Block)|),
      |WithReview(db.reviews, Waiting)|,
      |WithDelivery(db.outbox, Pending)|, |Retrying(db.outbox)|, |WithDelivery(db.outbox, DeadLettered)|,
      |Refused(db.receipts)|))
  }

  // ---------------------------------------------------------------- counting

  /** Payments decided with one verdict, as a set of payments. */
  ghost function PaymentsDecided(decisions: Decisions, v: Verdict): map<Uuid, Uuid> {
    map d | d in decisions && decisions[d].payload.verdict == v :: decisions[d].payload.paymentId
  }

  lemma VerdictCount(decisions: Decisions, v: Verdict)
    requires DecisionsUnique(decisions)
    ensures |WithVerdict(decisions, v)| == |PaymentsDecided(decisions, v).Values|
  {
    var m := PaymentsDecided(decisions, v);
    InjectiveCount(m);
    assert m.Keys == WithVerdict(decisions, v);
  }

  lemma VerdictSplit(decisions: Decisions)
    ensures |decisions| == |WithVerdict(decisions, Allow)| + |WithVerdict(decisions,
        Review)| + |WithVerdict(decisions, Block)|
  {
    assert decisions.Keys == WithVerdict(decisions, Allow) + WithVerdict(decisions, Review) + WithVerdict(decisions,
        Block);
  }

  ghost function Among(payments: Payments, ss: set<Status>): set<Uuid> {
    set p | p in payments && payments[p].status in ss
  }

  lemma SplitOff(payments: Payments, s: Status, ss: set<Status>)
    requires s !in ss
    ensures |Among(payments, {s} + ss)| == |WithStatus(payments, s)| + |Among(payments, ss)|
  {
    TwoParts(Among(payments, {s} + ss), WithStatus(payments, s), Among(payments, ss));
  }

  lemma StatusSplit(payments: Payments)
    ensures |payments| == |WithStatus(payments, PendingRisk)| + |WithStatus(payments,
        Allowed)| + |WithStatus(payments, UnderReview)|
                        + |WithStatus(payments, Blocked)| + |WithStatus(payments, Failed)|
  {
    var all := {PendingRisk} + ({Allowed} + ({UnderReview} + ({Blocked} + ({Failed} + {}))));
    forall s: Status ensures s in all {
      match s case PendingRisk => case Allowed => case UnderReview => case Blocked => case Failed =>
    }
    assert Among(payments, all) == payments.Keys;
    assert Among(payments, {}) == {};
    hide Among, WithStatus;
    SplitOff(payments, Failed, {});
    SplitOff(payments, Blocked, {Failed} + {});
    SplitOff(payments, UnderReview, {Blocked} + ({Failed} + {}));
    SplitOff(payments, Allowed, {UnderReview} + ({Blocked} + ({Failed} + {})));
    SplitOff(payments, PendingRisk, {Allowed} + ({UnderReview} + ({Blocked} + ({Failed} + {}))));
  }

  /** REVIEW decisions and queue rows are counted alike, and the queue splits by resolution. */
  lemma ReviewCount(decisions: Decisions, reviews: Reviews)
    requires Queued(decisions, reviews)
    ensures PaymentsDecided(decisions, Review).Values == reviews.Keys
    ensures |reviews| == |WithReview(reviews, Waiting)| + |WithReview(reviews, Approved)| + |WithReview(reviews,
        Declined)|
  {
    var m := PaymentsDecided(decisions, Review);
    forall p | p in reviews ensures p in m.Values {
      assert QueueRowOk(decisions, p, reviews[p]);
      assert m[reviews[p].decisionId] == p;
    }
    forall p | p in m.Values ensures p in reviews {
      var d :| d in m && m[d] == p;
    }
    StatusesPartition(reviews);
  }

  lemma StatusesPartition(reviews: Reviews)
    ensures |reviews| == |WithReview(reviews, Waiting)| + |WithReview(reviews, Approved)| + |WithReview(reviews,
        Declined)|
  {
    assert reviews.Keys == WithReview(reviews, Waiting) + WithReview(reviews, Approved) + WithReview(reviews, Declined);
  }

  lemma DecidedMember(decisions: Decisions, v: Verdict, p: Uuid)
    ensures p in PaymentsDecided(decisions, v).Values <==>
              exists d | d in decisions :: decisions[d].payload.paymentId == p && decisions[d].payload.verdict == v
  {
    var m := PaymentsDecided(decisions, v);
    if p in m.Values {
      var d :| d in m && m[d] == p;
      assert decisions[d].payload.paymentId == p;
    }
    if d :| d in decisions && decisions[d].payload.paymentId == p && decisions[d].payload.verdict == v {
      assert d in m && m[d] == p;
    }
  }

  /** Where one payment stands. */
  lemma PaymentPlace(payments: Payments, decisions: Decisions, reviews: Reviews, p: Uuid)
    requires DecisionsUnique(decisions) && Decided(payments, decisions, reviews) && Queued(decisions, reviews)
    requires p in payments
    ensures payments[p].status == Allowed <==>
        p in PaymentsDecided(decisions, Allow).Values || p in WithReview(reviews, Approved)
    ensures payments[p].status == Blocked <==>
        p in PaymentsDecided(decisions, Block).Values || p in WithReview(reviews, Declined)
    ensures payments[p].status == UnderReview <==> p in WithReview(reviews, Waiting)
    ensures payments[p].status != Failed
    ensures p in reviews ==> p !in PaymentsDecided(decisions, Allow).Values
    ensures p in reviews ==> p !in PaymentsDecided(decisions, Block).Values
  {
    DecidedMember(decisions, Allow, p);
    DecidedMember(decisions, Block, p);
    hide PaymentsDecided;
    if p in reviews { assert QueueRowOk(decisions, p, reviews[p]); }
    assert payments[p].status.PendingRisk? || HasDecision(decisions, p);
  }

  lemma OnlyPayments(payments: Payments, decisions: Decisions, reviews: Reviews, p: Uuid)
    requires Decided(payments, decisions, reviews) && Queued(decisions, reviews)
    ensures p in PaymentsDecided(decisions, Allow).Values ==> p in payments
    ensures p in PaymentsDecided(decisions, Block).Values ==> p in payments
    ensures p in reviews ==> p in payments
  {
    DecidedMember(decisions, Allow, p);
    DecidedMember(decisions, Block, p);
    hide PaymentsDecided;
    if p in reviews { assert QueueRowOk(decisions, p, reviews[p]); }
  }

  /** The payments in each decided status. */
  lemma StatusSets(payments: Payments, decisions: Decisions, reviews: Reviews)
    requires DecisionsUnique(decisions) && Decided(payments, decisions, reviews) && Queued(decisions, reviews)
    ensures WithStatus(payments, Allowed) == PaymentsDecided(decisions, Allow).Values + WithReview(reviews, Approved)
    ensures WithStatus(payments, Blocked) == PaymentsDecided(decisions, Block).Values + WithReview(reviews, Declined)
    ensures WithStatus(payments, UnderReview) == WithReview(reviews, Waiting)
    ensures WithStatus(payments, Failed) == {}
    ensures PaymentsDecided(decisions, Allow).Values !! WithReview(reviews, Approved)
    ensures PaymentsDecided(decisions, Block).Values !! WithReview(reviews, Declined)
  {
    hide DecisionsUnique, Decided, Queued, PaymentsDecided;
    forall p { OnlyPayments(payments, decisions, reviews, p); }
    forall p | p in payments { PaymentPlace(payments, decisions, reviews, p); }
  }

  /** Conservation in every snapshot of consistent tables. */
  lemma SnapshotAddsUp(db: Db, limit: int)
    requires DbInv(db) && 1 <= limit <= 100
    ensures var s := Load(db, limit).value;
            && s.payments == s.byStatus.pendingRisk + s.byStatus.allowed + s.byStatus.review + s.byStatus.blocked
            && s.byStatus.failed == 0
            && s.decisions == s.byOutcome.allow + s.byOutcome.review + s.byOutcome.block
            && s.decisions == s.payments - s.byStatus.pendingRisk
            && s.pendingReviews == s.byStatus.review
            && s.byStatus.allowed == s.byOutcome.allow + |WithReview(db.reviews, Approved)|
            && s.byStatus.blocked == s.byOutcome.block + |WithReview(db.reviews, Declined)|
            && s.byOutcome.review == s.pendingReviews + |WithReview(db.reviews, Approved)| + |WithReview(db.reviews,
                Declined)|
  {
    hide Outboxed, DecisionsUnique, Decided, Queued, Audited, Receipted, WithStatus, WithVerdict, WithReview;
    hide PaymentsDecided;
    VerdictSplit(db.decisions);
    StatusSplit(db.payments);
    VerdictCount(db.decisions, Allow);
    VerdictCount(db.decisions, Review);
    VerdictCount(db.decisions, Block);
    ReviewCount(db.decisions, db.reviews);
    StatusSets(db.payments, db.decisions, db.reviews);
  }

  /** The delivery states of the outbox add up too: one row per payment, each pending, published or dead. */
  lemma OutboxAddsUp(db: Db, limit: int)
    requires DbInv(db) && 1 <= limit <= 100
    ensures var s := Load(db, limit).value;
            && s.outboxRetrying <= s.outboxPending
            && s.payments == s.outboxPending + s.outboxDeadLettered + |WithDelivery(db.outbox, Published)|
  {
    hide DecisionsUnique, Decided, Queued, Audited, Receipted, WithStatus, WithVerdict, WithReview;
    OneRowPerPayment(db.payments, db.outbox);
    hide Outboxed;
    DeliverySplit(db.outbox);
  }

  lemma DeliverySplit(outbox: Outbox)
    ensures |outbox| == |WithDelivery(outbox, Pending)| + |WithDelivery(outbox, DeadLettered)|
                        + |WithDelivery(outbox, Published)|
    ensures |Retrying(outbox)| <= |WithDelivery(outbox, Pending)|
  {
    var pending, dead := WithDelivery(outbox, Pending), WithDelivery(outbox, DeadLettered);
    var published := WithDelivery(outbox, Published);
    TwoParts(outbox.Keys, pending, dead + published);
    TwoParts(dead + published, dead, published);
    SubsetCount(Retrying(outbox), pending);
  }

  lemma OneRowPerPayment(payments: Payments, outbox: Outbox)
    requires Outboxed(payments, outbox)
    ensures |payments| == |outbox|
  {
    var m := map o | o in outbox :: outbox[o].event.aggregateId;
    InjectiveCount(m);
    assert m.Keys == outbox.Keys;
    PaymentsAnnounced(payments, outbox, m);
  }

  lemma PaymentsAnnounced(payments: Payments, outbox: Outbox, m: map<Uuid, Uuid>)
    requires Outboxed(payments, outbox) && m == map o | o in outbox :: outbox[o].event.aggregateId
    ensures m.Values == payments.Keys
  {
    forall p | p in payments ensures p in m.Values {
      assert HasOutboxRow(outbox, p);
      var o :| o in outbox && outbox[o].event.aggregateId == p;
      assert m[o] == p;
    }
    forall p | p in m.Values ensures p in payments {
      var o :| o in m && m[o] == p;
    }
  }

  /** A summary is refused exactly for a limit outside 1-100. Empty tables have nothing rejected, pending,
      retrying or dead; a new receipt raises the rejections by one exactly when it is one, and a new outbox row
      the pending ones while it is not delivered, the retrying ones from its first failure, the dead ones after
      the last. */
  lemma CountedAs(db: Db, c: Coord, r: Receipt, o: Uuid, row: OutboxRow, limit: int)
    requires c !in db.receipts && o !in db.outbox
    ensures Load(db, limit) == None <==> limit < 1 || 100 < limit
    ensures 1 <= limit <= 100 ==>
              var s := Load(db, limit).value;
              var n := Load(db.(receipts := db.receipts[c := r], outbox := db.outbox[o := row]), limit).value;
              && (db.receipts == map[] ==> s.rejectedEvents == 0)
              && (db.outbox == map[] ==> s.outboxPending == s.outboxRetrying == s.outboxDeadLettered == 0)
              && n.rejectedEvents - s.rejectedEvents == (if r.disposition == Rejected then 1 else 0)
              && n.outboxPending - s.outboxPending == (if row.delivery == Pending then 1 else 0)
              && n.outboxRetrying - s.outboxRetrying ==
                   (if row.delivery == Pending && row.attempts >= 1 then 1 else 0)
              && n.outboxDeadLettered - s.outboxDeadLettered == (if row.delivery == DeadLettered then 1 else 0)
  {
    RefusedCounts(db.receipts, c, r);
    DeliveryCounts(db.outbox, o, row, Pending);
    DeliveryCounts(db.outbox, o, row, DeadLettered);
    RetryingCounts(db.outbox, o, row);
    hide Refused, WithStatus, WithVerdict, WithReview, WithDelivery, Retrying;
  }

  lemma RefusedCounts(receipts: Receipts, c: Coord, r: Receipt)
    requires c !in receipts
    ensures Refused(map[]) == {}
    ensures |Refused(receipts[c := r])| == |Refused(receipts)| + if r.disposition == Rejected then 1 else 0
  {
    assert Refused(receipts[c := r])
        == if r.disposition == Rejected then Refused(receipts) + {c} else Refused(receipts);
  }

  lemma DeliveryCounts(outbox: Outbox, o: Uuid, row: OutboxRow, d: Delivery)
    requires o !in outbox
    ensures WithDelivery(map[], d) == {}
    ensures |WithDelivery(outbox[o := row], d)| == |WithDelivery(outbox, d)| + if row.delivery == d then 1 else 0
  {
    assert WithDelivery(outbox[o := row], d)
        == if row.delivery == d then WithDelivery(outbox, d) + {o} else WithDelivery(outbox, d);
  }

  lemma RetryingCounts(outbox: Outbox, o: Uuid, row: OutboxRow)
    requires o !in outbox
    ensures Retrying(map[]) == {}
    ensures |Retrying(outbox[o := row])| == |Retrying(outbox)|
              + if row.delivery == Pending && row.attempts >= 1 then 1 else 0
  {
    var before, after := Retrying(outbox), Retrying(outbox[o := row]);
    if row.delivery == Pending && row.attempts >= 1 {
      assert after == before + {o};
    } else {
      assert after == before;
    }
  }
}
