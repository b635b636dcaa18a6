/** What the pipeline promises over whole runs: the reconciler and the dashboard in every reachable state,
    when the decision consumer accepts a worker's record, and what committed offsets guarantee. */
module PipelineSafety {
  import opened Text
  import opened Domain
  import opened EventContract
  import opened Ledger
  import opened LedgerInvariant
  import opened Scoring
  import opened Kafka
  import opened Pipeline
  import opened PipelineInvariant
  import opened Validation
  import Creation
  import Deliveries
  import OutboxStore
  import Reconciliation
  import Dashboard

  lemma ReachedInv(cfg: Config, moves: seq<Move>)
    requires ValidConfig(cfg)
    ensures Inv(cfg, Run(cfg, Init(cfg), moves))
  {
    hide *;
    InitInv(cfg);
    Reachable(cfg, Init(cfg), moves);
  }

  lemma ReachedDb(cfg: Config, moves: seq<Move>)
    requires ValidConfig(cfg)
    ensures DbInv(Run(cfg, Init(cfg), moves).db)
  {
    ReachedInv(cfg, moves);
    hide Run, Init, DbInv, Drawn, Readable, DecisionsMade, PaymentsOk, CacheOk, DecisionsOk, Receives, WorkersOk;
    hide ConsumersOk;
  }

  // ---------------------------------------------------------------- reconciler and dashboard

  /** Whatever crashes, duplicates, expires or interleaves, the reconciler finds no contradiction. */
  lemma NoContradictionReachable(cfg: Config, moves: seq<Move>, cutoff: int)
    requires ValidConfig(cfg)
    ensures forall x | x in Reconciliation.Exceptions(Run(cfg, Init(cfg), moves).db, cutoff) ::
        !Reconciliation.Contradiction(x.code)
  {
    hide Run, Init, DbInv, Reconciliation.Exceptions;
    ReachedDb(cfg, moves);
    Reconciliation.NoContradictions(Run(cfg, Init(cfg), moves).db, cutoff);
  }

  /** Every dashboard snapshot of every reachable state adds up. */
  lemma SnapshotsAddUp(cfg: Config, moves: seq<Move>, limit: int)
    requires ValidConfig(cfg) && 1 <= limit <= 100
    ensures var db := Run(cfg, Init(cfg), moves).db;
            var s := Dashboard.Load(db, limit).value;
            && s.payments == s.byStatus.pendingRisk + s.byStatus.allowed + s.byStatus.review + s.byStatus.blocked
            && s.byStatus.failed == 0 && s.decisions == s.payments - s.byStatus.pendingRisk
            && s.pendingReviews == s.byStatus.review
            && s.byStatus.allowed == s.byOutcome.allow + |Dashboard.WithReview(db.reviews, Approved)|
            && s.byStatus.blocked == s.byOutcome.block + |Dashboard.WithReview(db.reviews, Declined)|
  {
    hide Run, Init, DbInv;
    ReachedDb(cfg, moves);
    Dashboard.SnapshotAddsUp(Run(cfg, Init(cfg), moves).db, limit);
  }

  // ---------------------------------------------------------------- when a worker's record is accepted

  /** The tables hold another decision for the event's source. */
  ghost predicate Clashes(decisions: Decisions, e: Event) {
    exists d | d in decisions :: decisions[d].payload.sourceEventId == e.payload.sourceEventId && decisions[d] != e
  }

  /** No recorded decision belongs to the event's source or payment, and no row is keyed by its id. */
  ghost predicate Unrecorded(db: Db, e: Event) {
    && e.payload.decisionId !in db.decisions && !SourceTaken(db.decisions, e.payload.sourceEventId)
    && !HasDecision(db.decisions, e.payload.paymentId)
  }

  lemma PaymentOfMade(db: Db, serial: nat, e: Event)
    requires TablesOk(db, serial) && Made(db.outbox, e)
    ensures e.payload.paymentId in db.payments
  {
    assert Outboxed(db.payments, db.outbox);
    hide DbInv, Drawn, Readable, DecisionsMade, Announces, UniqueKeys;
  }

  lemma OutboxOnePerPayment(db: Db, serial: nat, o: Uuid, x: Uuid)
    requires TablesOk(db, serial) && o in db.outbox && x in db.outbox &&
        db.outbox[o].event.aggregateId == db.outbox[x].event.aggregateId
    ensures o == x
  {
    assert Outboxed(db.payments, db.outbox);
    hide DbInv, Drawn, Readable, DecisionsMade, Announces, UniqueKeys;
  }

  /** A recorded decision for the same payment has the same source, and one with the same id too. */
  lemma SameSource(db: Db, serial: nat, e: Event, d: Uuid)
    requires TablesOk(db, serial) && Made(db.outbox, e) && d in db.decisions
    requires d == e.payload.decisionId || db.decisions[d].payload.paymentId == e.payload.paymentId
    ensures db.decisions[d].payload.sourceEventId == e.payload.sourceEventId
  {
    assert Made(db.outbox, db.decisions[d]);
    assert db.decisions[d].payload.decisionId == d by {
      assert DecisionsUnique(db.decisions);
      hide DbInv, Made;
    }
    hide TablesOk;
    if d != e.payload.decisionId {
      OutboxOnePerPayment(db, serial, e.payload.sourceEventId, db.decisions[d].payload.sourceEventId);
    }
  }

  lemma NoClashNoDecision(db: Db, serial: nat, e: Event)
    requires TablesOk(db, serial) && Made(db.outbox, e) && !Clashes(db.decisions, e)
    ensures Unrecorded(db, e) || (e.payload.decisionId in db.decisions && db.decisions[e.payload.decisionId] == e)
  {
    hide TablesOk, Made;
    if !Unrecorded(db, e) {
      assert exists d | d in db.decisions ::
          d == e.payload.decisionId || db.decisions[d].payload.sourceEventId == e.payload.sourceEventId
                                           || db.decisions[d].payload.paymentId == e.payload.paymentId;
      var d :| d in db.decisions &&
          (d == e.payload.decisionId || db.decisions[d].payload.sourceEventId == e.payload.sourceEventId
                                     || db.decisions[d].payload.paymentId == e.payload.paymentId);
      if db.decisions[d].payload.sourceEventId != e.payload.sourceEventId { SameSource(db, serial, e, d); }
      assert db.decisions[d] == e;
      KeyedByDecision(db, serial, d);
    }
  }

  lemma KeyedByDecision(db: Db, serial: nat, d: Uuid)
    requires TablesOk(db, serial) && d in db.decisions
    ensures db.decisions[d].payload.decisionId == d
  {
    assert DecisionsUnique(db.decisions);
    hide DbInv;
  }

  lemma UnrecordedIsPending(db: Db, serial: nat, e: Event)
    requires TablesOk(db, serial) && e.payload.paymentId in db.payments && Unrecorded(db, e)
    ensures db.payments[e.payload.paymentId].status.PendingRisk?
  {
    assert Decided(db.payments, db.decisions, db.reviews);
    hide DbInv, Drawn, Readable, DecisionsMade;
  }

  /** The ids of an unrecorded decision are free in every unique index. */
  lemma UnrecordedHasRoom(db: Db, serial: nat, e: Event)
    requires TablesOk(db, serial) && Made(db.outbox, e) && Unrecorded(db, e)
    ensures RoomFor(db, e)
  {
    MadeIdIsNamed(db.outbox, e);
    hide Outboxed, DecisionsUnique, Decided, Receipted, Queued, Audited, Drawn, Readable, DecisionsMade, Made;
    hide AuditTaken, QueuedDecision, SourceTaken;
    NoAuditRow(db, serial, e);
    NoQueueRows(db.decisions, db.reviews, e);
  }

  lemma NoQueueRows(decisions: Decisions, reviews: Reviews, e: Event)
    requires Queued(decisions, reviews) && e.payload.decisionId !in decisions &&
        !HasDecision(decisions, e.payload.paymentId)
    ensures e.payload.paymentId !in reviews && !QueuedDecision(reviews, e.payload.decisionId)
  {
    forall p | p in reviews
      ensures p != e.payload.paymentId && reviews[p].decisionId != e.payload.decisionId
    {
      assert QueueRowOk(decisions, p, reviews[p]);
    }
  }

  lemma NoAuditRow(db: Db, serial: nat, e: Event)
    requires Drawn(db.payments, db.outbox, db.audits, serial) && Audited(db.decisions, db.audits, db.reviews)
    requires e.payload.decisionId.V5? && e.payload.decisionId !in db.decisions
    ensures e.payload.decisionId !in db.audits && !AuditTaken(db.audits, RiskDecisionRecorded, e.payload.decisionId)
  {
    hide SystemAudited, ReviewsAudited, Solitary;
    forall a | a in db.audits
      ensures a != e.payload.decisionId &&
          (db.audits[a].kind.RiskDecisionRecorded? ==> db.audits[a].decisionId != e.payload.decisionId)
    {
      assert AuditRowOk(db.decisions, db.reviews, a, db.audits[a]);
    }
  }

  /** Apply on a worker's decision that has no receipt yet. */
  lemma ApplyMade(db: Db, serial: nat, e: Event, r: Record)
    requires TablesOk(db, serial) && Made(db.outbox, e) && ValidSource(r.at) && r.at !in db.receipts
    ensures Clashes(db.decisions, e) ==> ApplyTx(db, e, r) == (db, Refused(DecisionClash))
    ensures !Clashes(db.decisions, e) ==> ApplyTx(db, e, r).1.Accepted?
  {
    PaymentOfMade(db, serial, e);
    if Clashes(db.decisions, e) {
      hide TablesOk, Made, RoomFor, ValidSource;
    } else {
      NoClashNoDecision(db, serial, e);
      if Unrecorded(db, e) {
        UnrecordedIsPending(db, serial, e);
        UnrecordedHasRoom(db, serial, e);
      }
      hide TablesOk, Made, Clashes, RoomFor, SourceTaken, HasDecision, ValidSource;
    }
  }

  /** What the consumer makes of the record at `c` when it handles it for the first time. */
  ghost predicate Verdicts(db: Db, c: Coord, v: Value) {
    var (n, ok) := Deliveries.Handle(db, Record(c, v));
    && ok && c in n.receipts && v.Json?
    && n.receipts[c].code == (if !ContractOk(v.event) then Some(InvalidEvent)
                              else if Clashes(db.decisions,
                                  v.event) then Some(RejectionCode.DecisionConflict) else None)
    && (n.receipts[c].disposition.Rejected? <==> n.receipts[c].code.Some?)
  }

  lemma HandleMade(db: Db, serial: nat, e: Event, c: Coord)
    requires TablesOk(db, serial) && Made(db.outbox, e) && ValidSource(c) && c !in db.receipts
    ensures Verdicts(db, c, Json(e))
  {
    hide TablesOk, Made, ValidSource, ContractOk, Clashes, SourceTaken, RoomFor;
    ApplyMade(db, serial, e, Record(c, Json(e)));
    if ApplyTx(db, e, Record(c, Json(e))).1.Accepted? { AcceptedReceiptWritten(db, e, Record(c, Json(e))); }
    hide ApplyTx;
  }

  lemma AcceptedReceiptWritten(db: Db, e: Event, r: Record)
    requires ApplyTx(db, e, r).1.Accepted? && r.at !in db.receipts
    ensures var n := ApplyTx(db, e, r).0;
            r.at in n.receipts && !n.receipts[r.at].disposition.Rejected? && n.receipts[r.at].code.None?
  {
    hide ValidSource, SourceTaken, RoomFor;
  }

  lemma SentCoordinate(cfg: Config, s: State, c: Coord)
    requires ValidConfig(cfg) && Inv(cfg, s) && c in s.sent
    ensures c in s.dec.records && s.dec.records[c].Json? && Made(s.db.outbox, s.dec.records[c].event) && ValidSource(c)
  {
    hide TablesOk, PaymentsOk, CacheOk, Receives, WorkersOk, ConsumersOk, ValidSettings, Made, ParseEvent, TrimSpace;
    hide Utf8;
    assert SentOk(s.dec.records, c, s.db.outbox);
  }

  /** In every reachable state, expiry or not: a record some risk worker wrote and that has no receipt yet
      is rejected exactly when its version label is too wide for the consumer, or when another decision for
      its source event is on record already; otherwise it is applied or replayed. */
  lemma WorkerRecordFate(cfg: Config, moves: seq<Move>, c: Coord)
    requires ValidConfig(cfg)
    ensures var s := Run(cfg, Init(cfg), moves);
            c in s.sent && c !in s.db.receipts ==> c in s.dec.records && Verdicts(s.db, c, s.dec.records[c])
  {
    hide *;
    var s := Run(cfg, Init(cfg), moves);
    ReachedInv(cfg, moves);
    if c in s.sent && c !in s.db.receipts { FateIn(cfg, s, c); }
  }

  lemma FateIn(cfg: Config, s: State, c: Coord)
    requires ValidConfig(cfg) && Inv(cfg, s) && c in s.sent && c !in s.db.receipts
    ensures c in s.dec.records && Verdicts(s.db, c, s.dec.records[c])
  {
    hide TablesOk, PaymentsOk, CacheOk, DecisionsOk, Receives, WorkersOk, ConsumersOk, Verdicts, Made, ValidSource;
    hide ValidConfig;
    SentCoordinate(cfg, s, c);
    HandleMade(s.db, s.serial, s.dec.records[c].event, c);
  }

  // ---------------------------------------------------------------- committed offsets

  /** No loss: below a committed risk offset every record is answered by a decision or a quarantine record,
      below a committed decision offset every record has a receipt of exactly that record. */
  lemma NothingLost(cfg: Config, moves: seq<Move>, c: Coord)
    requires ValidConfig(cfg)
    ensures var s := Run(cfg, Init(cfg), moves);
            && (c in s.pay.records && c.offset < Committed(s.riskOffsets, c.partition) ==>
                  RiskDone(s.pay.records, s.dec.records, s.sent, s.invalid, c))
            && (c in s.dec.records && c.offset < Committed(s.decOffsets, c.partition) ==>
                  c in s.db.receipts && s.db.receipts[c].digest == Digest(s.dec.records[c]))
  {
    hide *;
    ReachedInv(cfg, moves);
    LostIn(cfg, Run(cfg, Init(cfg), moves), c);
  }

  lemma LostIn(cfg: Config, s: State, c: Coord)
    requires Inv(cfg, s)
    ensures c in s.pay.records && c.offset < Committed(s.riskOffsets, c.partition) ==>
        RiskDone(s.pay.records, s.dec.records, s.sent, s.invalid, c)
    ensures c in s.dec.records && c.offset < Committed(s.decOffsets, c.partition) ==>
              c in s.db.receipts && s.db.receipts[c].digest == Digest(s.dec.records[c])
  {
    hide TablesOk, CacheOk, RiskDone, WorkerOk, ConsumerOk, ParseEvent, ParsePayment, SentOk, FromOutbox;
  }

  // ---------------------------------------------------------------- what most moves leave alone

  lemma InvTables(cfg: Config, s: State)
    requires Inv(cfg, s)
    ensures TablesOk(s.db, s.serial)
  {
    hide TablesOk, PaymentsOk, CacheOk, DecisionsOk, WorkersOk, ConsumersOk, Receives;
  }

  lemma TablesInv(db: Db, serial: nat)
    requires TablesOk(db, serial)
    ensures DbInv(db)
  {
    hide DbInv, Drawn, Readable, DecisionsMade;
  }

  lemma SentIsThere(records: map<Coord, Value>, c: Coord, outbox: Outbox)
    requires SentOk(records, c, outbox)
    ensures c in records
  {
    hide Made;
  }

  predicate TouchesDecisions(m: RiskMove) { m.Load? || m.Observing? || m.Score? || m.Save? || m.Publish? }

  /** Such a move changes sessions only, and leaves each in its phase, READY or SENT. */
  ghost predicate SessionsOnly(s: State, n: State) {
    && n == s.(risk := n.risk, invalid := n.invalid, riskOffsets := n.riskOffsets)
    && forall j | j in n.risk :: n.risk[j].phase.Ready? || n.risk[j].phase.Sent? ||
        (j in s.risk && n.risk[j].phase == s.risk[j].phase)
  }

  lemma QuietRisk(cfg: Config, s: State, k: nat, m: RiskMove)
    requires k !in s.risk || !TouchesDecisions(m)
    ensures SessionsOnly(s, RiskStep(cfg, s, k, m))
  {
    hide Committed, LoadStep, ObserveStep, ScoreStep, SaveStep, PublishStep;
    if k in s.risk && m.Commit? { assert CommitStep(s, k, m.lands, m.acked).risk.Keys == s.risk.Keys; }
  }

  lemma CreatingLeaves(db: Db, x: Payment, event: OutboxEvent, now: int)
    ensures var n := Deliveries.Perform(db, Deliveries.Creating(x, event, now));
            n.decisions == db.decisions && n.receipts == db.receipts
  {
    hide KeyTaken;
  }

  lemma ResolvingLeaves(db: Db, c: ResolveCommand)
    ensures ResolveTx(db, c).0.decisions == db.decisions && ResolveTx(db, c).0.receipts == db.receipts
  {
    hide AuditTaken;
  }

  lemma CreateLeaves(s: State, a: Move)
    requires a.Create?
    ensures SameForDecisions(s, CreateStep(s, a))
  {
    hide Creation.KeyOf, Creation.Candidate, Creation.EventFor, ValidRequest, Normalize, Deliveries.Perform;
    if CreateStep(s, a) != s {
      var x := Creation.Candidate(Creation.KeyOf(a.key).key, Normalize(a.request), V4(s.serial), a.now);
      CreatingLeaves(s.db, x, Creation.EventFor(x, V4(s.serial + 1), a.traceId), a.now);
    }
  }

  /** Nothing about decisions, their records, receipts or readers has changed. */
  ghost predicate SameForDecisions(s: State, n: State) {
    && n.db.decisions == s.db.decisions && n.db.receipts == s.db.receipts && n.dec == s.dec && n.sent == s.sent
    && n.risk == s.risk && n.consumers == s.consumers && n.redis.decisions == s.redis.decisions
    && n.decOffsets == s.decOffsets
  }

  lemma TablesKept(cfg: Config, s: State, a: Move)
    requires !a.Risk? && !a.Consumer? && !a.DecNoise? && !a.ExpireDecision?
    ensures SameForDecisions(s, Step(cfg, s, a))
  {
    hide SameForDecisions, CreateStep, SendStep, MarkStep, MissStep, ResolveStep, ExpireStep, RiskStep, ConsumerStep;
    hide ParsePayment;
    match a
    case Create(_, _, _, _) => CreateLeaves(s, a);
    case Send(_, _) => PublishingLeaves(s, a);
    case Mark(_, _) => PublishingLeaves(s, a);
    case Miss(_, _, _) => PublishingLeaves(s, a);
    case PayNoise(target, v) => PayingLeaves(s, target, v);
    case Resolve(_, _, _, _, _, _) => ResolveLeaves(s, a);
    case _ => ExpireLeaves(s, a);
  }

  lemma PublishingLeaves(s: State, a: Move)
    ensures a.Send? ==> SameForDecisions(s, SendStep(s, a))
    ensures a.Mark? ==> SameForDecisions(s, MarkStep(s, a))
    ensures a.Miss? ==> SameForDecisions(s, MissStep(s, a))
  {
    hide OutboxStore.Publishable, Append;
  }

  lemma PayingLeaves(s: State, target: int, v: PayValue)
    ensures SameForDecisions(s, s) && SameForDecisions(s, s.(pay := Append(s.pay, target, v)))
  {
    hide Append;
  }

  lemma ResolveLeaves(s: State, a: Move)
    requires a.Resolve?
    ensures SameForDecisions(s, ResolveStep(s, a))
  {
    hide ResolveTx;
    ResolvingLeaves(s.db, ResolveCommand(a.paymentId, a.action, a.expectedVersion, a.reason, a.reviewer,
        V4(s.serial), a.resolvedAt));
  }

  lemma ExpireLeaves(s: State, a: Move)
    requires a.ExpireSnapshot? || a.ExpireCustomer?
    ensures SameForDecisions(s, ExpireStep(s, a))
  {
  }
}
