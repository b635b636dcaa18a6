/** Runs that show the limits are real: the exceptions the reconciler can still report, and what happens
    once a cached decision has expired. */
module PipelineWitness {
  import opened Text
  import opened Domain
  import opened Validation
  import opened EventContract
  import opened Ledger
  import opened LedgerInvariant
  import opened Scoring
  import opened Kafka
  import opened Pipeline
  import opened PipelineInvariant
  import opened PipelineSafety
  import Creation
  import Deliveries
  import OutboxStore
  import R = Reconciliation

  lemma ThreeMoves(cfg: Config, s: State, a: Move, b: Move, c: Move)
    ensures Run(cfg, s, [a, b, c]) == Step(cfg, Step(cfg, Step(cfg, s, a), b), c)
  {
    hide Step;
    assert [a, b, c][1..] == [b, c] && [b, c][1..] == [c] && [c][1..] == [];
    assert Run(cfg, s, [a, b, c]) == Run(cfg, Step(cfg, s, a), [b, c]);
    assert Run(cfg, Step(cfg, s, a), [b, c]) == Run(cfg, Step(cfg, Step(cfg, s, a), b), [c]);
  }

  lemma FourMoves(cfg: Config, s: State, a: Move, b: Move, c: Move, d: Move)
    ensures Run(cfg, s, [a, b, c, d]) == Step(cfg, Step(cfg, Step(cfg, Step(cfg, s, a), b), c), d)
  {
    hide Step;
    assert [a, b, c, d][1..] == [b, c, d];
    ThreeMoves(cfg, Step(cfg, s, a), b, c, d);
  }

  // ---------------------------------------------------------------- a bad record ends as REJECTED

  const BAD_RECORD: seq<Move> := [DecNoise(0, Garbage("?")), Consumer(0, Join(0)), Consumer(0, Read),
      Consumer(0, Reject(true))]

  lemma RejectedIsReachable(cfg: Config)
    requires ValidConfig(cfg)
    ensures exists x :: x in R.Exceptions(Run(cfg, Init(cfg), BAD_RECORD).db, 0) && x.code == R.REJECTED_DECISION_EVENT
  {
    var c := Coord(cfg.decTopic, 0, 0);
    BadRecordRun(cfg);
    var db := Run(cfg, Init(cfg), BAD_RECORD).db;
    hide Run, Init, R.MissingDecisions, R.DuplicateDecisions, R.DuplicateDeliveries, R.StatusMismatches;
    hide R.MissingQueueRows, R.UnexpectedQueueRows;
    assert R.Exception(R.REJECTED_DECISION_EVENT, None, None, Some(c), 0) in R.RejectedEvents(db);
  }

  lemma BadRecordRun(cfg: Config)
    requires ValidConfig(cfg)
    ensures var db := Run(cfg, Init(cfg), BAD_RECORD).db; var c := Coord(cfg.decTopic, 0, 0);
            c in db.receipts && db.receipts[c].disposition.Rejected?
  {
    hide Run, Utf8, TrimSpace, Step, Append;
    var c := Coord(cfg.decTopic, 0, 0);
    var s1 := Step(cfg, Init(cfg), DecNoise(0, Garbage("?")));
    var s2 := Step(cfg, s1, Consumer(0, Join(0)));
    var s3 := Step(cfg, s2, Consumer(0, Read));
    FourMoves(cfg, Init(cfg), DecNoise(0, Garbage("?")), Consumer(0, Join(0)), Consumer(0, Read),
        Consumer(0, Reject(true)));
    NoiseStep(cfg, Init(cfg));
    JoinStep(cfg, s1);
    RefusedStep(cfg, s2, c);
    RejectedStep(cfg, s3, c);
  }

  lemma NoiseStep(cfg: Config, s: State)
    requires s == Init(cfg)
    ensures Step(cfg, s, DecNoise(0, Garbage("?"))) == s.(dec := Append(s.dec, 0, Garbage("?")))
    ensures Append(s.dec, 0, Garbage("?")).name == cfg.decTopic
    ensures Append(s.dec, 0, Garbage("?")).records == map[Coord(cfg.decTopic, 0, 0) := Garbage("?")]
  {
  }

  lemma JoinStep(cfg: Config, s: State)
    requires s.consumers == map[] && s.decOffsets == map[]
    ensures Step(cfg, s, Consumer(0, Join(0))) == s.(consumers := map[0 := ConsumerSession(0, 0, Polling)])
  {
  }

  lemma RefusedStep(cfg: Config, s: State, c: Coord)
    requires s.consumers == map[0 := ConsumerSession(0, 0, Polling)] && c == Coord(s.dec.name, 0, 0)
    requires c in s.dec.records && s.dec.records[c] == Garbage("?")
    ensures Step(cfg, s, Consumer(0, Read)) == s.(consumers := map[0 := ConsumerSession(0, 0, Refusing(InvalidEvent))])
  {
  }

  lemma RejectedStep(cfg: Config, s: State, c: Coord)
    requires s.consumers == map[0 := ConsumerSession(0, 0, Refusing(InvalidEvent))]
    requires c == Coord(s.dec.name, 0, 0) && ValidSource(c)
    requires c in s.dec.records && s.dec.records[c] == Garbage("?") && s.db.receipts == map[]
    ensures var db := Step(cfg, s, Consumer(0, Reject(true))).db;
            c in db.receipts && db.receipts[c].disposition.Rejected?
  {
    hide ValidSource;
  }

  // ---------------------------------------------------------------- a slow decision is reported as missing

  /** The two moves after which an accepted request's event is published and not yet scored. */
  function PublishedMoves(cfg: Config, key: string, r: Request, now: int): seq<Move> {
    [Create(key, r, V4(0), now), Send(V4(1), 0), Mark(V4(1), Coord(cfg.payTopic, 0, 0))]
  }

  lemma MissingIsReachable(cfg: Config, key: string, r: Request, now: int, cutoff: int)
    requires Creation.KeyOf(key).Key? && ValidRequest(Normalize(r)) && now != 0 && now <= cutoff
    ensures var db := Run(cfg, Init(cfg), PublishedMoves(cfg, key, r, now)).db;
            exists x :: x in R.Exceptions(db, cutoff) && x.code == R.MISSING_DECISION
  {
    hide Run, Step, ValidRequest, Normalize, Creation.KeyOf, Creation.Candidate, Creation.EventFor;
    var c := Coord(cfg.payTopic, 0, 0);
    var s1 := Step(cfg, Init(cfg), Create(key, r, V4(0), now));
    var s2 := Step(cfg, s1, Send(V4(1), 0));
    ThreeMoves(cfg, Init(cfg), Create(key, r, V4(0), now), Send(V4(1), 0), Mark(V4(1), c));
    FirstCreated(cfg, key, r, now);
    FirstSent(cfg, s1, now);
    hide Init, OutboxStore.Publishable;
    assert V4(1) in s1.db.outbox.Keys && V4(0) in s1.db.payments.Keys;
    FirstMarked(cfg, s2);
    PendingIsMissing(Step(cfg, s2, Mark(V4(1), c)).db, cutoff);
  }

  /** One payment, one row. */
  ghost predicate OnePayment(s: State, delivery: Delivery, latest: int) {
    && s.db.payments.Keys == {V4(0)} && s.db.payments[V4(0)].status.PendingRisk? &&
        s.db.payments[V4(0)].createdAt <= latest
    && s.db.outbox.Keys == {V4(1)} && s.db.outbox[V4(1)].event.aggregateId == V4(0) &&
        s.db.outbox[V4(1)].delivery == delivery
    && OutboxStore.Publishable(s.db.outbox[V4(1)].event) && s.db.outbox[V4(1)].event.eventType.PaymentsCreated? &&
        s.db.decisions == map[]
  }

  lemma FirstCreated(cfg: Config, key: string, r: Request, now: int)
    requires Creation.KeyOf(key).Key? && ValidRequest(Normalize(r)) && now != 0
    ensures var s := Step(cfg, Init(cfg), Create(key, r, V4(0), now));
            OnePayment(s, Pending, now) && s.pay == Init(cfg).pay
  {
    hide ValidRequest, Normalize, Creation.KeyOf, Deliveries.Perform, Creation.Candidate, Creation.EventFor;
    var x := Creation.Candidate(Creation.KeyOf(key).key, Normalize(r), V4(0), now);
    var event := Creation.EventFor(x, V4(1), V4(0));
    FirstCandidate(Creation.KeyOf(key).key, Normalize(r), now);
    FirstRows(x, event, now);
  }

  lemma FirstCandidate(key: string, r: Request, now: int)
    requires now != 0
    ensures var x := Creation.Candidate(key, r, V4(0), now);
            var e := Creation.EventFor(x, V4(1), V4(0));
            x.id == V4(0) && x.status.PendingRisk? && x.createdAt == now && e.id == V4(1) &&
                e.aggregateId == V4(0) && OutboxStore.Publishable(e) && e.eventType.PaymentsCreated?
  {
    Creation.CandidateParts(key, r, V4(0), now, V4(1), V4(0));
  }

  lemma FirstRows(x: Payment, event: OutboxEvent, now: int)
    requires x.id == V4(0) && event.id == V4(1)
    ensures var n := Deliveries.Perform(EMPTY_DB, Deliveries.Creating(x, event, now));
            n == EMPTY_DB.(payments := map[V4(0) := x], outbox := map[V4(1) := NewRow(event, now)])
  {
  }

  lemma FirstSent(cfg: Config, s: State, latest: int)
    requires OnePayment(s, Pending, latest)
    requires s.pay == Init(cfg).pay
    ensures var n := Step(cfg, s, Send(V4(1), 0)); var c := Coord(cfg.payTopic, 0, 0);
            n == s.(pay := n.pay) && c in n.pay.records && n.pay.records[c] == PayEvent(s.db.outbox[V4(1)].event)
  {
    assert V4(1) in s.db.outbox.Keys;
    hide OutboxStore.Publishable;
  }

  lemma FirstMarked(cfg: Config, s: State)
    requires var c := Coord(cfg.payTopic, 0, 0);
             V4(1) in s.db.outbox && c in s.pay.records && s.pay.records[c] == PayEvent(s.db.outbox[V4(1)].event)
    requires s.db.outbox[V4(1)].delivery.Pending?
    ensures var n := Step(cfg, s, Mark(V4(1), Coord(cfg.payTopic, 0, 0)));
            n.db == s.db.(outbox := s.db.outbox[V4(1) := s.db.outbox[V4(1)].(delivery := Published,
                attempts := s.db.outbox[V4(1)].attempts + 1)])
  {
  }

  lemma PendingIsMissing(db: Db, cutoff: int)
    requires V4(0) in db.payments && db.payments[V4(0)].status.PendingRisk? && db.payments[V4(0)].createdAt <= cutoff
    requires V4(1) in db.outbox && db.outbox[V4(1)].event.aggregateId == V4(0) &&
        db.outbox[V4(1)].delivery.Published? && db.outbox[V4(1)].event.eventType.PaymentsCreated?
    requires db.decisions == map[]
    ensures exists x :: x in R.Exceptions(db, cutoff) && x.code == R.MISSING_DECISION
  {
    hide R.DuplicateDecisions, R.DuplicateDeliveries, R.StatusMismatches, R.MissingQueueRows, R.UnexpectedQueueRows;
    hide R.RejectedEvents;
    assert R.Exception(R.MISSING_DECISION, Some(V4(0)), None, None, 0) in R.MissingDecisions(db, cutoff);
  }

  // ---------------------------------------------------------------- a second record of one decision

  /** Whenever the topic holds a decision twice and the first record was applied, handling the second makes
      the reconciler report a duplicate delivery. */
  lemma SecondRecordIsDuplicate(db: Db, d: Uuid, c: Coord, x: Coord, cutoff: int)
    requires DbInv(db) && d in db.decisions && ContractOk(db.decisions[d]) && c in db.receipts &&
        x !in db.receipts && ValidSource(x)
    requires !db.receipts[c].disposition.Rejected? && db.receipts[c].eventId == Some(d)
    ensures var (n, ok) := Deliveries.Handle(db, Record(x, Json(db.decisions[d])));
            ok && R.Exception(R.DUPLICATE_DELIVERY, Some(db.decisions[d].payload.paymentId), Some(d), None,
                |R.DeliveriesOf(n.receipts, d)|) in R.Exceptions(n, cutoff)
  {
    hide DbInv, ContractOk, ValidSource, Deliveries.Handle, R.Exceptions;
    var e := db.decisions[d];
    DecisionHome(db, d);
    ReplayHandled(db, e, x);
    ReportedTwice(Deliveries.Handle(db, Record(x, Json(e))).0, d, c, x, cutoff);
  }

  lemma DecisionHome(db: Db, d: Uuid)
    requires DbInv(db) && d in db.decisions
    ensures var e := db.decisions[d]; d == e.payload.decisionId && d == e.eventId && e.payload.paymentId in db.payments
  {
    hide Outboxed, Queued, Audited, Receipted;
  }

  lemma ReplayHandled(db: Db, e: Event, x: Coord)
    requires ContractOk(e) && ValidSource(x) && x !in db.receipts && e.payload.paymentId in db.payments
    requires e.payload.decisionId in db.decisions && db.decisions[e.payload.decisionId] == e
    ensures Deliveries.Handle(db,
        Record(x, Json(e))) == (db.(receipts := db.receipts[x := AcceptedReceipt(e, Record(x, Json(e)),
        Replayed)]), true)
  {
    hide ContractOk, ValidSource, SourceTaken, RoomFor;
  }

  lemma ReportedTwice(db: Db, d: Uuid, c: Coord, x: Coord, cutoff: int)
    requires d in db.decisions && c in db.receipts && x in db.receipts && c != x
    requires !db.receipts[c].disposition.Rejected? && db.receipts[c].eventId == Some(d)
    requires !db.receipts[x].disposition.Rejected? && db.receipts[x].eventId == Some(d)
    ensures R.Exception(R.DUPLICATE_DELIVERY, Some(db.decisions[d].payload.paymentId), Some(d), None,
        |R.DeliveriesOf(db.receipts, d)|) in R.Exceptions(db, cutoff)
  {
    var s := R.DeliveriesOf(db.receipts, d);
    assert c in s && x in s;
    TwoMembers(s, c, x);
    hide R.DeliveriesOf, R.MissingDecisions, R.DuplicateDecisions, R.StatusMismatches, R.MissingQueueRows;
    hide R.UnexpectedQueueRows, R.RejectedEvents;
    assert R.Exception(R.DUPLICATE_DELIVERY, Some(db.decisions[d].payload.paymentId), Some(d), None,
        |s|) in R.DuplicateDeliveries(db);
  }

  lemma TwoMembers<T>(s: set<T>, a: T, b: T)
    requires a in s && b in s && a != b
    ensures |s| >= 2
  {
    assert |s| == |s - {a} - {b}| + 2;
  }

  // ---------------------------------------------------------------- after a cached decision expired

  /** The record at `c` gets a REJECTED receipt when it is handled. */
  ghost predicate Doomed(s: State, c: Coord) {
    && c in s.sent && c in s.dec.records
    && var (db, ok) := Deliveries.Handle(s.db, Record(c, s.dec.records[c]));
       ok && c in db.receipts && db.receipts[c].disposition.Rejected?
  }

  /** The worker scores, saves and publishes, its decision being the first in the cache. */
  lemma LatePublication(cfg: Config, s: State, k: nat, m: Model, target: nat, acked: bool)
    requires k in s.risk && s.risk[k].phase.Observed? && ValidModel(m) && LabelOk(m)
    requires s.risk[k].phase.e.payload.Created? && s.risk[k].phase.e.id !in s.redis.decisions
    ensures var made := Decision(cfg.settings, s.risk[k].phase.e, s.risk[k].phase.f, m);
            Run(cfg, s, [Risk(k, Score(m)), Risk(k, Save), Risk(k, Publish(target, true, acked))])
              == s.(dec := Append(s.dec, target, Json(made)), sent := s.sent + {Next(s.dec, target)},
                    redis := s.redis.(decisions := s.redis.decisions[s.risk[k].phase.e.id := made]),
                    risk := s.risk[k := s.risk[k].(phase := if acked then Sent else Ready)])
  {
    hide Run, Decision, ValidModel, LabelOk, Append, Next;
    var e := s.risk[k].phase.e;
    var made := Decision(cfg.settings, e, s.risk[k].phase.f, m);
    ThreeMoves(cfg, s, Risk(k, Score(m)), Risk(k, Save), Risk(k, Publish(target, true, acked)));
    DecisionSource(cfg.settings, e, s.risk[k].phase.f, m);
    var s1 := Enter(s, k, Judged(e, made));
    var s2 := Enter(s, k, Saved(e, made)).(redis := s.redis.(decisions := s.redis.decisions[e.id := made]));
    assert Step(cfg, s, Risk(k, Score(m))) == s1;
    assert Step(cfg, s1, Risk(k, Save)) == s2;
  }

  lemma LateRecordDoomed(cfg: Config, n: State, c: Coord, d: Uuid)
    requires ValidConfig(cfg) && Inv(cfg, n) && c in n.sent && c !in n.db.receipts && c in n.dec.records &&
        n.dec.records[c].Json?
    requires d in n.db.decisions &&
        n.db.decisions[d].payload.sourceEventId == n.dec.records[c].event.payload.sourceEventId
    requires n.db.decisions[d] != n.dec.records[c].event
    ensures Doomed(n, c)
  {
    hide ValidConfig, Inv, Deliveries.Handle, ContractOk;
    assert Clashes(n.db.decisions, n.dec.records[c].event);
    FateIn(cfg, n, c);
  }

  /** A worker that observed an event, whose cached decision then expired, publishes a decision of its own:
      if it differs from the recorded one, its record is rejected. */
  lemma ExpiredCacheBreaks(cfg: Config, s: State, k: nat, m: Model, d: Uuid, target: nat)
    requires ValidConfig(cfg) && Inv(cfg, s) && k in s.risk && s.risk[k].phase.Observed? && ValidModel(m) && LabelOk(m)
    requires s.risk[k].phase.e.payload.Created? && s.risk[k].phase.e.id !in s.redis.decisions
    requires d in s.db.decisions && s.db.decisions[d].payload.sourceEventId == s.risk[k].phase.e.id
    requires s.db.decisions[d] != Decision(cfg.settings, s.risk[k].phase.e, s.risk[k].phase.f, m)
    ensures Doomed(Run(cfg, s, [Risk(k, Score(m)), Risk(k, Save), Risk(k, Publish(target, true, true))]),
        Next(s.dec, target))
  {
    hide ValidConfig, Inv, Run, Decision, ValidModel, LabelOk, Append, Next, Doomed;
    var moves := [Risk(k, Score(m)), Risk(k, Save), Risk(k, Publish(target, true, true))];
    Reachable(cfg, s, moves);
    LatePublication(cfg, s, k, m, target, true);
    DecisionSource(cfg.settings, s.risk[k].phase.e, s.risk[k].phase.f, m);
    FreshHere(cfg, s, target, Json(Decision(cfg.settings, s.risk[k].phase.e, s.risk[k].phase.f, m)));
    LateRecordDoomed(cfg, Run(cfg, s, moves), Next(s.dec, target), d);
  }

  lemma FreshHere(cfg: Config, s: State, target: nat, v: Value)
    requires Inv(cfg, s)
    ensures var c := Next(s.dec, target);
            c !in s.db.receipts && c in Append(s.dec, target, v).records && Append(s.dec, target, v).records[c] == v
  {
    hide TablesOk, PaymentsOk, CacheOk, WorkersOk, ConsumersOk, SentOk, ParseEvent;
    AppendGrows(s.dec, target, v);
  }
}
