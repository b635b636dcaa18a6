/** What every step of the pipeline keeps, part by part. A step answers only for the parts it changes. */
module PipelineInvariant {
  import opened Text
  import opened Domain
  import opened Validation
  import opened EventContract
  import opened Ledger
  import opened LedgerInvariant
  import opened Features
  import opened Scoring
  import opened Kafka
  import opened Pipeline
  import Creation
  import Deliveries
  import OutboxStore
  import I = Interleaving

  // ---------------------------------------------------------------- the parts

  /** Random ids are below the serial counter; manual audit rows have random ids. */
  ghost predicate Drawn(payments: Payments, outbox: Outbox, audits: Audits, serial: nat) {
    && (forall p | p in payments :: p.V4? && p.serial < serial)
    && (forall o | o in outbox :: o.V4? && o.serial < serial)
    && (forall a | a in audits :: (a.V4? ==> a.serial < serial) && (audits[a].kind.RiskDecisionRecorded? || a.V4?))
  }

  /** The risk service reads every outbox event as it was written. */
  ghost predicate Readable(outbox: Outbox) {
    forall o | o in outbox :: ParsePayment(PayEvent(outbox[o].event)) == Some(outbox[o].event)
  }

  /** The decision was made for an event of the outbox. */
  ghost predicate Made(outbox: Outbox, d: Event) {
    d.payload.sourceEventId in outbox && MadeFor(d, outbox[d.payload.sourceEventId].event)
  }

  ghost predicate DecisionsMade(decisions: Decisions, outbox: Outbox) {
    forall d | d in decisions :: Made(outbox, decisions[d])
  }

  ghost predicate TablesOk(db: Db, serial: nat) {
    && DbInv(db) && Drawn(db.payments, db.outbox, db.audits, serial)
    && Readable(db.outbox) && DecisionsMade(db.decisions, db.outbox)
  }

  ghost predicate FromOutbox(outbox: Outbox, v: PayValue) {
    match ParsePayment(v)
    case None => true
    case Some(e) => e.id in outbox && outbox[e.id].event == e
  }

  /** Every payments record that parses is an event of the outbox. */
  ghost predicate PaymentsOk(pay: Topic<PayValue>, outbox: Outbox) {
    TopicOk(pay) && forall c | c in pay.records :: FromOutbox(outbox, pay.records[c])
  }

  ghost predicate CacheOk(redis: Redis, outbox: Outbox) {
    && (forall s | s in redis.decisions ::
        redis.decisions[s].payload.sourceEventId == s && Made(outbox, redis.decisions[s]))
    && (forall s | s in redis.snapshots :: SnapshotOk(redis.snapshots[s]))
    && (forall x | x in redis.baseline :: ValidCountry(redis.baseline[x]))
  }

  ghost predicate SentOk(records: map<Coord, Value>, c: Coord, outbox: Outbox) {
    c in records && records[c].Json? && Made(outbox, records[c].event)
  }

  /** The workers' records are decisions for outbox events; nobody else's record parses. */
  ghost predicate DecisionsOk(dec: Topic<Value>, sent: set<Coord>, outbox: Outbox) {
    && TopicOk(dec)
    && (forall c | c in sent :: SentOk(dec.records, c, outbox))
    && (forall c | c in dec.records && ParseEvent(dec.records[c]).Some? :: c in sent)
  }

  ghost predicate Receives(receipts: Receipts, records: map<Coord, Value>) {
    forall c | c in receipts :: c in records && receipts[c].digest == Digest(records[c])
  }

  /** A decision for the source event has been written to the decisions topic. */
  ghost predicate Written(records: map<Coord, Value>, sent: set<Coord>, source: Uuid) {
    exists c | c in sent :: c in records && records[c].Json? && records[c].event.payload.sourceEventId == source
  }

  ghost predicate RiskDone(pay: map<Coord, PayValue>, records: map<Coord, Value>, sent: set<Coord>,
        invalid: set<Coord>, c: Coord)
    requires c in pay
  {
    match ParsePayment(pay[c])
    case None => c in invalid
    case Some(e) => Written(records, sent, e.id)
  }

  /** Every payments record of the partition below `n` has been answered. */
  ghost predicate RiskBelow(pay: Topic<PayValue>, records: map<Coord, Value>, sent: set<Coord>, invalid: set<Coord>,
        partition: int, n: nat) {
    && partition >= 0 && n <= End(pay, partition)
    && forall c | c in pay.records && c.partition == partition && c.offset < n ::
        RiskDone(pay.records, records, sent, invalid, c)
  }

  ghost predicate Holding(pay: Topic<PayValue>, c: Coord, e: OutboxEvent) {
    c in pay.records && ParsePayment(pay.records[c]) == Some(e)
  }

  ghost predicate PhaseOk(pay: Topic<PayValue>, records: map<Coord, Value>, sent: set<Coord>, invalid: set<Coord>,
        c: Coord, phase: RiskPhase) {
    match phase
    case Ready => true
    case Malformed => c in pay.records && ParsePayment(pay.records[c]).None?
    case Missed(e) => Holding(pay, c, e)
    case Observed(e, f) => Holding(pay, c, e) && SnapshotOk(f)
    case Judged(e, d) => Holding(pay, c, e) && MadeFor(d, e)
    case Saved(e, d) => Holding(pay, c, e) && MadeFor(d, e)
    case Sent => c in pay.records && RiskDone(pay.records, records, sent, invalid, c)
  }

  ghost predicate WorkerOk(pay: Topic<PayValue>, records: map<Coord, Value>, sent: set<Coord>, invalid: set<Coord>,
        w: RiskSession) {
    && RiskBelow(pay, records, sent, invalid, w.partition, w.position)
    && PhaseOk(pay, records, sent, invalid, At(pay.name, w.partition, w.position), w.phase)
  }

  ghost predicate WorkersOk(risk: map<nat, RiskSession>, offsets: map<int, nat>, pay: Topic<PayValue>,
        records: map<Coord, Value>, sent: set<Coord>, invalid: set<Coord>) {
    && (forall k | k in risk :: WorkerOk(pay, records, sent, invalid, risk[k]))
    && (forall p | p in offsets :: RiskBelow(pay, records, sent, invalid, p, offsets[p]))
  }

  /** Every decisions record of the partition below `n` has a receipt. */
  ghost predicate ReceiptedBelow(dec: Topic<Value>, receipts: Receipts, partition: int, n: nat) {
    && partition >= 0 && n <= End(dec, partition)
    && forall c | c in dec.records && c.partition == partition && c.offset < n :: c in receipts
  }

  ghost predicate ConsumerOk(dec: Topic<Value>, receipts: Receipts, w: ConsumerSession) {
    var c := At(dec.name, w.partition, w.position);
    && ReceiptedBelow(dec, receipts, w.partition, w.position)
    && (!w.phase.Polling? ==> c in dec.records) && (w.phase.Handled? ==> c in receipts)
  }

  ghost predicate ConsumersOk(consumers: map<nat, ConsumerSession>, offsets: map<int, nat>, dec: Topic<Value>,
        receipts: Receipts) {
    && (forall k | k in consumers :: ConsumerOk(dec, receipts, consumers[k]))
    && (forall p | p in offsets :: ReceiptedBelow(dec, receipts, p, offsets[p]))
  }

  ghost predicate Inv(cfg: Config, s: State) {
    && s.pay.name == cfg.payTopic && s.dec.name == cfg.decTopic
    && TablesOk(s.db, s.serial)
    && PaymentsOk(s.pay, s.db.outbox)
    && CacheOk(s.redis, s.db.outbox)
    && DecisionsOk(s.dec, s.sent, s.db.outbox)
    && Receives(s.db.receipts, s.dec.records)
    && WorkersOk(s.risk, s.riskOffsets, s.pay, s.dec.records, s.sent, s.invalid)
    && ConsumersOk(s.consumers, s.decOffsets, s.dec, s.db.receipts)
  }

  // ---------------------------------------------------------------- growing tables and topics

  /** No outbox event changes or disappears. */
  ghost predicate SameEvents(a: Outbox, b: Outbox) {
    forall o | o in a :: o in b && b[o].event == a[o].event
  }

  lemma PartsFollowOutbox(s: State, a: Outbox, b: Outbox)
    requires SameEvents(a, b)
    ensures PaymentsOk(s.pay, a) ==> PaymentsOk(s.pay, b)
    ensures CacheOk(s.redis, a) ==> CacheOk(s.redis, b)
    ensures DecisionsOk(s.dec, s.sent, a) ==> DecisionsOk(s.dec, s.sent, b)
    ensures DecisionsMade(s.db.decisions, a) ==> DecisionsMade(s.db.decisions, b)
  {
    hide ParsePayment, ParseEvent, TopicOk, SnapshotOk, ValidCountry, MadeFor;
    forall d: Event ensures Made(a, d) ==> Made(b, d) { }
    forall v: PayValue ensures FromOutbox(a, v) ==> FromOutbox(b, v) { }
    forall c ensures SentOk(s.dec.records, c, a) ==> SentOk(s.dec.records, c, b) { }
    hide Made, FromOutbox, SentOk;
  }

  lemma WrittenStays(records: map<Coord, Value>, sent: set<Coord>, records': map<Coord, Value>, sent': set<Coord>,
        source: Uuid)
    requires Written(records, sent, source) && sent <= sent'
    requires forall c | c in records :: c in records' && records'[c] == records[c]
    ensures Written(records', sent', source)
  {
    var c :| c in sent && c in records && records[c].Json? && records[c].event.payload.sourceEventId == source;
    assert c in sent' && records'[c] == records[c];
  }

  lemma RiskBelowFollows(s: State, n: State, partition: int, k: nat)
    requires RiskBelow(s.pay, s.dec.records, s.sent, s.invalid, partition, k)
    requires Grows(s.pay, n.pay) && Grows(s.dec, n.dec) && s.sent <= n.sent && s.invalid <= n.invalid
    ensures RiskBelow(n.pay, n.dec.records, n.sent, n.invalid, partition, k)
  {
    hide ParsePayment, Written, RiskDone;
    forall c | c in n.pay.records && c.partition == partition && c.offset < k
      ensures RiskDone(n.pay.records, n.dec.records, n.sent, n.invalid, c)
    {
      assert c in s.pay.records;
      RiskDoneFollows(s, n, c);
    }
  }

  lemma RiskDoneFollows(s: State, n: State, c: Coord)
    requires c in s.pay.records && RiskDone(s.pay.records, s.dec.records, s.sent, s.invalid, c)
    requires Grows(s.pay, n.pay) && Grows(s.dec, n.dec) && s.sent <= n.sent && s.invalid <= n.invalid
    ensures c in n.pay.records && RiskDone(n.pay.records, n.dec.records, n.sent, n.invalid, c)
  {
    hide ParsePayment, Written;
    if ParsePayment(s.pay.records[c]).Some? {
      WrittenStays(s.dec.records, s.sent, n.dec.records, n.sent, ParsePayment(s.pay.records[c]).value.id);
    }
  }

  lemma WorkerFollows(s: State, n: State, w: RiskSession)
    requires WorkerOk(s.pay, s.dec.records, s.sent, s.invalid, w)
    requires Grows(s.pay, n.pay) && Grows(s.dec, n.dec) && s.sent <= n.sent && s.invalid <= n.invalid
    ensures WorkerOk(n.pay, n.dec.records, n.sent, n.invalid, w)
  {
    hide ParsePayment, Written, RiskBelow, RiskDone, MadeFor, SnapshotOk;
    RiskBelowFollows(s, n, w.partition, w.position);
    if w.phase.Sent? { RiskDoneFollows(s, n, At(s.pay.name, w.partition, w.position)); }
  }

  ghost predicate Workers(s: State) { WorkersOk(s.risk, s.riskOffsets, s.pay, s.dec.records, s.sent, s.invalid) }
  ghost predicate Consumers(s: State) { ConsumersOk(s.consumers, s.decOffsets, s.dec, s.db.receipts) }

  /** Growing topics leave every risk worker and offset in order. */
  lemma WorkersFollow(s: State, n: State)
    requires Workers(s) && s.risk == n.risk && s.riskOffsets == n.riskOffsets
    requires Grows(s.pay, n.pay) && Grows(s.dec, n.dec) && s.sent <= n.sent && s.invalid <= n.invalid
    ensures Workers(n)
  {
    hide WorkerOk, RiskBelow, Grows;
    forall k | k in n.risk
      ensures WorkerOk(n.pay, n.dec.records, n.sent, n.invalid, n.risk[k])
    {
      WorkerFollows(s, n, s.risk[k]);
    }
    forall p | p in n.riskOffsets ensures RiskBelow(n.pay, n.dec.records, n.sent, n.invalid, p, n.riskOffsets[p]) {
      RiskBelowFollows(s, n, p, s.riskOffsets[p]);
    }
  }

  /** ... and growing receipts every consumer. */
  lemma ConsumersFollow(s: State, n: State)
    requires Consumers(s) && s.consumers == n.consumers && s.decOffsets == n.decOffsets
    requires Grows(s.dec, n.dec) && s.db.receipts.Keys <= n.db.receipts.Keys
    ensures Consumers(n)
  {
    hide Grows;
    forall partition, k | ReceiptedBelow(s.dec, s.db.receipts, partition, k)
      ensures ReceiptedBelow(n.dec, n.db.receipts, partition, k)
    {
      ReceiptedFollows(s, n, partition, k);
    }
    hide ReceiptedBelow;
    forall k | k in n.consumers
      ensures ConsumerOk(n.dec, n.db.receipts, n.consumers[k])
    {
      ConsumerFollows(s, n, s.consumers[k]);
    }
  }

  lemma ReceiptedFollows(s: State, n: State, partition: int, k: nat)
    requires ReceiptedBelow(s.dec, s.db.receipts, partition, k)
    requires Grows(s.dec, n.dec) && s.db.receipts.Keys <= n.db.receipts.Keys
    ensures ReceiptedBelow(n.dec, n.db.receipts, partition, k)
  {
    forall c | c in n.dec.records && c.partition == partition && c.offset < k ensures c in n.db.receipts {
      assert c in s.dec.records;
      assert c in s.db.receipts.Keys;
    }
  }

  lemma ConsumerFollows(s: State, n: State, w: ConsumerSession)
    requires ConsumerOk(s.dec, s.db.receipts, w)
    requires Grows(s.dec, n.dec) && s.db.receipts.Keys <= n.db.receipts.Keys
    ensures ConsumerOk(n.dec, n.db.receipts, w)
  {
    ReceiptedFollows(s, n, w.partition, w.position);
    var c := At(s.dec.name, w.partition, w.position);
    assert c in s.db.receipts ==> c in s.db.receipts.Keys;
    hide ReceiptedBelow;
  }

  // ---------------------------------------------------------------- API and publisher

  lemma RequestReadable(x: Payment, id: Uuid, traceId: Uuid)
    requires ValidRequest(x.request) && Normalize(x.request) == x.request
    ensures ParsePayment(PayEvent(Creation.EventFor(x, id, traceId))) == Some(Creation.EventFor(x, id, traceId))
  {
    hide ValidRequest, Normalize, ParsePayment;
    AnnouncedEventParses(Creation.EventFor(x, id, traceId));
  }

  lemma DecisionsFollow(decisions: Decisions, a: Outbox, b: Outbox)
    requires SameEvents(a, b) && DecisionsMade(decisions, a)
    ensures DecisionsMade(decisions, b)
  {
    hide MadeFor;
  }

  lemma CreatePlaces(db: Db, x: Payment, event: OutboxEvent, now: int, serial: nat)
    requires Drawn(db.payments, db.outbox, db.audits, serial) && Readable(db.outbox)
    requires x.id == V4(serial) && event.id == V4(serial + 1) && ParsePayment(PayEvent(event)) == Some(event)
    ensures var n := Deliveries.Perform(db, Deliveries.Creating(x, event, now));
            && Drawn(n.payments, n.outbox, n.audits, serial + 2) && Readable(n.outbox) &&
                SameEvents(db.outbox, n.outbox)
            && n.decisions == db.decisions && n.receipts == db.receipts
  {
    hide ParsePayment, KeyTaken;
  }

  lemma CreateTables(db: Db, x: Payment, event: OutboxEvent, now: int, serial: nat)
    requires TablesOk(db, serial) && Announces(event, x) && x.status.PendingRisk?
    requires x.id == V4(serial) && event.id == V4(serial + 1) && ParsePayment(PayEvent(event)) == Some(event)
    ensures var n := Deliveries.Perform(db, Deliveries.Creating(x, event, now));
            TablesOk(n, serial + 2) && SameEvents(db.outbox, n.outbox) && n.receipts == db.receipts
  {
    hide DbInv, ParsePayment, KeyTaken, Announces, Drawn, Readable, DecisionsMade, UniqueKeys, CreateTx;
    hide Deliveries.Perform, SameEvents;
    CreateKeeps(db, x, event, now);
    Deliveries.PerformCreates(db, x, event, now);
    CreatePlaces(db, x, event, now, serial);
    DecisionsFollow(db.decisions, db.outbox, Deliveries.Perform(db, Deliveries.Creating(x, event, now)).outbox);
  }

  lemma CreateStepKeeps(cfg: Config, s: State, a: Move)
    requires Inv(cfg, s) && a.Create?
    ensures Inv(cfg, CreateStep(s, a))
  {
    hide TablesOk, PaymentsOk, CacheOk, DecisionsOk, Receives, WorkersOk, ConsumersOk, ValidRequest, Normalize;
    hide Creation.KeyOf, Creation.Candidate, Creation.EventFor, Deliveries.Perform, SameEvents, ParsePayment;
    hide Announces;
    var key, r := Creation.KeyOf(a.key), Normalize(a.request);
    if key.Key? && ValidRequest(r) {
      var x := Creation.Candidate(key.key, r, V4(s.serial), a.now);
      var event := Creation.EventFor(x, V4(s.serial + 1), a.traceId);
      Creation.EventAnnounces(key.key, r, V4(s.serial), a.now, V4(s.serial + 1), a.traceId);
      NormalizeIdempotent(a.request);
      Creation.CandidateParts(key.key, r, V4(s.serial), a.now, V4(s.serial + 1), a.traceId);
      RequestReadable(x, V4(s.serial + 1), a.traceId);
      CreateTables(s.db, x, event, a.now, s.serial);
      PartsFollowOutbox(s, s.db.outbox, CreateStep(s, a).db.outbox);
    }
  }

  lemma SendStepKeeps(cfg: Config, s: State, a: Move)
    requires Inv(cfg, s) && a.Send?
    ensures Inv(cfg, SendStep(s, a))
  {
    hide TablesOk, PaymentsOk, CacheOk, DecisionsOk, Receives, WorkersOk, ConsumersOk, FromOutbox;
    hide OutboxStore.Publishable;
    var n := SendStep(s, a);
    if n != s {
      SentFromOutbox(s, a.row);
      PayAppendKeeps(s, n, a.target, PayEvent(s.db.outbox[a.row].event));
    }
  }

  lemma SentFromOutbox(s: State, row: Uuid)
    requires TablesOk(s.db, s.serial) && row in s.db.outbox
    ensures FromOutbox(s.db.outbox, PayEvent(s.db.outbox[row].event))
  {
    hide ParsePayment, Drawn, DecisionsMade;
    assert Outboxed(s.db.payments, s.db.outbox);
    hide DbInv;
  }

  /** Appending a record that stems from the outbox, or does not parse, to the payments topic. */
  lemma PayAppendKeeps(s: State, n: State, target: int, v: PayValue)
    requires PaymentsOk(s.pay, s.db.outbox) && Workers(s) && target >= 0 && FromOutbox(s.db.outbox, v)
    requires n == s.(pay := Append(s.pay, target, v))
    ensures PaymentsOk(n.pay, n.db.outbox) && Workers(n)
  {
    AppendGrows(s.pay, target, v);
    StandingGrows(s.dec);
    hide Workers, Append, FromOutbox, Grows, TopicOk;
    WorkersFollow(s, n);
  }

  lemma PayNoiseKeeps(cfg: Config, s: State, a: Move)
    requires Inv(cfg, s) && a.PayNoise?
    ensures Inv(cfg, Step(cfg, s, a))
  {
    hide TablesOk, PaymentsOk, CacheOk, DecisionsOk, Receives, WorkersOk, ConsumersOk, ParsePayment;
    var n := Step(cfg, s, a);
    if n != s { PayAppendKeeps(s, n, a.target, a.pay); }
  }

  lemma RowKeepsOutboxed(payments: Payments, outbox: Outbox, o: Uuid, row: OutboxRow)
    requires Outboxed(payments, outbox) && o in outbox && row.event == outbox[o].event
    ensures Outboxed(payments, outbox[o := row])
  {
    var n := outbox[o := row];
    hide UniqueKeys, Announces;
    forall p | p in payments ensures payments[p].id == p && HasOutboxRow(n, p) {
      assert HasOutboxRow(outbox, p);
      var x :| x in outbox && outbox[x].event.aggregateId == p;
      assert n[x].event.aggregateId == p;
    }
  }

  lemma RowKeepsEvents(payments: Payments, outbox: Outbox, audits: Audits, serial: nat, o: Uuid, row: OutboxRow)
    requires Readable(outbox) && Drawn(payments, outbox, audits, serial) && o in outbox && row.event == outbox[o].event
    ensures var n := outbox[o := row]; Readable(n) && Drawn(payments, n, audits, serial) && SameEvents(outbox, n)
  {
    hide ParsePayment;
  }

  lemma RowKeepsTables(s: State, o: Uuid, row: OutboxRow)
    requires TablesOk(s.db, s.serial) && o in s.db.outbox && row.event == s.db.outbox[o].event
    ensures TablesOk(WithRow(s, o, row).db, s.serial) && SameEvents(s.db.outbox, WithRow(s, o, row).db.outbox)
  {
    hide Readable, Drawn, ParsePayment, DecisionsMade, SameEvents, DecisionsUnique, Decided, Queued, Audited;
    hide Receipted, Outboxed;
    var n := s.db.outbox[o := row];
    RowKeepsEvents(s.db.payments, s.db.outbox, s.db.audits, s.serial, o, row);
    DecisionsFollow(s.db.decisions, s.db.outbox, n);
    RowKeepsOutboxed(s.db.payments, s.db.outbox, o, row);
  }

  lemma WithRowKeeps(cfg: Config, s: State, o: Uuid, row: OutboxRow)
    requires Inv(cfg, s) && o in s.db.outbox && row.event == s.db.outbox[o].event
    ensures Inv(cfg, WithRow(s, o, row))
  {
    hide TablesOk, PaymentsOk, CacheOk, DecisionsOk, Receives, WorkersOk, ConsumersOk, SameEvents;
    RowKeepsTables(s, o, row);
    PartsFollowOutbox(s, s.db.outbox, WithRow(s, o, row).db.outbox);
  }

  lemma PublisherKeeps(cfg: Config, s: State, a: Move)
    requires Inv(cfg, s) && (a.Mark? || a.Miss?)
    ensures Inv(cfg, Step(cfg, s, a))
  {
    hide Inv, OutboxStore.Publishable, WithRow;
    var n := Step(cfg, s, a);
    if n != s {
      var row := s.db.outbox[a.row];
      WithRowKeeps(cfg, s, a.row, if a.Mark? then row.(delivery := Published, attempts := row.attempts + 1)
        else row.(delivery := if a.permanent then DeadLettered else Pending, attempts := row.attempts + 1,
            nextAttemptAt := a.next));
    }
  }

  // ---------------------------------------------------------------- review and expiry

  lemma ResolvedPlaces(db: Db, c: ResolveCommand, serial: nat)
    requires Drawn(db.payments, db.outbox, db.audits, serial) && c.auditId == V4(serial)
    ensures var n := ResolveTx(db, c).0;
            Drawn(n.payments, n.outbox, n.audits, serial + 1) && n.outbox == db.outbox &&
                n.decisions == db.decisions && n.receipts == db.receipts
  {
    hide AuditTaken;
  }

  lemma ResolveStepKeeps(cfg: Config, s: State, a: Move)
    requires Inv(cfg, s) && a.Resolve?
    ensures Inv(cfg, ResolveStep(s, a))
  {
    var c := ResolveCommand(a.paymentId, a.action, a.expectedVersion, a.reason, a.reviewer, V4(s.serial), a.resolvedAt);
    hide DbInv, Drawn, Readable, DecisionsMade, PaymentsOk, CacheOk, DecisionsOk, Receives, WorkersOk, ConsumersOk;
    hide ResolveTx;
    ResolveKeeps(s.db, c);
    ResolvedPlaces(s.db, c, s.serial);
  }

  lemma ExpireStepKeeps(cfg: Config, s: State, a: Move)
    requires Inv(cfg, s) && (a.ExpireSnapshot? || a.ExpireDecision? || a.ExpireCustomer?)
    ensures Inv(cfg, ExpireStep(s, a))
  {
    hide TablesOk, PaymentsOk, DecisionsOk, Receives, WorkersOk, ConsumersOk, Made, SnapshotOk, ValidCountry;
  }

  // ---------------------------------------------------------------- risk workers

  lemma EnterKeeps(s: State, k: nat, phase: RiskPhase)
    requires Workers(s) && k in s.risk
    requires PhaseOk(s.pay, s.dec.records, s.sent, s.invalid,
        At(s.pay.name, s.risk[k].partition, s.risk[k].position), phase)
    ensures Workers(Enter(s, k, phase))
  {
    hide RiskBelow, PhaseOk;
    assert WorkerOk(s.pay, s.dec.records, s.sent, s.invalid, s.risk[k]);
  }

  lemma WorkerAt(s: State, k: nat)
    requires Workers(s) && k in s.risk
    ensures WorkerOk(s.pay, s.dec.records, s.sent, s.invalid, s.risk[k])
  {
    hide WorkerOk, RiskBelow;
  }

  lemma HoldingIsAnnounced(s: State, c: Coord, e: OutboxEvent)
    requires PaymentsOk(s.pay, s.db.outbox) && Holding(s.pay, c, e)
    ensures e.id in s.db.outbox && s.db.outbox[e.id].event == e && Source(e)
  {
    ParsedIsSource(s.pay.records[c]);
    hide ParsePayment, Source;
    assert FromOutbox(s.db.outbox, s.pay.records[c]);
  }

  lemma CachedIsMade(s: State, e: OutboxEvent)
    requires CacheOk(s.redis, s.db.outbox) && e.id in s.redis.decisions
    requires e.id in s.db.outbox && s.db.outbox[e.id].event == e
    ensures MadeFor(s.redis.decisions[e.id], e)
  {
    hide SnapshotOk, ValidCountry;
    assert Made(s.db.outbox, s.redis.decisions[e.id]);
  }

  lemma LoadStepKeeps(cfg: Config, s: State, k: nat)
    requires Inv(cfg, s) && k in s.risk
    ensures Inv(cfg, LoadStep(s, k))
  {
    hide TablesOk, PaymentsOk, CacheOk, DecisionsOk, Receives, WorkersOk, ConsumersOk, ParsePayment, MadeFor, Written;
    var w := s.risk[k];
    var c := At(s.pay.name, w.partition, w.position);
    if w.phase.Ready? && c in s.pay.records {
      var parsed := ParsePayment(s.pay.records[c]);
      if parsed.Some? {
        HoldingIsAnnounced(s, c, parsed.value);
        if parsed.value.id in s.redis.decisions { CachedIsMade(s, parsed.value); }
      }
      EnterKeeps(s, k, LoadStep(s, k).risk[k].phase);
    }
  }

  lemma CountryIsValid(e: OutboxEvent)
    requires Source(e)
    ensures ValidCountry(e.payload.request.country)
  {
    var s := e.payload.request.country;
    assert AllUpper(s) && |Utf8(s)| == 2;
    forall x | x in s ensures x as int < 128 { }
    Utf8Length(s);
    hide Utf8;
  }

  lemma ObserveKeepsCache(r: Redis, window: nat, o: Obs, outbox: Outbox)
    requires CacheOk(r, outbox) && ValidCountry(o.country) && o.decisionAt != 0
    ensures CacheOk(Observe(r, window, o).0, outbox) && SnapshotOk(Observe(r, window, o).1)
  {
    hide Made, ValidCountry, ZRemRangeBelow, Devices;
    var z := ZRemRangeBelow(Z(r, o.customer), o.at - window)[o.paymentId := o.at];
    var counted := set m | m in z && o.at - window <= z[m] <= o.at;
    assert o.paymentId in counted;
    assert ZCount(z, o.at - window, o.at) >= 1 by { assert |counted - {o.paymentId}| == |counted| - 1; }
    hide Z, ZCount;
  }

  lemma ObserveStepKeeps(cfg: Config, s: State, k: nat, now: int)
    requires Inv(cfg, s) && k in s.risk
    ensures Inv(cfg, ObserveStep(cfg, s, k, now))
  {
    hide TablesOk, PaymentsOk, CacheOk, DecisionsOk, Receives, WorkersOk, ConsumersOk, ParsePayment, MadeFor, Written;
    hide Observe, SnapshotOk, Source, ValidCountry, Holding;
    var w := s.risk[k];
    if ObserveStep(cfg, s, k, now) != s {
      var o := Observation(w.phase.e, now);
      var f := Observe(s.redis, cfg.window, o).1;
      WorkerAt(s, k);
      HoldingIsAnnounced(s, At(s.pay.name, w.partition, w.position), w.phase.e);
      CountryIsValid(w.phase.e);
      ObserveKeepsCache(s.redis, cfg.window, o, s.db.outbox);
      EnterKeeps(s, k, Observed(w.phase.e, f));
    }
  }

  lemma ScoreStepKeeps(cfg: Config, s: State, k: nat, m: Model)
    requires ValidConfig(cfg) && Inv(cfg, s) && k in s.risk
    ensures Inv(cfg, ScoreStep(cfg, s, k, m))
  {
    hide TablesOk, PaymentsOk, CacheOk, DecisionsOk, Receives, WorkersOk, ConsumersOk, ParsePayment, MadeFor, Written;
    hide SnapshotOk, Source, Holding, Decision, ValidModel, LabelOk, ValidSettings, ContractOk;
    var w := s.risk[k];
    if ScoreStep(cfg, s, k, m) != s {
      WorkerAt(s, k);
      HoldingIsAnnounced(s, At(s.pay.name, w.partition, w.position), w.phase.e);
      DecisionMadeFor(cfg.settings, w.phase.e, w.phase.f, m);
      EnterKeeps(s, k, if LabelOk(m) then Judged(w.phase.e,
          Decision(cfg.settings, w.phase.e, w.phase.f, m)) else Ready);
    }
  }

  lemma SaveKeepsCache(s: State, e: OutboxEvent, d: Event)
    requires CacheOk(s.redis, s.db.outbox) && MadeFor(d, e) && e.id in s.db.outbox && s.db.outbox[e.id].event == e
    ensures CacheOk(SaveDecision(s.redis, d).0, s.db.outbox) && MadeFor(SaveDecision(s.redis, d).1, e)
  {
    if e.id in s.redis.decisions { CachedIsMade(s, e); }
    assert Made(s.db.outbox, d);
    hide SnapshotOk, ValidCountry, MadeFor, Made;
  }

  lemma SaveStepKeeps(cfg: Config, s: State, k: nat)
    requires Inv(cfg, s) && k in s.risk
    ensures Inv(cfg, SaveStep(s, k))
  {
    hide TablesOk, PaymentsOk, CacheOk, DecisionsOk, Receives, WorkersOk, ConsumersOk, ParsePayment, MadeFor, Written;
    hide SnapshotOk, Source, Holding, SaveDecision;
    var w := s.risk[k];
    if SaveStep(s, k) != s {
      WorkerAt(s, k);
      HoldingIsAnnounced(s, At(s.pay.name, w.partition, w.position), w.phase.e);
      SaveKeepsCache(s, w.phase.e, w.phase.d);
      EnterKeeps(s, k, Saved(w.phase.e, SaveDecision(s.redis, w.phase.d).1));
    }
  }

  /** Appending to the decisions topic: a worker's decision, or a record that does not parse. */
  lemma DecAppendKeeps(s: State, n: State, target: int, v: Value, mine: bool)
    requires DecisionsOk(s.dec, s.sent, s.db.outbox) && Receives(s.db.receipts, s.dec.records) && Workers(s) &&
        Consumers(s) && target >= 0
    requires if mine then v.Json? && Made(s.db.outbox, v.event) else ParseEvent(v).None?
    requires n == s.(dec := Append(s.dec, target, v), sent := s.sent + if mine then {Next(s.dec, target)} else {})
    ensures DecisionsOk(n.dec, n.sent, n.db.outbox) && Receives(n.db.receipts, n.dec.records) && Workers(n) &&
        Consumers(n)
  {
    AppendGrows(s.dec, target, v);
    StandingGrows(s.pay);
    assert DecisionsOk(n.dec, n.sent, n.db.outbox) by {
      hide Append, Next, TopicOk, Made, ParseEvent, Workers, Consumers, Grows;
    }
    hide DecisionsOk, Workers, Consumers, Append, Next, TopicOk, ParseEvent, Made, Grows;
    WorkersFollow(s, n);
    ConsumersFollow(s, n);
  }

  lemma DecNoiseKeeps(cfg: Config, s: State, a: Move)
    requires Inv(cfg, s) && a.DecNoise?
    ensures Inv(cfg, Step(cfg, s, a))
  {
    hide TablesOk, PaymentsOk, CacheOk, DecisionsOk, Receives, WorkersOk, ConsumersOk, ParseEvent;
    var n := Step(cfg, s, a);
    if n != s { DecAppendKeeps(s, n, a.target, a.value, false); }
  }

  lemma PublishStepKeeps(cfg: Config, s: State, k: nat, target: int, lands: bool, acked: bool)
    requires Inv(cfg, s) && k in s.risk
    ensures Inv(cfg, PublishStep(s, k, target, lands, acked))
  {
    hide TablesOk, PaymentsOk, CacheOk, DecisionsOk, Receives, WorkersOk, ConsumersOk, ParsePayment, MadeFor, Source;
    hide ParseEvent, Made;
    var w := s.risk[k];
    if w.phase.Saved? && target >= 0 {
      var c := At(s.pay.name, w.partition, w.position);
      WorkerAt(s, k);
      HoldingIsAnnounced(s, c, w.phase.e);
      MadeFromOutbox(s.db.outbox, w.phase.e, w.phase.d);
      var landed := lands || acked;
      var m := if landed then s.(dec := Append(s.dec, target, Json(w.phase.d)),
          sent := s.sent + {Next(s.dec, target)}) else s;
      if landed { DecAppendKeeps(s, m, target, Json(w.phase.d), true); }
      if acked {
        assert Next(s.dec, target) in m.sent && m.dec.records[Next(s.dec, target)] == Json(w.phase.d);
        assert Written(m.dec.records, m.sent, w.phase.e.id);
      }
      EnterKeeps(m, k, if acked then Sent else Ready);
    }
  }

  lemma MadeFromOutbox(outbox: Outbox, e: OutboxEvent, d: Event)
    requires e.id in outbox && outbox[e.id].event == e && MadeFor(d, e)
    ensures Made(outbox, d) && d.payload.sourceEventId == e.id
  {
  }

  lemma QuarantineStepKeeps(cfg: Config, s: State, k: nat, lands: bool, acked: bool)
    requires Inv(cfg, s) && k in s.risk
    ensures Inv(cfg, QuarantineStep(s, k, lands, acked))
  {
    hide TablesOk, PaymentsOk, CacheOk, DecisionsOk, Receives, WorkersOk, ConsumersOk, ParsePayment, MadeFor, Source;
    hide Written;
    var w := s.risk[k];
    if w.phase.Malformed? {
      var c := At(s.pay.name, w.partition, w.position);
      WorkerAt(s, k);
      var m := if lands || acked then s.(invalid := s.invalid + {c}) else s;
      StandingGrows(s.pay);
      StandingGrows(s.dec);
      WorkersFollow(s, m);
      EnterKeeps(m, k, if acked then Sent else Ready);
    }
  }

  lemma NextRiskBelow(s: State, w: RiskSession)
    requires PaymentsOk(s.pay, s.db.outbox) && WorkerOk(s.pay, s.dec.records, s.sent, s.invalid, w) && w.phase.Sent?
    ensures RiskBelow(s.pay, s.dec.records, s.sent, s.invalid, w.partition, w.position + 1)
  {
    hide FromOutbox, RiskDone, ParsePayment;
    forall c | c in s.pay.records && c.partition == w.partition && c.offset < w.position + 1
      ensures RiskDone(s.pay.records, s.dec.records, s.sent, s.invalid, c)
    {
      if c.offset >= w.position { assert c == At(s.pay.name, w.partition, w.position); }
    }
  }

  lemma CommitStepKeeps(cfg: Config, s: State, k: nat, lands: bool, acked: bool)
    requires Inv(cfg, s) && k in s.risk
    ensures Inv(cfg, CommitStep(s, k, lands, acked))
  {
    hide TablesOk, PaymentsOk, CacheOk, DecisionsOk, Receives, ConsumersOk, RiskBelow, RiskDone, WorkerOk;
    var w := s.risk[k];
    if w.phase.Sent? {
      WorkerAt(s, k);
      NextRiskBelow(s, w);
      assert RiskBelow(s.pay, s.dec.records, s.sent, s.invalid, w.partition, w.position) by { OwnBelow(s, w); }
      var n := CommitStep(s, k, lands, acked);
      ReadyIsOk(s, w.partition, w.position);
      ReadyIsOk(s, w.partition, w.position + 1);
    }
  }

  lemma OwnBelow(s: State, w: RiskSession)
    requires WorkerOk(s.pay, s.dec.records, s.sent, s.invalid, w)
    ensures RiskBelow(s.pay, s.dec.records, s.sent, s.invalid, w.partition, w.position)
  {
  }

  lemma ReadyIsOk(s: State, partition: int, position: nat)
    ensures RiskBelow(s.pay, s.dec.records, s.sent, s.invalid, partition, position) ==>
              WorkerOk(s.pay, s.dec.records, s.sent, s.invalid, RiskSession(partition, position, Ready))
  {
    hide RiskBelow;
  }

  lemma StartKeeps(cfg: Config, s: State, k: nat, partition: int)
    requires Inv(cfg, s) && k !in s.risk && partition >= 0
    ensures Inv(cfg, s.(risk := s.risk[k := RiskSession(partition, Committed(s.riskOffsets, partition), Ready)]))
  {
    hide TablesOk, PaymentsOk, CacheOk, DecisionsOk, Receives, ConsumersOk, RiskDone, WorkerOk;
    var position := Committed(s.riskOffsets, partition);
    assert RiskBelow(s.pay, s.dec.records, s.sent, s.invalid, partition, position) by {
      if partition !in s.riskOffsets { NothingBelow(s, partition); }
    }
    ReadyIsOk(s, partition, position);
    hide RiskBelow;
  }

  lemma NothingBelow(s: State, partition: int)
    requires PaymentsOk(s.pay, s.db.outbox) && partition >= 0
    ensures RiskBelow(s.pay, s.dec.records, s.sent, s.invalid, partition, 0)
  {
    hide FromOutbox, RiskDone;
  }

  lemma CrashKeeps(cfg: Config, s: State, k: nat)
    requires Inv(cfg, s)
    ensures Inv(cfg, s.(risk := s.risk - {k}))
  {
    hide TablesOk, PaymentsOk, CacheOk, DecisionsOk, Receives, ConsumersOk, WorkerOk, RiskBelow;
  }

  lemma RetryKeeps(cfg: Config, s: State, k: nat)
    requires Inv(cfg, s) && k in s.risk
    ensures Inv(cfg, Enter(s, k, Ready))
  {
    hide TablesOk, PaymentsOk, CacheOk, DecisionsOk, Receives, ConsumersOk, WorkersOk;
    EnterKeeps(s, k, Ready);
  }

  lemma RiskStepKeeps(cfg: Config, s: State, k: nat, m: RiskMove)
    requires ValidConfig(cfg) && Inv(cfg, s)
    ensures Inv(cfg, RiskStep(cfg, s, k, m))
  {
    hide ValidConfig, Inv, LoadStep, ObserveStep, ScoreStep, SaveStep, PublishStep, QuarantineStep, CommitStep, Enter;
    hide Committed;
    if m.Start? {
      if k !in s.risk && m.partition >= 0 { StartKeeps(cfg, s, k, m.partition); }
    } else if k in s.risk {
      match m
      case Crash => CrashKeeps(cfg, s, k);
      case Retry => RetryKeeps(cfg, s, k);
      case Load => LoadStepKeeps(cfg, s, k);
      case Observing(now) => ObserveStepKeeps(cfg, s, k, now);
      case Score(model) => ScoreStepKeeps(cfg, s, k, model);
      case Save => SaveStepKeeps(cfg, s, k);
      case Publish(target, lands, acked) => PublishStepKeeps(cfg, s, k, target, lands, acked);
      case Quarantine(lands, acked) => QuarantineStepKeeps(cfg, s, k, lands, acked);
      case Commit(lands, acked) => CommitStepKeeps(cfg, s, k, lands, acked);
    }
  }

  // ---------------------------------------------------------------- decision consumers

  lemma ConsumerAt(s: State, k: nat)
    requires Consumers(s) && k in s.consumers
    ensures ConsumerOk(s.dec, s.db.receipts, s.consumers[k])
  {
    hide ConsumerOk, ReceiptedBelow;
  }

  lemma TurnKeeps(s: State, k: nat, phase: ConsumerPhase)
    requires Consumers(s) && k in s.consumers
    requires var c := At(s.dec.name, s.consumers[k].partition, s.consumers[k].position);
             (!phase.Polling? ==> c in s.dec.records) && (phase.Handled? ==> c in s.db.receipts)
    ensures Consumers(Turn(s, k, phase))
  {
    hide ReceiptedBelow;
    assert ConsumerOk(s.dec, s.db.receipts, s.consumers[k]);
  }

  /** Everything a receipt-writing transaction may change. */
  ghost predicate Grown(db: Db, n: Db, at: Coord, v: Value) {
    && n.outbox == db.outbox && n.payments.Keys == db.payments.Keys
    && (n.receipts == db.receipts ||
        (at in n.receipts && n.receipts == db.receipts[at := n.receipts[at]] && n.receipts[at].digest == Digest(v)))
  }

  ghost predicate DecisionJoins(db: Db, n: Db, e: Event) {
    && (n.decisions == db.decisions || n.decisions == db.decisions[e.payload.decisionId := e])
    && (n.audits == db.audits || n.audits == db.audits[e.payload.decisionId := DecisionAudit(e)])
  }

  lemma ApplyGrows(db: Db, e: Event, r: Record)
    ensures Grown(db, ApplyTx(db, e, r).0, r.at, r.value) && DecisionJoins(db, ApplyTx(db, e, r).0, e)
    ensures ApplyTx(db, e, r).1.Accepted? ==> r.at in ApplyTx(db, e, r).0.receipts
  {
    hide ValidSource, SourceTaken, RoomFor, DecisionAudit;
  }

  lemma RejectGrows(db: Db, r: Record, code: RejectionCode)
    ensures var n := RejectTx(db, r, code).0;
            Grown(db, n, r.at, r.value) && n.payments == db.payments && n.decisions == db.decisions &&
                n.audits == db.audits
    ensures RejectTx(db, r, code).1.None? ==> r.at in RejectTx(db, r, code).0.receipts
  {
    hide ValidSource;
  }

  lemma ReceivesGrown(db: Db, n: Db, at: Coord, records: map<Coord, Value>)
    requires Receives(db.receipts, records) && at in records && Grown(db, n, at, records[at])
    ensures Receives(n.receipts, records) && db.receipts.Keys <= n.receipts.Keys
  {
  }

  lemma ApplyTables(db: Db, e: Event, r: Record, serial: nat)
    requires TablesOk(db, serial) && Carries(r, e) && Made(db.outbox, e)
    ensures TablesOk(ApplyTx(db, e, r).0, serial)
  {
    hide DbInv, Readable, ApplyTx, Made;
    ApplyKeeps(db, e, r);
    ApplyGrows(db, e, r);
    var n := ApplyTx(db, e, r).0;
    assert e.payload.decisionId.V5? by { MadeIdIsNamed(db.outbox, e); }
    assert Drawn(n.payments, n.outbox, n.audits, serial) by {
      forall p | p in n.payments ensures p.V4? && p.serial < serial { assert p in n.payments.Keys; }
    }
    hide Drawn;
  }

  lemma MadeIdIsNamed(outbox: Outbox, e: Event)
    requires Made(outbox, e)
    ensures e.payload.decisionId.V5? && e.payload.decisionId.source == e.payload.sourceEventId
  {
  }

  lemma ParsedIsMade(s: State, c: Coord)
    requires DecisionsOk(s.dec, s.sent, s.db.outbox) && c in s.dec.records && ParseEvent(s.dec.records[c]).Some?
    ensures c in s.sent && Made(s.db.outbox, ParseEvent(s.dec.records[c]).value)
  {
    hide ContractOk, Made, TopicOk;
    assert SentOk(s.dec.records, c, s.db.outbox);
  }

  /** A receipt-writing transaction followed by the consumer's next phase. */
  lemma TransactionKeeps(cfg: Config, s: State, k: nat, db: Db, phase: ConsumerPhase)
    requires Inv(cfg, s) && k in s.consumers && TablesOk(db, s.serial)
    requires var c := At(s.dec.name, s.consumers[k].partition, s.consumers[k].position);
             c in s.dec.records && Grown(s.db, db, c, s.dec.records[c]) && (phase.Handled? ==> c in db.receipts)
    ensures Inv(cfg, Turn(s, k, phase).(db := db))
  {
    hide TablesOk, PaymentsOk, CacheOk, DecisionsOk, Receives, WorkersOk, ConsumersOk;
    var c := At(s.dec.name, s.consumers[k].partition, s.consumers[k].position);
    ReceivesGrown(s.db, db, c, s.dec.records);
    var m := s.(db := db);
    StandingGrows(s.dec);
    ConsumersFollow(s, m);
    TurnKeeps(m, k, phase);
  }

  lemma ReadStepKeeps(cfg: Config, s: State, k: nat)
    requires Inv(cfg, s) && k in s.consumers
    ensures Inv(cfg, ReadStep(s, k))
  {
    hide TablesOk, PaymentsOk, CacheOk, DecisionsOk, Receives, WorkersOk, ConsumersOk, ParseEvent, ValidSource;
    var n := ReadStep(s, k);
    if n != s { TurnKeeps(s, k, n.consumers[k].phase); }
  }

  lemma ApplyStepKeeps(cfg: Config, s: State, k: nat, acked: bool, said: StoreError)
    requires Inv(cfg, s) && k in s.consumers
    ensures Inv(cfg, ApplyStep(s, k, acked, said))
  {
    hide TablesOk, PaymentsOk, CacheOk, DecisionsOk, Receives, WorkersOk, ConsumersOk, ParseEvent, ApplyTx, Grown;
    hide DecisionJoins, Made, Carries, I.AnswerFits;
    var w := s.consumers[k];
    var c := At(s.dec.name, w.partition, w.position);
    if w.phase.Applying? && c in s.dec.records && ParseEvent(s.dec.records[c]).Some? {
      var r := Record(c, s.dec.records[c]);
      var e := ParseEvent(r.value).value;
      ParsedIsMade(s, c);
      Deliveries.ParsedCarries(r);
      ApplyTables(s.db, e, r, s.serial);
      ApplyGrows(s.db, e, r);
      hide Inv;
      TransactionKeeps(cfg, s, k, ApplyTx(s.db, e, r).0, ApplyStep(s, k, acked, said).consumers[k].phase);
    }
  }

  lemma RejectTables(db: Db, r: Record, code: RejectionCode, serial: nat)
    requires TablesOk(db, serial)
    ensures TablesOk(RejectTx(db, r, code).0, serial)
  {
    hide DbInv, Readable, RejectTx, Drawn, DecisionsMade;
    RejectKeeps(db, r, code);
    RejectGrows(db, r, code);
  }

  lemma RejectStepKeeps(cfg: Config, s: State, k: nat, acked: bool)
    requires Inv(cfg, s) && k in s.consumers
    ensures Inv(cfg, RejectStep(s, k, acked))
  {
    hide TablesOk, PaymentsOk, CacheOk, DecisionsOk, Receives, WorkersOk, ConsumersOk, RejectTx, Grown;
    var w := s.consumers[k];
    var c := At(s.dec.name, w.partition, w.position);
    if w.phase.Refusing? && c in s.dec.records {
      var r := Record(c, s.dec.records[c]);
      RejectTables(s.db, r, w.phase.code, s.serial);
      RejectGrows(s.db, r, w.phase.code);
      hide Inv;
      TransactionKeeps(cfg, s, k, RejectTx(s.db, r, w.phase.code).0, RejectStep(s, k, acked).consumers[k].phase);
    }
  }

  lemma NextReceiptedBelow(s: State, w: ConsumerSession)
    requires DecisionsOk(s.dec, s.sent, s.db.outbox) && ConsumerOk(s.dec, s.db.receipts, w) && w.phase.Handled?
    ensures ReceiptedBelow(s.dec, s.db.receipts, w.partition, w.position + 1)
  {
    hide SentOk, ParseEvent;
    forall c | c in s.dec.records && c.partition == w.partition && c.offset < w.position + 1
      ensures c in s.db.receipts
    {
      if c.offset >= w.position { assert c == At(s.dec.name, w.partition, w.position); }
    }
  }

  lemma PollingIsOk(s: State, partition: int, position: nat)
    requires ReceiptedBelow(s.dec, s.db.receipts, partition, position)
    ensures ConsumerOk(s.dec, s.db.receipts, ConsumerSession(partition, position, Polling))
  {
    hide ReceiptedBelow;
  }

  lemma AdvanceStepKeeps(cfg: Config, s: State, k: nat, lands: bool, acked: bool)
    requires Inv(cfg, s) && k in s.consumers
    ensures Inv(cfg, AdvanceStep(s, k, lands, acked))
  {
    hide TablesOk, PaymentsOk, CacheOk, DecisionsOk, Receives, WorkersOk, ConsumerOk, ReceiptedBelow;
    var w := s.consumers[k];
    if w.phase.Handled? {
      ConsumerAt(s, k);
      NextReceiptedBelow(s, w);
      PollingIsOk(s, w.partition, w.position + 1);
    }
  }

  lemma JoinKeeps(cfg: Config, s: State, k: nat, partition: int)
    requires Inv(cfg, s) && k !in s.consumers && partition >= 0
    ensures Inv(cfg, s.(consumers := s.consumers[k := ConsumerSession(partition, Committed(s.decOffsets, partition),
        Polling)]))
  {
    hide TablesOk, PaymentsOk, CacheOk, Receives, WorkersOk, ConsumerOk;
    var position := Committed(s.decOffsets, partition);
    assert ReceiptedBelow(s.dec, s.db.receipts, partition, position) by { hide ParseEvent, SentOk; }
    hide ReceiptedBelow, DecisionsOk;
    PollingIsOk(s, partition, position);
  }

  lemma ConsumerStepKeeps(cfg: Config, s: State, k: nat, m: ConsumerMove)
    requires Inv(cfg, s)
    ensures Inv(cfg, ConsumerStep(s, k, m))
  {
    if m.Join? {
      if k !in s.consumers && m.partition >= 0 { hide *; JoinKeeps(cfg, s, k, m.partition); }
    } else if k in s.consumers {
      match m
      case Leave => { hide TablesOk, PaymentsOk, CacheOk, DecisionsOk, Receives, WorkersOk, ConsumerOk,
          ReceiptedBelow; }
      case Read => { hide Inv, ReadStep; ReadStepKeeps(cfg, s, k); }
      case Apply(acked, said) => { hide Inv, ApplyStep; ApplyStepKeeps(cfg, s, k, acked, said); }
      case Reject(acked) => { hide Inv, RejectStep; RejectStepKeeps(cfg, s, k, acked); }
      case Advance(lands, acked) => { hide Inv, AdvanceStep; AdvanceStepKeeps(cfg, s, k, lands, acked); }
    }
  }

  // ---------------------------------------------------------------- every run

  lemma StepKeeps(cfg: Config, s: State, a: Move)
    requires ValidConfig(cfg) && Inv(cfg, s)
    ensures Inv(cfg, Step(cfg, s, a))
  {
    hide Inv, CreateStep, SendStep, RiskStep, ConsumerStep, ResolveStep, ExpireStep;
    match a
    case Create(_, _, _, _) => CreateStepKeeps(cfg, s, a);
    case Send(_, _) => SendStepKeeps(cfg, s, a);
    case Mark(_, _) => { hide *; PublisherKeeps(cfg, s, a); }
    case Miss(_, _, _) => { hide *; PublisherKeeps(cfg, s, a); }
    case PayNoise(_, _) => { hide *; PayNoiseKeeps(cfg, s, a); }
    case DecNoise(_, _) => { hide *; DecNoiseKeeps(cfg, s, a); }
    case Risk(k, m) => RiskStepKeeps(cfg, s, k, m);
    case Consumer(k, m) => ConsumerStepKeeps(cfg, s, k, m);
    case Resolve(_, _, _, _, _, _) => ResolveStepKeeps(cfg, s, a);
    case _ => ExpireStepKeeps(cfg, s, a);
  }

  lemma InitInv(cfg: Config)
    ensures Inv(cfg, Init(cfg))
  {
    hide ParsePayment, ParseEvent;
  }

  /** The invariant holds in every reachable state. */
  lemma {:induction false} Reachable(cfg: Config, s: State, moves: seq<Move>)
    requires ValidConfig(cfg) && Inv(cfg, s)
    ensures Inv(cfg, Run(cfg, s, moves))
    decreases moves
  {
    hide Inv, Step;
    if moves != [] {
      StepKeeps(cfg, s, moves[0]);
      Reachable(cfg, Step(cfg, s, moves[0]), moves[1..]);
    }
  }
}
