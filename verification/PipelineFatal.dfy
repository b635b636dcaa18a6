/** One run from the empty system in which a decision is delivered twice, the model changes, the cached
    decision expires, and a second, different decision for the same payment ends as a REJECTED record whose
    offset commit is lost. */
module PipelineFatal {
  import opened Text
  import opened Domain
  import opened Validation
  import opened EventContract
  import opened Ledger
  import opened LedgerInvariant
  import opened Features
  import opened Scoring
  import opened Kafka
  import opened Pipeline
  import opened PipelineInvariant
  import opened PipelineSafety
  import opened PipelineStuck
  import opened PipelineWitness
  import Creation
  import Deliveries
  import OutboxStore
  import R = Reconciliation
  import I = Interleaving

  const KEY := "k"
  const REQUEST := Request("c", "m", "d", 1, "EUR", "DE")
  const MODEL := Scored(0.0, 0, 0.5, "a")

  const EVENT := V4(1)

  // ---------------------------------------------------------------- the moves

  /** A payment is requested and its event published. */
  const PAYING := [Create(KEY, REQUEST, V4(0), 1), Send(EVENT, 0)]

  /** A risk worker reads and observes the event. */
  function Looking(k: nat): seq<Move> { [Risk(k, Start(0)), Risk(k, Load), Risk(k, Observing(1))] }

  /** The first worker's decision lands without an acknowledgement, so it is published again. */
  const DECIDING := [Risk(0, Score(MODEL)), Risk(0, Save), Risk(0, Publish(0, true, false))]
  const REPEATING := [Risk(0, Load), Risk(0, Publish(0, true, true))]

  /** The consumer applies one record. */
  const ACCEPTING := [Consumer(0, Read), Consumer(0, Apply(true, Constraint)), Consumer(0, Advance(true, true))]

  /** The cached decision expires, and the other worker, its model now unavailable, decides again. */
  const FORGETTING := [ExpireDecision(EVENT)]
  const DIFFERING := [Risk(1, Score(Unavailable)), Risk(1, Save), Risk(1, Publish(0, true, true))]

  /** The consumer rejects the new record and loses the offset commit. */
  const REJECTING := [Consumer(0, Read), Consumer(0, Apply(true, DecisionClash)), Consumer(0, Reject(true)),
      Consumer(0, Advance(false, false))]

  const OBSERVED := PAYING + Looking(0) + Looking(1)
  const PRODUCING := OBSERVED + (DECIDING + REPEATING)
  const CONSUMING := [Consumer(0, Join(0))] + ACCEPTING + ACCEPTING
  const BREAKING := FORGETTING + DIFFERING + REJECTING

  // ---------------------------------------------------------------- runs in pieces

  lemma {:induction false} RunAppend(cfg: Config, s: State, a: seq<Move>, b: seq<Move>)
    ensures Run(cfg, s, a + b) == Run(cfg, Run(cfg, s, a), b)
    decreases a
  {
    hide Step;
    if a == [] {
      assert a + b == b;
    } else {
      assert (a + b)[0] == a[0] && (a + b)[1..] == a[1..] + b;
      RunAppend(cfg, Step(cfg, s, a[0]), a[1..], b);
    }
  }

  lemma OneMove(cfg: Config, s: State, a: Move)
    ensures Run(cfg, s, [a]) == Step(cfg, s, a)
  {
    hide Step;
  }

  lemma TwoMoves(cfg: Config, s: State, a: Move, b: Move)
    ensures Run(cfg, s, [a, b]) == Step(cfg, Step(cfg, s, a), b)
  {
    hide Step;
    RunAppend(cfg, s, [a], [b]);
    assert [a] + [b] == [a, b];
    OneMove(cfg, s, a);
    OneMove(cfg, Step(cfg, s, a), b);
    hide Run;
  }

  // ---------------------------------------------------------------- the request

  lemma RequestAccepted()
    ensures Creation.KeyOf(KEY).Key? && ValidRequest(Normalize(REQUEST))
  {
    TrimSpaceTrims("k");
    TrimSpaceTrims("c");
    TrimSpaceTrims("m");
    TrimSpaceTrims("d");
    TrimSpaceTrims("EUR");
    TrimSpaceTrims("DE");
    hide TrimSpace, Utf8;
    assert ToUpper("EUR") == "EUR" && ToUpper("DE") == "DE";
    Utf8Length("EUR");
    Utf8Length("DE");
    assert forall i | 0 <= i < |"k"| :: "k"[i] == 'k';
  }

  // ---------------------------------------------------------------- the stages

  /** The payments topic holds the event at offset 0, and nobody has committed an offset there. */
  ghost predicate Announced(s: State, e: OutboxEvent) {
    Holding(s.pay, At(s.pay.name, 0, 0), e) && e.payload.Created? && e.id == EVENT && s.riskOffsets == map[]
  }

  /** Nothing has been decided or consumed. */
  ghost predicate Undecided(s: State) {
    && s.redis.decisions == map[] && s.db.decisions == map[] && s.db.receipts == map[]
    && s.consumers == map[] && s.decOffsets == map[] && s.sent == {} && End(s.dec, 0) == 0
  }

  /** A session that has observed the event at offset 0. */
  ghost predicate Watching(s: State, k: nat, e: OutboxEvent) {
    k in s.risk && s.risk[k].partition == 0 && s.risk[k].position == 0 && s.risk[k].phase.Observed? &&
        s.risk[k].phase.e == e
  }

  function PaymentMade(): Payment { Creation.Candidate(Creation.KeyOf(KEY).key, Normalize(REQUEST), V4(0), 1) }
  function EventMade(): OutboxEvent { Creation.EventFor(PaymentMade(), EVENT, V4(0)) }

  lemma EventParts()
    ensures EventMade().payload.Created? && EventMade().id == EVENT && OutboxStore.Publishable(EventMade())
  {
    hide Normalize, Creation.KeyOf, Creation.Candidate, OutboxStore.Publishable, ValidRequest;
    RequestAccepted();
    FirstCandidate(Creation.KeyOf(KEY).key, Normalize(REQUEST), 1);
  }

  lemma PaymentRequested(cfg: Config)
    ensures Step(cfg, Init(cfg), PAYING[0]) == Init(cfg).(serial := 2,
              db := EMPTY_DB.(payments := map[V4(0) := PaymentMade()], outbox := map[EVENT := NewRow(EventMade(), 1)]))
  {
    hide ValidRequest, Normalize, Creation.KeyOf, Creation.Candidate, Creation.EventFor, Deliveries.Perform;
    RequestAccepted();
    FirstCandidate(Creation.KeyOf(KEY).key, Normalize(REQUEST), 1);
    FirstRows(PaymentMade(), EventMade(), 1);
  }

  lemma EventSent(cfg: Config, s: State)
    requires EVENT in s.db.outbox && s.db.outbox[EVENT] == NewRow(EventMade(), 1)
    ensures Step(cfg, s, PAYING[1]) == s.(pay := Append(s.pay, 0, PayEvent(EventMade())))
  {
    hide EventMade, Append, OutboxStore.Publishable;
    EventParts();
  }

  lemma EventReadable(cfg: Config, s: State)
    requires Inv(cfg, s) && EVENT in s.db.outbox
    ensures ParsePayment(PayEvent(s.db.outbox[EVENT].event)) == Some(s.db.outbox[EVENT].event)
  {
    hide PaymentsOk, CacheOk, DecisionsOk, Receives, WorkersOk, ConsumersOk, ParsePayment, DbInv, Drawn, DecisionsMade;
  }

  lemma Paid(cfg: Config)
    requires ValidConfig(cfg)
    ensures var s := Run(cfg, Init(cfg), PAYING);
            Inv(cfg, s) && Announced(s, EventMade()) && Undecided(s) && s.risk == map[] && s.redis == EMPTY_REDIS
  {
    hide Run, Step, ValidConfig, Inv, EventMade, PaymentMade, ParsePayment;
    ReachedInv(cfg, PAYING);
    TwoMoves(cfg, Init(cfg), PAYING[0], PAYING[1]);
    PaymentRequested(cfg);
    EventParts();
    var s := Run(cfg, Init(cfg), PAYING);
    EventSent(cfg, Step(cfg, Init(cfg), PAYING[0]));
    EventReadable(cfg, s);
  }

  /** A worker starts, reads the event and observes it. */
  lemma Looks(cfg: Config, s: State, k: nat, e: OutboxEvent)
    requires Announced(s, e) && k !in s.risk && e.id !in s.redis.decisions
    ensures var n := Run(cfg, s, Looking(k));
            && n == s.(risk := n.risk, redis := n.redis, history := n.history)
            && n.risk.Keys == s.risk.Keys + {k} && (forall j | j in s.risk :: n.risk[j] == s.risk[j])
            && n.redis.decisions == s.redis.decisions && Watching(n, k, e)
  {
    hide Run, ParsePayment, Observe, Observation;
    ThreeMoves(cfg, s, Risk(k, Start(0)), Risk(k, Load), Risk(k, Observing(1)));
    var s1 := s.(risk := s.risk[k := RiskSession(0, 0, Ready)]);
    assert Step(cfg, s, Risk(k, Start(0))) == s1;
    var s2 := Enter(s1, k, Missed(e));
    assert Step(cfg, s1, Risk(k, Load)) == s2;
    ObserveLeavesDecisions(s2.redis, cfg.window, Observation(e, 1));
    var n := Step(cfg, s2, Risk(k, Observing(1)));
    assert n == ObserveStep(cfg, s2, k, 1);
  }

  /** The first worker's decision, published twice. */
  lemma Decides(cfg: Config, s: State, e: OutboxEvent)
    requires Announced(s, e) && Watching(s, 0, e) && e.id !in s.redis.decisions
    ensures var n, d := Run(cfg, s, DECIDING), Decision(cfg.settings, e, s.risk[0].phase.f, MODEL);
            && n == s.(dec := Append(s.dec, 0, Json(d)), sent := s.sent + {Next(s.dec, 0)}, risk := n.risk,
                redis := n.redis)
            && n.redis.decisions == s.redis.decisions[e.id := d]
            && n.risk == s.risk[0 := RiskSession(0, 0, Ready)]
  {
    hide Run, Decision, Append, Next;
    ModelFits();
    LatePublication(cfg, s, 0, MODEL, 0, false);
    hide ValidModel, LabelOk, Holding;
  }

  lemma ModelFits()
    ensures ValidModel(MODEL) && LabelOk(MODEL) && |Utf8(TrimSpace(MODEL.version))| <= 255
  {
    TrimSpaceTrims("a");
    Utf8Length("a");
    hide TrimSpace, Utf8;
  }

  lemma Repeats(cfg: Config, s: State, e: OutboxEvent)
    requires Announced(s, e) && 0 in s.risk && s.risk[0] == RiskSession(0, 0, Ready) && e.id in s.redis.decisions
    ensures var n, d := Run(cfg, s, REPEATING), s.redis.decisions[e.id];
            && n == s.(dec := Append(s.dec, 0, Json(d)), sent := s.sent + {Next(s.dec, 0)}, risk := n.risk)
            && n.risk == s.risk[0 := RiskSession(0, 0, Sent)]
  {
    hide Run, ParsePayment, Append, Next;
    TwoMoves(cfg, s, Risk(0, Load), Risk(0, Publish(0, true, true)));
    var s1 := Enter(s, 0, Saved(e, s.redis.decisions[e.id]));
    assert Step(cfg, s, Risk(0, Load)) == s1;
  }

  // ---------------------------------------------------------------- the consumer accepts

  /** The consumer's one session, polling at the offset. */
  function Polls(offset: nat): map<nat, ConsumerSession> { map[0 := ConsumerSession(0, offset, Polling)] }

  lemma Reads(cfg: Config, s: State, offset: nat)
    requires ValidConfig(cfg) && Inv(cfg, s) && s.consumers == Polls(offset)
    requires var c := At(s.dec.name, 0, offset); c in s.sent && c !in s.db.receipts && c in s.dec.records
    requires var v := s.dec.records[At(s.dec.name, 0, offset)]; v.Json? && ContractOk(v.event)
    ensures Step(cfg, s, Consumer(0, Read)) == s.(consumers := map[0 := ConsumerSession(0, offset, Applying)])
  {
    hide ValidConfig, Inv, ContractOk, ValidSource, Made;
    SentCoordinate(cfg, s, At(s.dec.name, 0, offset));
  }

  lemma Accepts(cfg: Config, s: State, offset: nat)
    requires ValidConfig(cfg) && Inv(cfg, s) && s.consumers == Polls(offset)
    requires var c := At(s.dec.name, 0, offset); c in s.sent && c !in s.db.receipts && c in s.dec.records
    requires var v := s.dec.records[At(s.dec.name, 0, offset)];
             v.Json? && ContractOk(v.event) && !Clashes(s.db.decisions, v.event)
    ensures var n, c := Run(cfg, s, ACCEPTING), At(s.dec.name, 0, offset);
            && n == s.(db := n.db, consumers := Polls(offset + 1), decOffsets := s.decOffsets[0 := offset + 1])
            && c in n.db.receipts && n.db.receipts == s.db.receipts[c := n.db.receipts[c]]
            && !n.db.receipts[c].disposition.Rejected? && DecisionJoins(s.db, n.db, s.dec.records[c].event)
  {
    hide Run, ValidConfig, Inv, ContractOk, ValidSource, Made, Clashes, ApplyTx, DecisionJoins, TablesOk;
    ThreeMoves(cfg, s, ACCEPTING[0], ACCEPTING[1], ACCEPTING[2]);
    Reads(cfg, s, offset);
    var c := At(s.dec.name, 0, offset);
    var e := s.dec.records[c].event;
    SentCoordinate(cfg, s, c);
    InvTables(cfg, s);
    ApplyMade(s.db, s.serial, e, Record(c, s.dec.records[c]));
    AcceptedReceiptWritten(s.db, e, Record(c, s.dec.records[c]));
    ApplyGrows(s.db, e, Record(c, s.dec.records[c]));
    hide Step, AcceptedReceipt, Inv, SentOk;
    var s1 := s.(consumers := map[0 := ConsumerSession(0, offset, Applying)]);
    var s2 := s.(db := ApplyTx(s.db, e, Record(c, s.dec.records[c])).0,
        consumers := map[0 := ConsumerSession(0, offset, Handled)]);
    AppliesOnce(cfg, s1, offset);
    AdvancesOnce(cfg, s2, offset);
  }

  lemma AppliesOnce(cfg: Config, s: State, offset: nat)
    requires s.consumers == map[0 := ConsumerSession(0, offset, Applying)]
    requires var c := At(s.dec.name, 0, offset);
             && c in s.dec.records && s.dec.records[c].Json? && ContractOk(s.dec.records[c].event)
             && ApplyTx(s.db, s.dec.records[c].event, Record(c, s.dec.records[c])).1.Accepted?
    ensures var c := At(s.dec.name, 0, offset);
            Step(cfg, s, ACCEPTING[1]) == s.(consumers := map[0 := ConsumerSession(0, offset, Handled)],
              db := ApplyTx(s.db, s.dec.records[c].event, Record(c, s.dec.records[c])).0)
  {
    hide ContractOk, ApplyTx, I.AnswerFits;
  }

  lemma AdvancesOnce(cfg: Config, s: State, offset: nat)
    requires s.consumers == map[0 := ConsumerSession(0, offset, Handled)]
    ensures Step(cfg, s, ACCEPTING[2]) == s.(consumers := Polls(offset + 1),
        decOffsets := s.decOffsets[0 := offset + 1])
  {
  }

  // ---------------------------------------------------------------- the consumer rejects

  lemma Rejects(cfg: Config, s: State, offset: nat)
    requires ValidConfig(cfg) && Inv(cfg, s) && s.consumers == Polls(offset)
    requires var c := At(s.dec.name, 0, offset); c in s.sent && c !in s.db.receipts && c in s.dec.records
    requires var v := s.dec.records[At(s.dec.name, 0, offset)];
             v.Json? && ContractOk(v.event) && Clashes(s.db.decisions, v.event)
    ensures var n, c := Run(cfg, s, REJECTING), At(s.dec.name, 0, offset);
            && n == s.(db := s.db.(receipts := s.db.receipts[c := RejectedReceipt(Record(c, s.dec.records[c]),
                RejectionCode.DecisionConflict)]), consumers := map[])
  {
    hide Run, ValidConfig, Inv, ContractOk, ValidSource, Made, Clashes, ApplyTx, TablesOk, Step, RejectedReceipt;
    FourMoves(cfg, s, REJECTING[0], REJECTING[1], REJECTING[2], REJECTING[3]);
    Reads(cfg, s, offset);
    var c := At(s.dec.name, 0, offset);
    var r := Record(c, s.dec.records[c]);
    SentCoordinate(cfg, s, c);
    InvTables(cfg, s);
    ApplyMade(s.db, s.serial, r.value.event, r);
    RefusesOnce(cfg, s.(consumers := map[0 := ConsumerSession(0, offset, Applying)]), offset);
    RejectsOnce(cfg, s.(consumers := map[0 := ConsumerSession(0, offset, Refusing(RejectionCode.DecisionConflict))]),
        offset);
  }

  lemma RefusesOnce(cfg: Config, s: State, offset: nat)
    requires s.consumers == map[0 := ConsumerSession(0, offset, Applying)]
    requires var c := At(s.dec.name, 0, offset);
             && c in s.dec.records && s.dec.records[c].Json? && ContractOk(s.dec.records[c].event)
             && ApplyTx(s.db, s.dec.records[c].event, Record(c, s.dec.records[c])) == (s.db, Refused(DecisionClash))
    ensures Step(cfg, s, REJECTING[1])
              == s.(consumers := map[0 := ConsumerSession(0, offset, Refusing(RejectionCode.DecisionConflict))])
  {
    hide ContractOk, ApplyTx, I.AnswerFits;
  }

  lemma RejectsOnce(cfg: Config, s: State, offset: nat)
    requires s.consumers == map[0 := ConsumerSession(0, offset, Refusing(RejectionCode.DecisionConflict))]
    requires var c := At(s.dec.name, 0, offset);
             c !in s.db.receipts && c in s.dec.records && s.dec.records[c].Json? && ValidSource(c)
    ensures var c := At(s.dec.name, 0, offset);
            Step(cfg, Step(cfg, s, REJECTING[2]), REJECTING[3]) == s.(db := s.db.(receipts := s.db.receipts[c :=
                RejectedReceipt(Record(c, s.dec.records[c]), RejectionCode.DecisionConflict)]), consumers := map[])
  {
    hide ValidSource, Step, RejectedReceipt;
    var c := At(s.dec.name, 0, offset);
    var db := s.db.(receipts := s.db.receipts[c := RejectedReceipt(Record(c, s.dec.records[c]),
        RejectionCode.DecisionConflict)]);
    RejectsFirst(cfg, s, offset);
    CommitLost(cfg, s.(consumers := map[0 := ConsumerSession(0, offset, Handled)], db := db), offset);
  }

  lemma RejectsFirst(cfg: Config, s: State, offset: nat)
    requires s.consumers == map[0 := ConsumerSession(0, offset, Refusing(RejectionCode.DecisionConflict))]
    requires var c := At(s.dec.name, 0, offset);
             c !in s.db.receipts && c in s.dec.records && s.dec.records[c].Json? && ValidSource(c)
    ensures var c := At(s.dec.name, 0, offset);
            Step(cfg, s, REJECTING[2]) == s.(consumers := map[0 := ConsumerSession(0, offset, Handled)],
              db := s.db.(receipts := s.db.receipts[c := RejectedReceipt(Record(c, s.dec.records[c]),
                  RejectionCode.DecisionConflict)]))
  {
    hide ValidSource, RejectedReceipt;
  }

  lemma CommitLost(cfg: Config, s: State, offset: nat)
    requires s.consumers == map[0 := ConsumerSession(0, offset, Handled)]
    ensures Step(cfg, s, REJECTING[3]) == s.(consumers := map[])
  {
  }

  // ---------------------------------------------------------------- the whole run

  /** The decision is on the topic twice, and nothing has been consumed. */
  ghost predicate Produced(s: State, d: Event) {
    && s.redis.decisions == map[EVENT := d] && ContractOk(d) && d.payload.sourceEventId == EVENT &&
        d.payload.decisionId == V5("a", EVENT)
    && Watching(s, 1, EventMade()) && Announced(s, EventMade())
    && s.db.decisions == map[] && s.db.receipts == map[] && s.consumers == map[] && s.decOffsets == map[]
    && End(s.dec, 0) == 2
    && var c, x := At(s.dec.name, 0, 0), At(s.dec.name, 0, 1);
       c in s.sent && x in s.sent && c in s.dec.records && x in s.dec.records &&
           s.dec.records[c] == s.dec.records[x] == Json(d)
  }

  /** The observed snapshot is one the rules and the contract take. */
  lemma WatchedDecision(cfg: Config, s: State, k: nat, e: OutboxEvent, m: Model)
    requires ValidConfig(cfg) && Inv(cfg, s) && Watching(s, k, e) && ValidModel(m) &&
        |Utf8(TrimSpace(Used(m).version))| <= 255
    ensures e.payload.Created?
    ensures var d := Decision(cfg.settings, e, s.risk[k].phase.f, m);
            && ContractOk(d) && d.payload.sourceEventId == e.id && d.payload.decisionId == V5(Used(m).version, e.id)
  {
    hide ValidModel, ContractOk, Utf8, TrimSpace, Decision, ValidConfig, Inv, SnapshotOk;
    WatchedSource(cfg, s, k, e);
    SettingsValid(cfg);
    ProducerMeetsContract(cfg.settings, e, s.risk[k].phase.f, m);
    DecisionNamed(cfg.settings, e, s.risk[k].phase.f, m);
  }

  lemma SettingsValid(cfg: Config)
    requires ValidConfig(cfg)
    ensures ValidSettings(cfg.settings)
  {
  }

  lemma DecisionNamed(c: Settings, e: OutboxEvent, f: Snapshot, m: Model)
    requires e.payload.Created?
    ensures var d := Decision(c, e, f, m);
            d.payload.sourceEventId == e.id && d.payload.decisionId == V5(Used(m).version, e.id)
  {
    hide Rules, AllReasons, Round6, TrimSpace, Combined;
  }

  lemma WatchedSource(cfg: Config, s: State, k: nat, e: OutboxEvent)
    requires Inv(cfg, s) && Watching(s, k, e)
    ensures Source(e) && SnapshotOk(s.risk[k].phase.f)
  {
    hide TablesOk, PaymentsOk, CacheOk, DecisionsOk, Receives, ConsumersOk, SnapshotOk, RiskBelow, ParsePayment, Source;
    assert WorkerOk(s.pay, s.dec.records, s.sent, s.invalid, s.risk[k]);
    ParsedIsSource(s.pay.records[At(s.pay.name, s.risk[k].partition, s.risk[k].position)]);
  }

  /** Two workers have observed the event; nothing has been decided. */
  ghost predicate BothWatching(s: State) {
    Announced(s, EventMade()) && Undecided(s) && Watching(s, 0, EventMade()) && Watching(s, 1, EventMade())
  }

  lemma Observes(cfg: Config)
    requires ValidConfig(cfg)
    ensures var s := Run(cfg, Init(cfg), OBSERVED); Inv(cfg, s) && BothWatching(s)
  {
    hide Run, Step, ValidConfig, Inv, Init, EventMade, Looking, Holding;
    var s := Run(cfg, Init(cfg), PAYING);
    Paid(cfg);
    RunAppend(cfg, Init(cfg), PAYING + Looking(0), Looking(1));
    RunAppend(cfg, Init(cfg), PAYING, Looking(0));
    Looks(cfg, s, 0, EventMade());
    var n := Run(cfg, s, Looking(0));
    Looks(cfg, n, 1, EventMade());
    ReachedInv(cfg, OBSERVED);
  }

  /** The topic after two appends to partition 0 of an empty one. */
  lemma TwoAppends(t: Topic<Value>, v: Value)
    requires End(t, 0) == 0
    ensures var n := Append(Append(t, 0, v), 0, v);
            var c, x := At(t.name, 0, 0), At(t.name, 0, 1);
            && Next(t, 0) == c && Next(Append(t, 0, v), 0) == x && n.name == t.name && End(n, 0) == 2
            && c in n.records && x in n.records && n.records[c] == n.records[x] == v
  {
  }

  lemma Produces(cfg: Config, s: State)
    requires ValidConfig(cfg) && Inv(cfg, s) && BothWatching(s)
    ensures var d := Decision(cfg.settings, EventMade(), s.risk[0].phase.f, MODEL);
            Produced(Run(cfg, s, DECIDING + REPEATING), d)
  {
    hide Run, Step, ValidConfig, Inv, EventMade, Decision, ContractOk, Append, Next, Holding, End;
    RunAppend(cfg, s, DECIDING, REPEATING);
    var e := EventMade();
    var d := Decision(cfg.settings, e, s.risk[0].phase.f, MODEL);
    ModelFits();
    WatchedDecision(cfg, s, 0, e, MODEL);
    Decides(cfg, s, e);
    var n := Run(cfg, s, DECIDING);
    Repeats(cfg, n, e);
    TwoAppends(s.dec, Json(d));
  }

  /** Both records have been applied, and the other worker still holds its observation. */
  ghost predicate Consumed(s: State, d: Event) {
    && s.redis.decisions == map[EVENT := d] && d.payload.sourceEventId == EVENT &&
        d.payload.decisionId == V5("a", EVENT)
    && Watching(s, 1, EventMade()) && Announced(s, EventMade())
    && s.consumers == Polls(2) && s.decOffsets == map[0 := 2] && End(s.dec, 0) == 2
    && Applied(s, At(s.dec.name, 0, 0), d) && Applied(s, At(s.dec.name, 0, 1), d)
  }

  /** The record at the coordinate was accepted as a delivery of the decision. */
  ghost predicate Applied(s: State, c: Coord, d: Event) {
    && d.payload.decisionId in s.db.decisions && s.db.decisions[d.payload.decisionId] == d
    && c in s.db.receipts && !s.db.receipts[c].disposition.Rejected? &&
        s.db.receipts[c].eventId == Some(d.payload.decisionId)
  }

  lemma AcceptedIsApplied(cfg: Config, s: State, c: Coord, d: Event)
    requires Inv(cfg, s) && ContractOk(d) && c in s.dec.records && s.dec.records[c] == Json(d)
    requires c in s.db.receipts && !s.db.receipts[c].disposition.Rejected?
    ensures Applied(s, c, d)
  {
    hide PaymentsOk, CacheOk, DecisionsOk, WorkersOk, ConsumersOk, Drawn, Readable, DecisionsMade;
    hide VersionFits, ValidReason;
    hide Outboxed, DecisionsUnique, Decided, Queued, Audited;
    assert Receipted(s.db.decisions, s.db.receipts);
    assert ReceiptOk(s.db.decisions, s.db.receipts[c]);
    hide DbInv, Receipted;
  }

  lemma Joins(cfg: Config, s: State)
    requires s.consumers == map[] && s.decOffsets == map[]
    ensures Run(cfg, s, [Consumer(0, Join(0))]) == s.(consumers := Polls(0))
  {
    OneMove(cfg, s, Consumer(0, Join(0)));
    JoinStep(cfg, s);
    hide Run, Step;
  }

  lemma NothingClashes(decisions: Decisions, d: Event)
    requires decisions == map[]
    ensures !Clashes(decisions, d)
  {
  }

  lemma Unopposed(db: Db, n: Db, d: Event)
    requires db.decisions == map[] && DecisionJoins(db, n, d)
    ensures !Clashes(n.decisions, d)
  {
  }

  lemma Consumes(cfg: Config, s: State, d: Event)
    requires ValidConfig(cfg) && Inv(cfg, s) && Produced(s, d)
    ensures Consumed(Run(cfg, s, CONSUMING), d)
  {
    hide Run, Step, ValidConfig, Inv, EventMade, ContractOk, Holding, End, DecisionJoins, Clashes, Applied;
    var c, x := At(s.dec.name, 0, 0), At(s.dec.name, 0, 1);
    var s1 := s.(consumers := Polls(0));
    RunAppend(cfg, s, [Consumer(0, Join(0))] + ACCEPTING, ACCEPTING);
    RunAppend(cfg, s, [Consumer(0, Join(0))], ACCEPTING);
    Joins(cfg, s);
    Reachable(cfg, s, [Consumer(0, Join(0))]);
    NothingClashes(s.db.decisions, d);
    Accepts(cfg, s1, 0);
    var s2 := Run(cfg, s1, ACCEPTING);
    Reachable(cfg, s1, ACCEPTING);
    Unopposed(s.db, s2.db, d);
    Accepts(cfg, s2, 1);
    var n := Run(cfg, s2, ACCEPTING);
    Reachable(cfg, s2, ACCEPTING);
    AcceptedIsApplied(cfg, n, c, d);
    AcceptedIsApplied(cfg, n, x, d);
  }

  lemma Forgets(cfg: Config, s: State, d: Event)
    requires s.redis.decisions == map[EVENT := d]
    ensures Run(cfg, s, FORGETTING) == s.(redis := s.redis.(decisions := map[]))
  {
    OneMove(cfg, s, ExpireDecision(EVENT));
    hide Run;
  }

  /** The other worker's decision, made without a model, lands at offset 2. */
  lemma Differs(cfg: Config, s: State)
    requires ValidConfig(cfg) && Inv(cfg, s) && Announced(s, EventMade()) && Watching(s, 1, EventMade())
    requires s.redis.decisions == map[] && End(s.dec, 0) == 2
    ensures var n, c, d := Run(cfg, s, DIFFERING), At(s.dec.name, 0, 2), Decision(cfg.settings, EventMade(),
        s.risk[1].phase.f, Unavailable);
            && n == s.(dec := n.dec, sent := n.sent, redis := n.redis, risk := n.risk)
            && n.dec.name == s.dec.name && c in n.sent && c !in s.db.receipts && c in n.dec.records &&
                n.dec.records[c] == Json(d)
            && ContractOk(d) && d.payload.sourceEventId == EVENT &&
                d.payload.decisionId == V5("ml-unavailable-review-v1", EVENT)
  {
    hide Run, ValidConfig, Inv, EventMade, Decision, ContractOk, Holding, Utf8, TrimSpace, LabelOk;
    FallbackFits();
    WatchedDecision(cfg, s, 1, EventMade(), Unavailable);
    LatePublication(cfg, s, 1, Unavailable, 0, true);
    FreshHere(cfg, s, 0, Json(Decision(cfg.settings, EventMade(), s.risk[1].phase.f, Unavailable)));
  }

  /** The parsed record at the coordinate was rejected, and the consumer that rejected it lost its commit. */
  ghost predicate Broken(s: State, c: Coord, d: Event) {
    && Condemned(s, c) && Held(s, c)
    && Applied(s, At(s.dec.name, 0, 0), d) && Applied(s, At(s.dec.name, 0, 1), d)
  }

  lemma RejectionBreaks(cfg: Config, s: State, d: Event, late: Event)
    requires ValidConfig(cfg) && Inv(cfg, s) && s.consumers == Polls(2) && s.decOffsets == map[0 := 2]
    requires var c := At(s.dec.name, 0, 2);
             c in s.sent && c !in s.db.receipts && c in s.dec.records && s.dec.records[c] == Json(late)
    requires ContractOk(late) && late.payload.sourceEventId == d.payload.sourceEventId && late != d
    requires Applied(s, At(s.dec.name, 0, 0), d) && Applied(s, At(s.dec.name, 0, 1), d)
    ensures Broken(Run(cfg, s, REJECTING), At(s.dec.name, 0, 2), d)
  {
    hide Run, ValidConfig, Inv, ContractOk;
    assert Clashes(s.db.decisions, late);
    Rejects(cfg, s, 2);
    hide Clashes;
  }

  lemma Breaks(cfg: Config, s: State, d: Event)
    requires ValidConfig(cfg) && Inv(cfg, s) && Consumed(s, d)
    ensures Broken(Run(cfg, s, BREAKING), At(s.dec.name, 0, 2), d)
  {
    hide Run, Step, ValidConfig, Inv, EventMade, Decision, ContractOk, Holding, End, Broken;
    RunAppend(cfg, s, FORGETTING + DIFFERING, REJECTING);
    RunAppend(cfg, s, FORGETTING, DIFFERING);
    Forgets(cfg, s, d);
    var s1 := Run(cfg, s, FORGETTING);
    Reachable(cfg, s, FORGETTING);
    Differs(cfg, s1);
    var s2 := Run(cfg, s1, DIFFERING);
    Reachable(cfg, s1, DIFFERING);
    RejectionBreaks(cfg, s2, d, Decision(cfg.settings, EventMade(), s1.risk[1].phase.f, Unavailable));
  }

  lemma BrokenReports(cfg: Config, s: State, c: Coord, d: Event, cutoff: int)
    requires Broken(s, c, d)
    ensures exists x :: x in R.Exceptions(s.db, cutoff) && x.code == R.DUPLICATE_DELIVERY
    ensures exists x :: x in R.Exceptions(s.db, cutoff) && x.code == R.REJECTED_DECISION_EVENT
  {
    hide ParseEvent, Held, R.Exceptions, R.DeliveriesOf;
    ReportedTwice(s.db, d.payload.decisionId, At(s.dec.name, 0, 0), At(s.dec.name, 0, 1), cutoff);
    RejectionReported(s.db, c, cutoff);
  }

  lemma RejectionReported(db: Db, c: Coord, cutoff: int)
    requires c in db.receipts && db.receipts[c].disposition.Rejected?
    ensures R.Exception(R.REJECTED_DECISION_EVENT, None, None, Some(c), 0) in R.Exceptions(db, cutoff)
  {
    hide R.MissingDecisions, R.DuplicateDecisions, R.DuplicateDeliveries, R.StatusMismatches;
    hide R.MissingQueueRows, R.UnexpectedQueueRows;
    assert R.Exception(R.REJECTED_DECISION_EVENT, None, None, Some(c), 0) in R.RejectedEvents(db);
  }

  const FATAL := PRODUCING + CONSUMING + BREAKING

  lemma ProducesAll(cfg: Config) returns (d: Event)
    requires ValidConfig(cfg)
    ensures Produced(Run(cfg, Init(cfg), PRODUCING), d)
  {
    hide Run, Step, ValidConfig, Inv, EventMade, Decision, Produced, Announced, Undecided, Init, Looking;
    RunAppend(cfg, Init(cfg), OBSERVED, DECIDING + REPEATING);
    Observes(cfg);
    var s := Run(cfg, Init(cfg), OBSERVED);
    Produces(cfg, s);
    EventParts();
    d := Decision(cfg.settings, EventMade(), s.risk[0].phase.f, MODEL);
  }

  lemma FatalBreaks(cfg: Config) returns (d: Event)
    requires ValidConfig(cfg)
    ensures Broken(Run(cfg, Init(cfg), FATAL), Coord(cfg.decTopic, 0, 2), d)
  {
    hide Run, Step, ValidConfig, Produced, Consumed, Init, Broken, Inv;
    RunAppend(cfg, Init(cfg), PRODUCING + CONSUMING, BREAKING);
    RunAppend(cfg, Init(cfg), PRODUCING, CONSUMING);
    d := ProducesAll(cfg);
    ReachedInv(cfg, PRODUCING);
    ReachedInv(cfg, PRODUCING + CONSUMING);
    Consumes(cfg, Run(cfg, Init(cfg), PRODUCING), d);
    Breaks(cfg, Run(cfg, Init(cfg), PRODUCING + CONSUMING), d);
    TopicNamed(cfg, Run(cfg, Init(cfg), PRODUCING + CONSUMING));
  }

  lemma TopicNamed(cfg: Config, s: State)
    requires Inv(cfg, s)
    ensures s.dec.name == cfg.decTopic
  {
    hide TablesOk, PaymentsOk, CacheOk, DecisionsOk, Receives, WorkersOk, ConsumersOk;
  }

  /** The reconciler's duplicate delivery and rejected event are reachable, the rejected record being one that
      parses; and after this run no further moves whatever get the partition past it. */
  lemma StuckIsReachable(cfg: Config, more: seq<Move>, cutoff: int)
    requires ValidConfig(cfg)
    ensures var s, c := Run(cfg, Init(cfg), FATAL), Coord(cfg.decTopic, 0, 2);
            && (exists x :: x in R.Exceptions(s.db, cutoff) && x.code == R.DUPLICATE_DELIVERY)
            && (exists x :: x in R.Exceptions(s.db, cutoff) && x.code == R.REJECTED_DECISION_EVENT)
            && c in s.dec.records && ParseEvent(s.dec.records[c]).Some?
            && c in s.db.receipts && s.db.receipts[c].disposition.Rejected?
            && Deliveries.Handle(s.db, Record(c, s.dec.records[c])) == (s.db, false)
            && Committed(Run(cfg, s, more).decOffsets, 0) <= 2
  {
    hide Run, Step, ValidConfig, Inv, Init, ParseEvent, Held, FATAL, Applied, R.Exceptions, Deliveries.Handle;
    var d := FatalBreaks(cfg);
    ReachedInv(cfg, FATAL);
    var s := Run(cfg, Init(cfg), FATAL);
    BrokenReports(cfg, s, Coord(cfg.decTopic, 0, 2), d, cutoff);
    CondemnedFails(s, Coord(cfg.decTopic, 0, 2));
    StuckForever(cfg, s, more, Coord(cfg.decTopic, 0, 2));
  }
}
