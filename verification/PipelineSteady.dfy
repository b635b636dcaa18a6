/** What holds for a source event as long as its own cached decision does not expire, whatever expires
    elsewhere: all its decision records are the same, none ends rejected unless its version label is too
    wide, and its payment is decided once the offsets have passed. */
module PipelineSteady {
  import opened Text
  import opened Domain
  import opened EventContract
  import opened Ledger
  import opened LedgerInvariant
  import opened Features
  import opened Scoring
  import opened Kafka
  import opened Pipeline
  import opened PipelineInvariant
  import opened PipelineSafety
  import I = Interleaving

  // ---------------------------------------------------------------- agreement with the cache

  /** The cached decision of this source event does not expire. */
  predicate Steady(a: Move, source: Uuid) { !(a.ExpireDecision? && a.source == source) }

  ghost predicate Agreed(cache: map<Uuid, Event>, d: Event) {
    d.payload.sourceEventId in cache && cache[d.payload.sourceEventId] == d
  }

  /** A decision for this source event; one that the consumer's contract takes. */
  predicate Mine(v: Value, source: Uuid) { v.Json? && v.event.payload.sourceEventId == source }
  predicate Clean(v: Value, source: Uuid) { Mine(v, source) && ContractOk(v.event) }

  ghost predicate PhaseSteady(cache: map<Uuid, Event>, phase: RiskPhase, source: Uuid) {
    phase.Saved? && phase.d.payload.sourceEventId == source ==> Agreed(cache, phase.d)
  }

  ghost predicate WorkersSteady(cache: map<Uuid, Event>, risk: map<nat, RiskSession>, source: Uuid) {
    forall k | k in risk :: PhaseSteady(cache, risk[k].phase, source)
  }

  ghost predicate RecordsSteady(cache: map<Uuid, Event>, records: map<Coord, Value>, sent: set<Coord>,
        decisions: Decisions, source: Uuid) {
    && (forall c | c in sent && c in records && Mine(records[c], source) :: Agreed(cache, records[c].event))
    && (forall d | d in decisions && decisions[d].payload.sourceEventId == source :: Agreed(cache, decisions[d]))
  }

  ghost predicate ReceiptsSteady(receipts: Receipts, records: map<Coord, Value>, sent: set<Coord>,
        consumers: map<nat, ConsumerSession>, name: string, source: Uuid) {
    && (forall c | c in sent && c in receipts && c in records && Clean(records[c], source) ::
        !receipts[c].disposition.Rejected?)
    && (forall k | k in consumers && consumers[k].phase.Refusing? ::
        var c := At(name, consumers[k].partition, consumers[k].position);
        !(c in sent && c in records && Clean(records[c], source)))
  }

  ghost predicate SteadyState(s: State, source: Uuid) {
    && WorkersSteady(s.redis.decisions, s.risk, source)
    && RecordsSteady(s.redis.decisions, s.dec.records, s.sent, s.db.decisions, source)
    && ReceiptsSteady(s.db.receipts, s.dec.records, s.sent, s.consumers, s.dec.name, source)
  }

  /** Agreed decisions for one source are the same decision. */
  lemma NoClashes(s: State, e: Event)
    requires SteadyState(s, e.payload.sourceEventId) && Agreed(s.redis.decisions, e)
    ensures !Clashes(s.db.decisions, e)
  {
    hide ContractOk, ReceiptsSteady, WorkersSteady;
  }

  lemma EnterSteady(s: State, n: State, k: nat, source: Uuid)
    requires SteadyState(s, source) && k in n.risk && n == s.(risk := n.risk) && n.risk == s.risk[k := n.risk[k]]
    requires PhaseSteady(s.redis.decisions, n.risk[k].phase, source)
    ensures SteadyState(n, source)
  {
    hide PhaseSteady, RecordsSteady, ReceiptsSteady;
  }

  lemma CacheKeyed(r: Redis, outbox: Outbox)
    requires CacheOk(r, outbox)
    ensures Keyed(r.decisions)
  {
    hide Made, SnapshotOk, ValidCountry;
  }

  /** Saving adds at most one decision to the cache and returns the one that is in it. */
  lemma SaveAgrees(r: Redis, d: Event)
    requires Keyed(r.decisions)
    ensures var (n, winner) := SaveDecision(r, d);
            && Agreed(n.decisions, winner) && (forall x | Agreed(r.decisions, x) :: Agreed(n.decisions, x))
            && forall s | s in n.decisions ::
                (s in r.decisions && n.decisions[s] == r.decisions[s]) || n.decisions[s] == d
  {
  }

  lemma SaveStepSteady(cfg: Config, s: State, k: nat, source: Uuid)
    requires Inv(cfg, s) && SteadyState(s, source) && k in s.risk
    ensures SteadyState(SaveStep(s, k), source)
  {
    hide ReceiptsSteady, ContractOk, TablesOk, PaymentsOk, CacheOk, DecisionsOk, Receives, WorkersOk, ConsumersOk;
    hide SaveDecision, Agreed, Keyed;
    if s.risk[k].phase.Judged? {
      CacheKeyed(s.redis, s.db.outbox);
      SaveAgrees(s.redis, s.risk[k].phase.d);
      hide Inv;
    }
  }

  lemma SentSteady(s: State, c: Coord, d: Event, source: Uuid)
    requires SteadyState(s, source) && c !in s.db.receipts && c !in s.dec.records
    requires d.payload.sourceEventId == source ==> Agreed(s.redis.decisions, d)
    requires forall j | j in s.consumers && s.consumers[j].phase.Refusing? ::
        At(s.dec.name, s.consumers[j].partition, s.consumers[j].position) != c
    ensures RecordsSteady(s.redis.decisions, s.dec.records[c := Json(d)], s.sent + {c}, s.db.decisions, source)
    ensures ReceiptsSteady(s.db.receipts, s.dec.records[c := Json(d)], s.sent + {c}, s.consumers, s.dec.name, source)
  {
    hide ContractOk, WorkersSteady, Agreed;
  }

  lemma FreshRecord(cfg: Config, s: State, c: Coord)
    requires Inv(cfg, s) && c !in s.dec.records
    ensures c !in s.db.receipts
    ensures forall j | j in s.consumers && s.consumers[j].phase.Refusing? ::
        At(s.dec.name, s.consumers[j].partition, s.consumers[j].position) != c
  {
    hide TablesOk, PaymentsOk, CacheOk, DecisionsOk, WorkersOk, ReceiptedBelow;
    forall j | j in s.consumers && s.consumers[j].phase.Refusing?
      ensures At(s.dec.name, s.consumers[j].partition, s.consumers[j].position) != c
    {
      assert ConsumerOk(s.dec, s.db.receipts, s.consumers[j]);
    }
  }

  lemma PublishStepSteady(cfg: Config, s: State, k: nat, target: int, lands: bool, acked: bool, source: Uuid)
    requires Inv(cfg, s) && SteadyState(s, source) && k in s.risk
    ensures SteadyState(PublishStep(s, k, target, lands, acked), source)
  {
    hide ContractOk, TablesOk, PaymentsOk, CacheOk, WorkersOk, Agreed, ConsumersOk, Receives, RecordsSteady;
    hide ReceiptsSteady, SentOk, ParseEvent;
    if s.risk[k].phase.Saved? && target >= 0 {
      assert PhaseSteady(s.redis.decisions, s.risk[k].phase, source);
      AppendGrows(s.dec, target, Json(s.risk[k].phase.d));
      hide DecisionsOk, Append, Next, Grows, TopicOk;
      FreshRecord(cfg, s, Next(s.dec, target));
      SentSteady(s, Next(s.dec, target), s.risk[k].phase.d, source);
    }
  }

  lemma LoadStepSteady(cfg: Config, s: State, k: nat, source: Uuid)
    requires Inv(cfg, s) && SteadyState(s, source) && k in s.risk
    ensures SteadyState(LoadStep(s, k), source)
  {
    hide TablesOk, PaymentsOk, CacheOk, DecisionsOk, Receives, WorkersOk, ConsumersOk, SteadyState, ParsePayment;
    if LoadStep(s, k) != s {
      CacheKeyed(s.redis, s.db.outbox);
      EnterSteady(s, LoadStep(s, k), k, source);
    }
  }

  lemma ScoreStepSteady(cfg: Config, s: State, k: nat, m: Model, source: Uuid)
    requires SteadyState(s, source) && k in s.risk
    ensures SteadyState(ScoreStep(cfg, s, k, m), source)
  {
    hide SteadyState, Decision, ValidModel, LabelOk, Agreed;
    if ScoreStep(cfg, s, k, m) != s { EnterSteady(s, ScoreStep(cfg, s, k, m), k, source); }
  }

  lemma ObserveStepSteady(cfg: Config, s: State, k: nat, now: int, source: Uuid)
    requires SteadyState(s, source) && k in s.risk
    ensures SteadyState(ObserveStep(cfg, s, k, now), source)
  {
    hide RecordsSteady, ReceiptsSteady, Agreed, ZCount, ZRemRangeBelow, Devices, Z, Observation;
  }

  lemma RiskStepSteady(cfg: Config, s: State, k: nat, m: RiskMove, source: Uuid)
    requires Inv(cfg, s) && SteadyState(s, source)
    ensures SteadyState(RiskStep(cfg, s, k, m), source)
  {
    hide Inv, SteadyState, LoadStep, ObserveStep, ScoreStep, SaveStep, PublishStep, QuarantineStep, CommitStep;
    if k in s.risk && TouchesDecisions(m) {
      match m
      case Load => LoadStepSteady(cfg, s, k, source);
      case Observing(now) => ObserveStepSteady(cfg, s, k, now, source);
      case Score(model) => ScoreStepSteady(cfg, s, k, model, source);
      case Save => SaveStepSteady(cfg, s, k, source);
      case Publish(target, lands, acked) => PublishStepSteady(cfg, s, k, target, lands, acked, source);
    } else {
      QuietRiskSteady(cfg, s, k, m, source);
    }
  }

  lemma QuietRiskSteady(cfg: Config, s: State, k: nat, m: RiskMove, source: Uuid)
    requires SteadyState(s, source) && (k !in s.risk || !TouchesDecisions(m))
    ensures SteadyState(RiskStep(cfg, s, k, m), source)
  {
    hide RiskStep, RecordsSteady, ReceiptsSteady, Agreed;
    QuietRisk(cfg, s, k, m);
  }

  // ---------------------------------------------------------------- the consumer accepts what is agreed

  lemma SentParses(cfg: Config, s: State, c: Coord, source: Uuid)
    requires ValidConfig(cfg) && Inv(cfg, s) && SteadyState(s, source) && c in s.sent
    requires c in s.dec.records && Clean(s.dec.records[c], source)
    ensures ParseEvent(s.dec.records[c]) == Some(s.dec.records[c].event) && ValidSource(c)
    ensures var e := s.dec.records[c].event;
            Agreed(s.redis.decisions, e) && !Clashes(s.db.decisions, e) && Made(s.db.outbox, e)
  {
    hide Inv, ValidConfig, Made, ContractOk, ValidSource, Clashes, WorkersSteady, ReceiptsSteady;
    SentCoordinate(cfg, s, c);
    assert Agreed(s.redis.decisions, s.dec.records[c].event);
    NoClashes(s, s.dec.records[c].event);
  }

  lemma ApplyReceipted(db: Db, e: Event, r: Record)
    requires ValidSource(r.at) && r.at in db.receipts && db.receipts[r.at].digest == Digest(r.value) &&
        !db.receipts[r.at].disposition.Rejected?
    ensures ApplyTx(db, e, r) == (db, Accepted(false))
  {
    hide ValidSource, RoomFor, SourceTaken;
  }

  lemma ReceiptedOnce(cfg: Config, s: State, c: Coord, source: Uuid)
    requires Inv(cfg, s) && SteadyState(s, source) && c in s.sent && c in s.db.receipts
    requires c in s.dec.records && Clean(s.dec.records[c], source)
    ensures s.db.receipts[c].digest == Digest(s.dec.records[c]) && !s.db.receipts[c].disposition.Rejected?
  {
    hide TablesOk, PaymentsOk, CacheOk, DecisionsOk, WorkersOk, ConsumersOk, WorkersSteady, RecordsSteady, Clean;
  }

  /** The record's receipt is not REJECTED, and Apply accepts the record, for the first time or again. */
  ghost predicate Welcome(s: State, c: Coord) {
    && c in s.dec.records && ParseEvent(s.dec.records[c]).Some?
    && (c in s.db.receipts ==> !s.db.receipts[c].disposition.Rejected?)
    && var (n, result) := ApplyTx(s.db, ParseEvent(s.dec.records[c]).value, Record(c, s.dec.records[c]));
       result.Accepted? && c in n.receipts && !n.receipts[c].disposition.Rejected?
  }

  lemma AgreedIsWelcome(cfg: Config, s: State, c: Coord, source: Uuid)
    requires ValidConfig(cfg) && Inv(cfg, s) && SteadyState(s, source) && c in s.sent
    requires c in s.dec.records && Clean(s.dec.records[c], source)
    ensures Welcome(s, c) && Agreed(s.redis.decisions, s.dec.records[c].event)
  {
    hide ParseEvent, ValidConfig, SteadyState, Inv, Made, ValidSource, Clashes, Agreed, ApplyTx, ContractOk;
    SentParses(cfg, s, c, source);
    var e, r := s.dec.records[c].event, Record(c, s.dec.records[c]);
    if c in s.db.receipts {
      ReceiptedOnce(cfg, s, c, source);
      ApplyReceipted(s.db, e, r);
    } else {
      InvTables(cfg, s);
      hide TablesOk;
      ApplyMade(s.db, s.serial, e, r);
      AcceptedReceiptWritten(s.db, e, r);
    }
  }

  // ---------------------------------------------------------------- consumer steps

  /** Receipts and recorded decisions after a transaction on the record at `c`. */
  lemma TransactionSteady(s: State, k: nat, db: Db, e: Option<Event>, c: Coord, phase: ConsumerPhase, source: Uuid)
    requires SteadyState(s, source) && k in s.consumers
    requires c == At(s.dec.name, s.consumers[k].partition, s.consumers[k].position)
    requires db.receipts == s.db.receipts || (c in db.receipts && db.receipts == s.db.receipts[c := db.receipts[c]])
    requires c in s.sent && c in s.dec.records && Clean(s.dec.records[c], source) ==>
               !phase.Refusing? && (c in db.receipts ==> !db.receipts[c].disposition.Rejected?)
    requires db.decisions == s.db.decisions ||
        (e.Some? && db.decisions == s.db.decisions[e.value.payload.decisionId := e.value])
    requires e.Some? && e.value.payload.sourceEventId == source ==> Agreed(s.redis.decisions, e.value)
    ensures SteadyState(Turn(s, k, phase).(db := db), source)
  {
    hide WorkersSteady, ContractOk, Agreed, Clean;
  }

  lemma ReadStepSteady(s: State, k: nat, source: Uuid)
    requires SteadyState(s, source) && k in s.consumers
    ensures SteadyState(ReadStep(s, k), source)
  {
    hide SteadyState, ContractOk, ValidSource, ExistingReceipt;
    var n := ReadStep(s, k);
    var c := At(s.dec.name, s.consumers[k].partition, s.consumers[k].position);
    if n != s {
      assert c in s.sent && c in s.db.receipts && Clean(s.dec.records[c], source) ==>
          !s.db.receipts[c].disposition.Rejected? by {
        ReceiptClean(s, c, source);
      }
      TransactionSteady(s, k, s.db, None, c, n.consumers[k].phase, source);
    }
  }

  lemma ReceiptClean(s: State, c: Coord, source: Uuid)
    requires SteadyState(s, source)
    ensures c in s.sent && c in s.db.receipts && c in s.dec.records && Clean(s.dec.records[c], source) ==>
              !s.db.receipts[c].disposition.Rejected?
  {
    hide WorkersSteady, RecordsSteady, Clean;
  }

  lemma ParsedAgrees(cfg: Config, s: State, c: Coord, source: Uuid)
    requires Inv(cfg, s) && SteadyState(s, source) && c in s.dec.records && ParseEvent(s.dec.records[c]).Some?
    ensures var e := ParseEvent(s.dec.records[c]).value;
            c in s.sent && (e.payload.sourceEventId == source ==> Agreed(s.redis.decisions, e))
  {
    hide TablesOk, PaymentsOk, CacheOk, Receives, WorkersOk, ConsumersOk, ContractOk, WorkersSteady;
    hide ReceiptsSteady, Agreed;
    ParsedIsMade(s, c);
  }

  lemma ApplyStepSteady(cfg: Config, s: State, k: nat, acked: bool, said: StoreError, source: Uuid)
    requires ValidConfig(cfg) && Inv(cfg, s) && SteadyState(s, source) && k in s.consumers
    ensures SteadyState(ApplyStep(s, k, acked, said), source)
  {
    hide Inv, SteadyState, ParseEvent, ApplyTx, ValidConfig, Agreed, Clean, I.AnswerFits, DecisionAudit;
    var w := s.consumers[k];
    var c := At(s.dec.name, w.partition, w.position);
    if w.phase.Applying? && c in s.dec.records && ParseEvent(s.dec.records[c]).Some? {
      var r := Record(c, s.dec.records[c]);
      var e := ParseEvent(r.value).value;
      ParsedAgrees(cfg, s, c, source);
      if Clean(r.value, source) { AgreedIsWelcome(cfg, s, c, source); }
      ApplyGrows(s.db, e, r);
      TransactionSteady(s, k, ApplyTx(s.db, e, r).0, Some(e), c, ApplyStep(s, k, acked, said).consumers[k].phase,
          source);
    }
  }

  lemma RefusingIsOther(s: State, k: nat, source: Uuid)
    requires SteadyState(s, source) && k in s.consumers && s.consumers[k].phase.Refusing?
    ensures var c := At(s.dec.name, s.consumers[k].partition, s.consumers[k].position);
            !(c in s.sent && c in s.dec.records && Clean(s.dec.records[c], source))
  {
    hide WorkersSteady, RecordsSteady, Clean;
  }

  lemma RejectStepSteady(s: State, k: nat, acked: bool, source: Uuid)
    requires SteadyState(s, source) && k in s.consumers
    ensures SteadyState(RejectStep(s, k, acked), source)
  {
    hide SteadyState, RejectTx, Clean;
    var w := s.consumers[k];
    var c := At(s.dec.name, w.partition, w.position);
    if w.phase.Refusing? && c in s.dec.records {
      var r := Record(c, s.dec.records[c]);
      RefusingIsOther(s, k, source);
      RejectGrows(s.db, r, w.phase.code);
      TransactionSteady(s, k, RejectTx(s.db, r, w.phase.code).0, None, c, RejectStep(s, k, acked).consumers[k].phase,
          source);
    }
  }

  lemma QuietConsumerSteady(s: State, k: nat, m: ConsumerMove, source: Uuid)
    requires SteadyState(s, source) && (k !in s.consumers || !(m.Read? || m.Apply? || m.Reject?))
    ensures SteadyState(ConsumerStep(s, k, m), source)
  {
    hide WorkersSteady, RecordsSteady, Committed, ReadStep, ApplyStep, RejectStep, Clean;
  }

  lemma ConsumerStepSteady(cfg: Config, s: State, k: nat, m: ConsumerMove, source: Uuid)
    requires ValidConfig(cfg) && Inv(cfg, s) && SteadyState(s, source)
    ensures SteadyState(ConsumerStep(s, k, m), source)
  {
    hide Inv, ValidConfig, SteadyState, ReadStep, ApplyStep, RejectStep, AdvanceStep;
    if k in s.consumers && m.Apply? { ApplyStepSteady(cfg, s, k, m.acked, m.said, source); }
    else if k in s.consumers && m.Reject? { RejectStepSteady(s, k, m.acked, source); }
    else if k in s.consumers && m.Read? { ReadStepSteady(s, k, source); }
    else { QuietConsumerSteady(s, k, m, source); }
  }

  // ---------------------------------------------------------------- the other moves

  /** A record that no worker wrote is none of the source event's. */
  lemma UnsentSteady(s: State, dec: Topic<Value>, c: Coord, source: Uuid)
    requires SteadyState(s, source) && dec.name == s.dec.name && c !in s.sent
    requires forall x | x in s.sent :: x in s.dec.records && x in dec.records && dec.records[x] == s.dec.records[x]
    ensures SteadyState(s.(dec := dec), source)
  {
    hide WorkersSteady, Agreed, Clean, Mine;
  }

  lemma SentRecorded(cfg: Config, s: State)
    requires Inv(cfg, s)
    ensures TopicOk(s.dec) && forall c | c in s.sent :: c in s.dec.records
  {
    hide TablesOk, PaymentsOk, CacheOk, WorkersOk, ConsumersOk, Receives, ParseEvent, SentOk, TopicOk;
    forall c | c in s.sent ensures c in s.dec.records {
      assert SentOk(s.dec.records, c, s.db.outbox);
      SentIsThere(s.dec.records, c, s.db.outbox);
    }
  }

  lemma NoiseSteady(cfg: Config, s: State, a: Move, source: Uuid)
    requires Inv(cfg, s) && SteadyState(s, source) && a.DecNoise?
    ensures SteadyState(Step(cfg, s, a), source)
  {
    hide Inv, SteadyState, ParseEvent, Append, Next, TopicOk;
    if Step(cfg, s, a) != s {
      SentRecorded(cfg, s);
      AppendGrows(s.dec, a.target, a.value);
      UnsentSteady(s, Append(s.dec, a.target, a.value), Next(s.dec, a.target), source);
    }
  }

  lemma OtherExpiry(s: State, a: Move, source: Uuid)
    requires SteadyState(s, source) && a.ExpireDecision? && a.source != source
    ensures SteadyState(ExpireStep(s, a), source)
  {
    hide ReceiptsSteady;
    forall d: Event | d.payload.sourceEventId == source && Agreed(s.redis.decisions, d)
      ensures Agreed(ExpireStep(s, a).redis.decisions, d)
    {
    }
    hide Agreed;
  }

  lemma StepSteady(cfg: Config, s: State, a: Move, source: Uuid)
    requires ValidConfig(cfg) && Inv(cfg, s) && SteadyState(s, source) && Steady(a, source)
    ensures SteadyState(Step(cfg, s, a), source)
  {
    hide ValidConfig, Inv, SteadyState, RiskStep, ConsumerStep, CreateStep, SendStep, MarkStep, MissStep, ResolveStep;
    hide ExpireStep, ParsePayment, ParseEvent;
    if a.Risk? {
      RiskStepSteady(cfg, s, a.k, a.move, source);
    } else if a.Consumer? {
      ConsumerStepSteady(cfg, s, a.k, a.step, source);
    } else if a.DecNoise? {
      NoiseSteady(cfg, s, a, source);
    } else if a.ExpireDecision? {
      OtherExpiry(s, a, source);
    } else {
      TablesKept(cfg, s, a);
      LeftSteady(s, Step(cfg, s, a), source);
    }
  }

  lemma LeftSteady(s: State, n: State, source: Uuid)
    requires SteadyState(s, source) && SameForDecisions(s, n)
    ensures SteadyState(n, source)
  {
    hide WorkersSteady, RecordsSteady, ReceiptsSteady;
  }

  lemma {:induction false} SteadyRun(cfg: Config, s: State, moves: seq<Move>, source: Uuid)
    requires ValidConfig(cfg) && Inv(cfg, s) && SteadyState(s, source)
    requires forall i | 0 <= i < |moves| :: Steady(moves[i], source)
    ensures SteadyState(Run(cfg, s, moves), source)
    decreases moves
  {
    hide ValidConfig, Inv, Step, Steady, SteadyState;
    if moves != [] {
      StepKeeps(cfg, s, moves[0]);
      StepSteady(cfg, s, moves[0], source);
      SteadyRun(cfg, Step(cfg, s, moves[0]), moves[1..], source);
    }
  }

  lemma InitSteady(cfg: Config, source: Uuid)
    ensures SteadyState(Init(cfg), source)
  {
    hide ContractOk, Agreed;
  }

  lemma ReachedSteady(cfg: Config, moves: seq<Move>, source: Uuid)
    requires ValidConfig(cfg) && forall i | 0 <= i < |moves| :: Steady(moves[i], source)
    ensures Inv(cfg, Run(cfg, Init(cfg), moves)) && SteadyState(Run(cfg, Init(cfg), moves), source)
  {
    hide *;
    InitSteady(cfg, source);
    InitInv(cfg);
    Reachable(cfg, Init(cfg), moves);
    SteadyRun(cfg, Init(cfg), moves, source);
  }

  // ---------------------------------------------------------------- what the source event's records come to

  /** The workers' record at `c` is a decision for the source event. */
  ghost predicate DecisionFor(s: State, c: Coord, source: Uuid) {
    c in s.sent && c in s.dec.records && Mine(s.dec.records[c], source)
  }

  /** Identical decisions: as long as the source event's own cached decision does not expire, all workers,
      crashes and model changes together write one decision for it, wide label or not. */
  lemma OneDecisionPerSource(cfg: Config, moves: seq<Move>, source: Uuid, c: Coord, x: Coord)
    requires ValidConfig(cfg) && forall i | 0 <= i < |moves| :: Steady(moves[i], source)
    ensures var s := Run(cfg, Init(cfg), moves);
            DecisionFor(s, c, source) && DecisionFor(s, x, source) ==> s.dec.records[c] == s.dec.records[x]
  {
    hide Run, Init, Inv, ValidConfig, Steady;
    ReachedSteady(cfg, moves, source);
    hide WorkersSteady, ReceiptsSteady;
  }

  lemma FitsIsClean(cfg: Config, s: State, c: Coord, source: Uuid)
    requires ValidConfig(cfg) && Inv(cfg, s) && DecisionFor(s, c, source)
    ensures LabelFits(s.dec.records[c].event) <==> Clean(s.dec.records[c], source)
  {
    hide Inv, ValidConfig, ValidSource, ContractOk, LabelFits;
    SentCoordinate(cfg, s, c);
  }

  /** Under the same condition no record for the source event ever ends REJECTED, and handling it, for the
      first time or again, succeeds, if and only if its version label fits the consumer's 255 bytes. */
  lemma NeverRejected(cfg: Config, moves: seq<Move>, source: Uuid, c: Coord)
    requires ValidConfig(cfg) && forall i | 0 <= i < |moves| :: Steady(moves[i], source)
    ensures var s := Run(cfg, Init(cfg), moves);
            DecisionFor(s, c, source) ==> (LabelFits(s.dec.records[c].event) <==> Welcome(s, c))
  {
    hide Run, Init, Inv, ValidConfig, Steady, SteadyState, LabelFits;
    ReachedSteady(cfg, moves, source);
    var s := Run(cfg, Init(cfg), moves);
    if DecisionFor(s, c, source) {
      FitsIsClean(cfg, s, c, source);
      if LabelFits(s.dec.records[c].event) { AgreedIsWelcome(cfg, s, c, source); } else { WideIsRefused(s, c, source); }
    }
  }

  lemma WideIsRefused(s: State, c: Coord, source: Uuid)
    requires c in s.dec.records && Mine(s.dec.records[c], source) && !Clean(s.dec.records[c], source)
    ensures !Welcome(s, c)
  {
    hide ContractOk, ApplyTx;
  }

  // ---------------------------------------------------------------- a payment does not stay undecided

  /** The event has a decision on the topic, and whichever of its fitting decision records lies below the
      committed decision offset has moved its payment out of PENDING_RISK. */
  ghost predicate Progressed(s: State, e: OutboxEvent) {
    && Written(s.dec.records, s.sent, e.id)
    && forall x | DecisionFor(s, x, e.id) && x.offset < Committed(s.decOffsets, x.partition)
                  && LabelFits(s.dec.records[x].event) ::
         e.aggregateId in s.db.payments && !s.db.payments[e.aggregateId].status.PendingRisk?
  }

  lemma ReceiptMovesPayment(db: Db, at: Coord)
    requires DbInv(db) && at in db.receipts && !db.receipts[at].disposition.Rejected?
    ensures db.receipts[at].digest.Json?
    ensures var p := db.receipts[at].digest.event.payload.paymentId;
            p in db.payments && !db.payments[p].status.PendingRisk?
  {
    hide Outboxed, DecisionsUnique, Queued, Audited;
    assert ReceiptOk(db.decisions, db.receipts[at]);
    hide Receipted;
  }

  lemma MovedBelow(cfg: Config, s: State, c: Coord, e: OutboxEvent, x: Coord)
    requires ValidConfig(cfg) && Inv(cfg, s) && SteadyState(s, e.id) && Holding(s.pay, c, e)
    requires DecisionFor(s, x, e.id) && LabelFits(s.dec.records[x].event)
    requires x.offset < Committed(s.decOffsets, x.partition)
    ensures e.aggregateId in s.db.payments && !s.db.payments[e.aggregateId].status.PendingRisk?
  {
    FitsIsClean(cfg, s, x, e.id);
    hide ValidConfig, TablesOk, PaymentsOk, CacheOk, DecisionsOk, WorkersOk, ConsumersOk, Receives, SteadyState;
    hide Holding, Committed, ValidSource, MadeFor, Clean, LabelFits;
    HoldingIsAnnounced(s, c, e);
    LostIn(cfg, s, x);
    SentCoordinate(cfg, s, x);
    ReceiptedOnce(cfg, s, x, e.id);
    TablesInv(s.db, s.serial);
    hide DbInv;
    ReceiptMovesPayment(s.db, x);
    PaymentOfDecision(s.db.outbox, s.dec.records[x].event, e);
  }

  lemma PaymentOfDecision(outbox: Outbox, d: Event, e: OutboxEvent)
    requires Made(outbox, d) && d.payload.sourceEventId == e.id && e.id in outbox && outbox[e.id].event == e
    ensures d.payload.paymentId == e.aggregateId
  {
  }

  lemma ProgressIn(cfg: Config, s: State, c: Coord, e: OutboxEvent)
    requires ValidConfig(cfg) && Inv(cfg, s) && SteadyState(s, e.id) && Holding(s.pay, c, e)
    requires c.offset < Committed(s.riskOffsets, c.partition)
    ensures Progressed(s, e)
  {
    LostIn(cfg, s, c);
    hide ParsePayment, ValidConfig, Inv, SteadyState, Written, Committed, DecisionFor, LabelFits;
    forall x | DecisionFor(s, x, e.id) && x.offset < Committed(s.decOffsets, x.partition) &&
        LabelFits(s.dec.records[x].event)
      ensures e.aggregateId in s.db.payments && !s.db.payments[e.aggregateId].status.PendingRisk?
    {
      MovedBelow(cfg, s, c, e, x);
    }
  }

  /** Once an event is below the committed risk offset and its decision below the committed decision
      offset, its payment has left PENDING_RISK, whatever crashed or was redelivered on the way. */
  lemma CommittedMeansDecided(cfg: Config, moves: seq<Move>, c: Coord, e: OutboxEvent)
    requires ValidConfig(cfg) && forall i | 0 <= i < |moves| :: Steady(moves[i], e.id)
    ensures var s := Run(cfg, Init(cfg), moves);
            Holding(s.pay, c, e) && c.offset < Committed(s.riskOffsets, c.partition) ==> Progressed(s, e)
  {
    hide *;
    ReachedSteady(cfg, moves, e.id);
    var s := Run(cfg, Init(cfg), moves);
    if Holding(s.pay, c, e) && c.offset < Committed(s.riskOffsets, c.partition) { ProgressIn(cfg, s, c, e); }
  }
}
