/** The features behind published decisions: as long as no feature or snapshot key expires, redeliveries,
    crashes and concurrent workers move the customer state once per source event, and every published
    decision carries the snapshot of its event's first observation. */
module PipelineFeatures {
  import opened Text
  import opened Domain
  import opened Validation
  import opened EventContract
  import opened Ledger
  import opened LedgerInvariant
  import opened Features
  import opened Scoring
  import opened Kafka
  import opened Pipeline
  import opened PipelineInvariant
  import opened PipelineSafety
  import Creation
  import Deliveries
  import OutboxStore

  /** No snapshot and no customer state expires; cached decisions may. */
  predicate Lasting(a: Move) { !a.ExpireSnapshot? && !a.ExpireCustomer? }

  function Bare(r: Redis): Redis { r.(decisions := map[]) }

  /** The observation is of an outbox event: its payment's customer, device, country and time, in
      milliseconds where the event counts microseconds. */
  ghost predicate Known(outbox: Outbox, o: Obs) {
    && o.eventId in outbox && outbox[o.eventId].event.payload.Created?
    && var e := outbox[o.eventId].event;
       && o.paymentId == e.aggregateId && o.at == e.occurredAt / 1000
       && o.customer == e.payload.request.customerId && o.device == e.payload.request.deviceId
       && o.country == e.payload.request.country
  }

  ghost predicate HistoryOk(history: seq<Obs>, outbox: Outbox) {
    forall i | 0 <= i < |history| :: Known(outbox, history[i])
  }

  /** The decision was computed from the stored snapshot of its source event. */
  ghost predicate Grounded(snapshots: map<Uuid, Snapshot>, d: Event) {
    d.payload.sourceEventId in snapshots && snapshots[d.payload.sourceEventId] == d.payload.features
  }

  ghost predicate PhaseGrounded(snapshots: map<Uuid, Snapshot>, phase: RiskPhase) {
    && (phase.Observed? ==> phase.e.id in snapshots && snapshots[phase.e.id] == phase.f)
    && (phase.Judged? || phase.Saved? ==> Grounded(snapshots, phase.d))
  }

  ghost predicate AllGrounded(redis: Redis, risk: map<nat, RiskSession>, records: map<Coord, Value>, sent: set<Coord>) {
    && (forall s | s in redis.decisions :: Grounded(redis.snapshots, redis.decisions[s]))
    && (forall k | k in risk :: PhaseGrounded(redis.snapshots, risk[k].phase))
    && (forall c | c in sent && c in records && records[c].Json? :: Grounded(redis.snapshots, records[c].event))
  }

  ghost predicate FeatureState(cfg: Config, s: State) {
    && HistoryOk(s.history, s.db.outbox) && Bare(s.redis) == After(cfg.window, s.history)
    && AllGrounded(s.redis, s.risk, s.dec.records, s.sent)
  }

  // ---------------------------------------------------------------- steps

  lemma ObserveBare(r: Redis, window: int, o: Obs)
    ensures Bare(Observe(r, window, o).0) == Observe(Bare(r), window, o).0
    ensures var (n, f) := Observe(r, window, o);
            && o.eventId in n.snapshots && n.snapshots[o.eventId] == f && n.decisions == r.decisions
            && forall s | s in r.snapshots :: s in n.snapshots && n.snapshots[s] == r.snapshots[s]
  {
    hide ZCount, ZRemRangeBelow;
  }

  lemma ObserveStepFeatures(cfg: Config, s: State, k: nat, now: int)
    requires Inv(cfg, s) && FeatureState(cfg, s) && k in s.risk
    ensures FeatureState(cfg, ObserveStep(cfg, s, k, now))
  {
    hide TablesOk, PaymentsOk, CacheOk, DecisionsOk, Receives, WorkersOk, ConsumersOk, Observe, After, Source;
    hide Holding, HistoryOk, AllGrounded;
    var w := s.risk[k];
    var n := ObserveStep(cfg, s, k, now);
    if n != s {
      var o := Observation(w.phase.e, now);
      WorkerAt(s, k);
      HoldingIsAnnounced(s, At(s.pay.name, w.partition, w.position), w.phase.e);
      ParsedSource(s, At(s.pay.name, w.partition, w.position), w.phase.e);
      hide Inv;
      ObserveBare(s.redis, cfg.window, o);
      HistoryGrows(cfg.window, s.history, o, s.db.outbox);
      ObservedGrounded(s, n, k);
    }
  }

  lemma ParsedSource(s: State, c: Coord, e: OutboxEvent)
    requires Holding(s.pay, c, e)
    ensures e.payload.Created? && e.payload.paymentId == e.aggregateId
  {
    hide ValidRequest, Strip;
  }

  lemma HistoryGrows(window: nat, history: seq<Obs>, o: Obs, outbox: Outbox)
    requires HistoryOk(history, outbox) && Known(outbox, o)
    ensures HistoryOk(history + [o], outbox) &&
        After(window, history + [o]) == Observe(After(window, history), window, o).0
  {
    assert (history + [o])[..|history|] == history;
    hide Observe, Known;
  }

  lemma ObservedGrounded(s: State, n: State, k: nat)
    requires AllGrounded(s.redis, s.risk, s.dec.records, s.sent) && k in s.risk && k in n.risk
    requires n.dec == s.dec && n.sent == s.sent && n.risk == s.risk[k := n.risk[k]] &&
        n.redis.decisions == s.redis.decisions
    requires forall x | x in s.redis.snapshots :: x in n.redis.snapshots && n.redis.snapshots[x] == s.redis.snapshots[x]
    requires PhaseGrounded(n.redis.snapshots, n.risk[k].phase)
    ensures AllGrounded(n.redis, n.risk, n.dec.records, n.sent)
  {
    forall d | Grounded(s.redis.snapshots, d) ensures Grounded(n.redis.snapshots, d) { }
    hide Grounded;
  }

  lemma EnterGrounded(cfg: Config, s: State, n: State, k: nat)
    requires FeatureState(cfg, s) && k in n.risk && n == s.(risk := n.risk) && n.risk == s.risk[k := n.risk[k]]
    requires PhaseGrounded(s.redis.snapshots, n.risk[k].phase)
    ensures FeatureState(cfg, n)
  {
    hide PhaseGrounded, HistoryOk, After;
  }

  lemma PhaseAt(cfg: Config, s: State, k: nat)
    requires FeatureState(cfg, s) && k in s.risk
    ensures PhaseGrounded(s.redis.snapshots, s.risk[k].phase)
  {
    hide HistoryOk, After, PhaseGrounded;
  }

  lemma ScoreStepFeatures(cfg: Config, s: State, k: nat, m: Model)
    requires Inv(cfg, s) && FeatureState(cfg, s) && k in s.risk
    ensures FeatureState(cfg, ScoreStep(cfg, s, k, m))
  {
    hide Inv, FeatureState, Decision, ValidModel, LabelOk;
    var w := s.risk[k];
    var n := ScoreStep(cfg, s, k, m);
    if n != s {
      PhaseAt(cfg, s, k);
      DecisionFeatures(cfg.settings, w.phase.e, w.phase.f, m);
      EnterGrounded(cfg, s, n, k);
    }
  }

  lemma DecisionFeatures(c: Settings, e: OutboxEvent, f: Snapshot, m: Model)
    requires e.payload.Created?
    ensures Decision(c, e, f, m).payload.features == f && Decision(c, e, f, m).payload.sourceEventId == e.id
  {
    hide Rules, AllReasons, Round6, TrimSpace, Combined;
  }

  lemma LoadStepFeatures(cfg: Config, s: State, k: nat)
    requires FeatureState(cfg, s) && k in s.risk
    ensures FeatureState(cfg, LoadStep(s, k))
  {
    hide FeatureState, ParsePayment;
    var n := LoadStep(s, k);
    if n != s {
      assert PhaseGrounded(s.redis.snapshots, n.risk[k].phase) by { CacheGrounded(cfg, s); }
      EnterGrounded(cfg, s, n, k);
    }
  }

  lemma CacheGrounded(cfg: Config, s: State)
    requires FeatureState(cfg, s)
    ensures forall x | x in s.redis.decisions :: Grounded(s.redis.snapshots, s.redis.decisions[x])
  {
    hide HistoryOk, After, Grounded, PhaseGrounded;
  }

  lemma SaveStepFeatures(cfg: Config, s: State, k: nat)
    requires FeatureState(cfg, s) && k in s.risk
    ensures FeatureState(cfg, SaveStep(s, k))
  {
    hide HistoryOk, After, Grounded;
    PhaseAt(cfg, s, k);
  }

  lemma PublishStepFeatures(cfg: Config, s: State, k: nat, target: int, lands: bool, acked: bool)
    requires Inv(cfg, s) && FeatureState(cfg, s) && k in s.risk
    ensures FeatureState(cfg, PublishStep(s, k, target, lands, acked))
  {
    hide HistoryOk, After, Grounded, Inv;
    PhaseAt(cfg, s, k);
  }

  lemma RiskStepFeatures(cfg: Config, s: State, k: nat, m: RiskMove)
    requires Inv(cfg, s) && FeatureState(cfg, s)
    ensures FeatureState(cfg, RiskStep(cfg, s, k, m))
  {
    hide Inv, FeatureState, LoadStep, ObserveStep, ScoreStep, SaveStep, PublishStep, QuarantineStep, CommitStep;
    if k in s.risk && TouchesDecisions(m) {
      match m
      case Load => LoadStepFeatures(cfg, s, k);
      case Observing(now) => ObserveStepFeatures(cfg, s, k, now);
      case Score(model) => ScoreStepFeatures(cfg, s, k, model);
      case Save => SaveStepFeatures(cfg, s, k);
      case Publish(target, lands, acked) => PublishStepFeatures(cfg, s, k, target, lands, acked);
    } else {
      QuietRiskFeatures(cfg, s, k, m);
    }
  }

  lemma QuietRiskFeatures(cfg: Config, s: State, k: nat, m: RiskMove)
    requires FeatureState(cfg, s) && (k !in s.risk || !TouchesDecisions(m))
    ensures FeatureState(cfg, RiskStep(cfg, s, k, m))
  {
    hide HistoryOk, After, Grounded, RiskStep;
    QuietRisk(cfg, s, k, m);
  }

  // ---------------------------------------------------------------- the other moves

  /** Nothing the features depend on has changed; outbox events and decision records may have been added. */
  ghost predicate FeaturesApart(s: State, n: State) {
    && n.redis == s.redis && n.risk == s.risk && n.history == s.history && n.sent == s.sent
    && SameEvents(s.db.outbox, n.db.outbox)
    && forall c | c in s.sent && c in n.dec.records :: c in s.dec.records && n.dec.records[c] == s.dec.records[c]
  }

  lemma ApartKeeps(cfg: Config, s: State, n: State)
    requires FeatureState(cfg, s) && FeaturesApart(s, n)
    ensures FeatureState(cfg, n)
  {
    hide After, Bare, Grounded, PhaseGrounded;
    forall i | 0 <= i < |n.history|
      ensures Known(n.db.outbox, n.history[i])
    {
      assert Known(s.db.outbox, s.history[i]);
    }
  }

  lemma ApiApart(s: State, a: Move)
    requires a.Create? || a.Resolve?
    ensures a.Create? ==> FeaturesApart(s, CreateStep(s, a))
    ensures a.Resolve? ==> FeaturesApart(s, ResolveStep(s, a))
  {
    hide Creation.KeyOf, Creation.Candidate, Creation.EventFor, ValidRequest, Normalize, Deliveries.Perform;
    hide ResolveTx, SameEvents;
    if a.Create? && CreateStep(s, a) != s {
      var x := Creation.Candidate(Creation.KeyOf(a.key).key, Normalize(a.request), V4(s.serial), a.now);
      CreatingAdds(s.db, x, Creation.EventFor(x, V4(s.serial + 1), a.traceId), a.now);
    }
    if a.Resolve? {
      ResolvingAdds(s.db, ResolveCommand(a.paymentId, a.action, a.expectedVersion, a.reason, a.reviewer,
          V4(s.serial), a.resolvedAt));
    }
    SameEventsHere(s.db.outbox);
  }

  lemma SameEventsHere(outbox: Outbox)
    ensures SameEvents(outbox, outbox)
  {
  }

  lemma CreatingAdds(db: Db, x: Payment, event: OutboxEvent, now: int)
    ensures SameEvents(db.outbox, Deliveries.Perform(db, Deliveries.Creating(x, event, now)).outbox)
  {
    hide KeyTaken;
  }

  lemma ResolvingAdds(db: Db, c: ResolveCommand)
    ensures ResolveTx(db, c).0.outbox == db.outbox
  {
    hide AuditTaken;
  }

  lemma PublisherApart(s: State, a: Move)
    ensures a.Send? ==> FeaturesApart(s, SendStep(s, a))
    ensures a.Mark? ==> FeaturesApart(s, MarkStep(s, a))
    ensures a.Miss? ==> FeaturesApart(s, MissStep(s, a))
  {
    hide OutboxStore.Publishable, Append;
  }

  lemma NoiseApart(cfg: Config, s: State, a: Move)
    requires Inv(cfg, s) && (a.PayNoise? || a.DecNoise?)
    ensures FeaturesApart(s, Step(cfg, s, a))
  {
    hide TablesOk, PaymentsOk, CacheOk, WorkersOk, ConsumersOk, Receives, SentOk, ParseEvent, ParsePayment, SameEvents;
    SameEventsHere(s.db.outbox);
    if a.DecNoise? && a.target >= 0 {
      AppendGrows(s.dec, a.target, a.value);
      forall c | c in s.sent
        ensures c in s.dec.records
      {
        assert SentOk(s.dec.records, c, s.db.outbox); SentIsThere(s.dec.records, c, s.db.outbox);
      }
      hide Append, Next, Grows, TopicOk, Inv, DecisionsOk;
    } else {
      hide Append;
    }
  }

  lemma ApplyApart(s: State, k: nat, acked: bool, said: StoreError)
    requires k in s.consumers
    ensures FeaturesApart(s, ApplyStep(s, k, acked, said))
  {
    hide ApplyTx, ParseEvent, AfterApply, SameEvents;
    SameEventsHere(s.db.outbox);
    var c := At(s.dec.name, s.consumers[k].partition, s.consumers[k].position);
    if c in s.dec.records && ParseEvent(s.dec.records[c]).Some? {
      ApplyGrows(s.db, ParseEvent(s.dec.records[c]).value, Record(c, s.dec.records[c]));
      hide DecisionJoins;
    }
  }

  lemma RejectApart(s: State, k: nat, acked: bool)
    requires k in s.consumers
    ensures FeaturesApart(s, RejectStep(s, k, acked))
  {
    hide RejectTx, SameEvents;
    SameEventsHere(s.db.outbox);
    var c := At(s.dec.name, s.consumers[k].partition, s.consumers[k].position);
    if c in s.dec.records && s.consumers[k].phase.Refusing? {
      RejectGrows(s.db, Record(c, s.dec.records[c]), s.consumers[k].phase.code);
    }
  }

  /** The other moves of a consumer change sessions and offsets only. */
  lemma SessionsApart(s: State, k: nat, m: ConsumerMove)
    requires k !in s.consumers || !(m.Apply? || m.Reject?)
    ensures var n := ConsumerStep(s, k, m); n == s.(consumers := n.consumers, decOffsets := n.decOffsets)
  {
    hide ApplyStep, RejectStep, ParseEvent, Committed, ExistingReceipt, ValidSource;
  }

  lemma ConsumerApart(s: State, k: nat, m: ConsumerMove)
    ensures FeaturesApart(s, ConsumerStep(s, k, m))
  {
    if k in s.consumers && m.Apply? {
      hide FeaturesApart, ApplyStep;
      ApplyApart(s, k, m.acked, m.said);
    } else if k in s.consumers && m.Reject? {
      hide FeaturesApart, RejectStep;
      RejectApart(s, k, m.acked);
    } else {
      hide ConsumerStep, SameEvents;
      SessionsApart(s, k, m);
      SameEventsHere(s.db.outbox);
    }
  }

  lemma ExpireKeeps(cfg: Config, s: State, a: Move)
    requires FeatureState(cfg, s) && a.ExpireDecision?
    ensures FeatureState(cfg, ExpireStep(s, a))
  {
    hide HistoryOk, After, Grounded, PhaseGrounded;
  }

  lemma StepFeatures(cfg: Config, s: State, a: Move)
    requires Inv(cfg, s) && FeatureState(cfg, s) && Lasting(a)
    ensures FeatureState(cfg, Step(cfg, s, a))
  {
    hide Inv, FeatureState, FeaturesApart, CreateStep, SendStep, MarkStep, MissStep, RiskStep, ConsumerStep;
    hide ResolveStep, ExpireStep, ParsePayment, ParseEvent;
    if a.Risk? {
      RiskStepFeatures(cfg, s, a.k, a.move);
    } else if a.ExpireDecision? {
      ExpireKeeps(cfg, s, a);
    } else {
      if a.Create? || a.Resolve? { ApiApart(s, a); }
      else if a.Consumer? { ConsumerApart(s, a.k, a.step); }
      else if a.PayNoise? || a.DecNoise? { NoiseApart(cfg, s, a); }
      else { PublisherApart(s, a); }
      ApartKeeps(cfg, s, Step(cfg, s, a));
    }
  }

  lemma {:induction false} RunFeatures(cfg: Config, s: State, moves: seq<Move>)
    requires ValidConfig(cfg) && Inv(cfg, s) && FeatureState(cfg, s) && forall i | 0 <= i < |moves| :: Lasting(moves[i])
    ensures FeatureState(cfg, Run(cfg, s, moves))
    decreases moves
  {
    hide ValidConfig, Inv, Step, FeatureState, Lasting;
    if moves != [] {
      StepKeeps(cfg, s, moves[0]);
      StepFeatures(cfg, s, moves[0]);
      RunFeatures(cfg, Step(cfg, s, moves[0]), moves[1..]);
    }
  }

  lemma InitFeatures(cfg: Config)
    ensures FeatureState(cfg, Init(cfg))
  {
    hide Grounded, Known, Observe;
  }

  lemma ReachedFeatures(cfg: Config, moves: seq<Move>)
    requires ValidConfig(cfg) && forall i | 0 <= i < |moves| :: Lasting(moves[i])
    ensures Inv(cfg, Run(cfg, Init(cfg), moves)) && FeatureState(cfg, Run(cfg, Init(cfg), moves))
  {
    hide *;
    InitFeatures(cfg);
    InitInv(cfg);
    Reachable(cfg, Init(cfg), moves);
    RunFeatures(cfg, Init(cfg), moves);
  }

  // ---------------------------------------------------------------- what was published

  /** The customer state is the one that observing each source event once, in the order of the first calls,
      leaves: redeliveries and rival workers add nothing. */
  lemma StateMovedOncePerEvent(cfg: Config, moves: seq<Move>)
    requires ValidConfig(cfg) && forall i | 0 <= i < |moves| :: Lasting(moves[i])
    ensures var s := Run(cfg, Init(cfg), moves);
            Bare(s.redis) == After(cfg.window, FirstCalls(s.history)) && DistinctEvents(FirstCalls(s.history))
  {
    hide Run, Init, After, FirstCalls, ValidConfig, Lasting, Bare, Inv, HistoryOk, AllGrounded;
    ReachedFeatures(cfg, moves);
    RepeatsChangeNothing(cfg.window, Run(cfg, Init(cfg), moves).history);
  }

  lemma FirstCallsPayments(cfg: Config, s: State)
    requires Inv(cfg, s) && HistoryOk(s.history, s.db.outbox)
    ensures DistinctEvents(FirstCalls(s.history)) && DistinctPayments(FirstCalls(s.history))
  {
    hide FirstCalls, After, Inv, TablesOk;
    RepeatsChangeNothing(cfg.window, s.history);
    InvTables(cfg, s);
    var fs := FirstCalls(s.history);
    forall i | 0 <= i < |fs| ensures Known(s.db.outbox, fs[i]) { assert fs[i] in s.history; }
    hide HistoryOk;
    forall i, j | 0 <= i < j < |fs|
      ensures fs[i].paymentId != fs[j].paymentId
    {
      KnownApart(s.db, s.serial, fs[i], fs[j]);
    }
  }

  lemma KnownApart(db: Db, serial: nat, a: Obs, b: Obs)
    requires TablesOk(db, serial) && Known(db.outbox, a) && Known(db.outbox, b) && a.eventId != b.eventId
    ensures a.paymentId != b.paymentId
  {
    if a.paymentId == b.paymentId {
      hide TablesOk;
      OutboxOnePerPayment(db, serial, a.eventId, b.eventId);
      assert false;
    }
  }

  /** The snapshot inside a published decision is what the first call of its source event returned. */
  ghost predicate FromFirstCall(window: nat, fs: seq<Obs>, d: Event, k: nat) {
    k < |fs| && fs[k].eventId == d.payload.sourceEventId && d.payload.features == Returned(window, fs, k)
  }

  lemma StoredIsReturned(window: nat, fs: seq<Obs>, source: Uuid) returns (k: nat)
    requires DistinctEvents(fs) && source in After(window, fs).snapshots
    ensures k < |fs| && fs[k].eventId == source && After(window, fs).snapshots[source] == Returned(window, fs, k)
  {
    SnapshotsKept(window, fs);
    hide After, Returned;
    assert Occurs(fs, source);
    k :| 0 <= k < |fs| && fs[k].eventId == source;
    SnapshotIsReturned(window, fs, k);
  }

  lemma PublishedGrounded(cfg: Config, s: State, c: Coord)
    requires ValidConfig(cfg) && Inv(cfg, s) && FeatureState(cfg, s) && c in s.sent
    ensures c in s.dec.records && s.dec.records[c].Json? &&
        Grounded(After(cfg.window, s.history).snapshots, s.dec.records[c].event)
  {
    hide Inv, ValidConfig, After, HistoryOk, PhaseGrounded, Grounded;
    SentCoordinate(cfg, s, c);
    hide Made;
    assert Bare(s.redis).snapshots == s.redis.snapshots;
  }

  /** The velocity in every published decision: at least 1, never above the number of payments scored for
      the customer in the window ending at the event, and equal to it exactly when none of those was
      evicted by an intervening later event. */
  lemma PublishedVelocity(cfg: Config, moves: seq<Move>, c: Coord)
    requires ValidConfig(cfg) && forall i | 0 <= i < |moves| :: Lasting(moves[i])
    ensures var s := Run(cfg, Init(cfg), moves);
            c in s.sent ==>
              && c in s.dec.records && s.dec.records[c].Json?
              && exists k: nat :: FromFirstCall(cfg.window, FirstCalls(s.history), s.dec.records[c].event, k)
                   && VelocityFaithful(cfg.window, FirstCalls(s.history), k,
                       s.dec.records[c].event.payload.features.velocity)
  {
    hide *;
    var s := Run(cfg, Init(cfg), moves);
    ReachedFeatures(cfg, moves);
    if c in s.sent { PublishedIn(cfg, s, c); }
  }

  ghost predicate VelocityFaithful(window: nat, fs: seq<Obs>, k: nat, velocity: int) {
    && k < |fs| && 1 <= velocity <= |InWindow(window, fs, k)|
    && (velocity == |InWindow(window, fs, k)| <==> forall i | i in InWindow(window, fs, k) ::
        !Evicted(window, fs, k + 1, i))
  }

  lemma PublishedIn(cfg: Config, s: State, c: Coord)
    requires ValidConfig(cfg) && Inv(cfg, s) && FeatureState(cfg, s) && c in s.sent
    ensures c in s.dec.records && s.dec.records[c].Json?
    ensures exists k: nat :: FromFirstCall(cfg.window, FirstCalls(s.history), s.dec.records[c].event, k)
              && VelocityFaithful(cfg.window, FirstCalls(s.history), k,
                  s.dec.records[c].event.payload.features.velocity)
  {
    hide Inv, ValidConfig, AllGrounded, After, FirstCalls, HistoryOk, DistinctEvents, DistinctPayments, Returned;
    hide InWindow, Evicted, Bare;
    PublishedGrounded(cfg, s, c);
    FirstCallsPayments(cfg, s);
    RepeatsChangeNothing(cfg.window, s.history);
    var fs, d := FirstCalls(s.history), s.dec.records[c].event;
    var k := StoredIsReturned(cfg.window, fs, d.payload.sourceEventId);
    VelocityAgainstHistory(cfg.window, fs, k);
    assert FromFirstCall(cfg.window, fs, d, k) && VelocityFaithful(cfg.window, fs, k, d.payload.features.velocity);
  }

  // ---------------------------------------------------------------- devices and countries

  /** The request of the payment an observation is of. */
  ghost function RequestOf(outbox: Outbox, o: Obs): Request
    requires Known(outbox, o)
  { outbox[o.eventId].event.payload.request }

  /** What the k-th first call should say about device and country, told from the requests of the payments
      scored before. */
  ghost predicate DeviceFaithful(outbox: Outbox, fs: seq<Obs>, k: nat, f: Snapshot) {
    && k < |fs| && (forall i | 0 <= i < |fs| :: Known(outbox, fs[i]))
    && var mine := RequestOf(outbox, fs[k]);
       && (f.newDevice <==> forall i | 0 <= i < k && RequestOf(outbox, fs[i]).customerId == mine.customerId ::
                              RequestOf(outbox, fs[i]).deviceId != mine.deviceId)
       && (f.crossBorder <==> f.baselineCountry != mine.country)
       && exists i | 0 <= i <= k ::
            && RequestOf(outbox, fs[i]).customerId == mine.customerId
            && RequestOf(outbox, fs[i]).country == f.baselineCountry
            && forall j | 0 <= j < i :: RequestOf(outbox, fs[j]).customerId != mine.customerId
  }

  /** The first call of a customer among the first k + 1. */
  lemma FirstOfCustomer(os: seq<Obs>, k: nat) returns (first: nat)
    requires k < |os|
    ensures first <= k && FirstOf(os, os[k].customer, first)
  {
    first := 0;
    while os[first].customer != os[k].customer
      invariant first <= k && forall j | 0 <= j < first :: os[j].customer != os[k].customer
      decreases k - first
    {
      first := first + 1;
    }
  }

  lemma ReturnedFaithful(window: nat, outbox: Outbox, fs: seq<Obs>, k: nat)
    requires DistinctEvents(fs) && k < |fs| && forall i | 0 <= i < |fs| :: Known(outbox, fs[i])
    ensures DeviceFaithful(outbox, fs, k, Returned(window, fs, k))
  {
    var first := FirstOfCustomer(fs, k);
    DeviceAndCountry(window, fs, k, first);
    hide Returned, DistinctEvents;
    assert RequestOf(outbox, fs[first]).customerId == RequestOf(outbox, fs[k]).customerId;
  }

  /** The snapshot in every published decision: the device is new exactly when no payment of the customer scored
      before used it, and the baseline is the country of the customer's first payment. */
  lemma PublishedDevice(cfg: Config, moves: seq<Move>, c: Coord)
    requires ValidConfig(cfg) && forall i | 0 <= i < |moves| :: Lasting(moves[i])
    ensures var s := Run(cfg, Init(cfg), moves);
            c in s.sent ==>
              && c in s.dec.records && s.dec.records[c].Json?
              && exists k: nat :: FromFirstCall(cfg.window, FirstCalls(s.history), s.dec.records[c].event, k)
                   && DeviceFaithful(s.db.outbox, FirstCalls(s.history), k, s.dec.records[c].event.payload.features)
  {
    hide *;
    var s := Run(cfg, Init(cfg), moves);
    ReachedFeatures(cfg, moves);
    if c in s.sent { DeviceIn(cfg, s, c); }
  }

  lemma DeviceIn(cfg: Config, s: State, c: Coord)
    requires ValidConfig(cfg) && Inv(cfg, s) && FeatureState(cfg, s) && c in s.sent
    ensures c in s.dec.records && s.dec.records[c].Json?
    ensures exists k: nat :: FromFirstCall(cfg.window, FirstCalls(s.history), s.dec.records[c].event, k)
              && DeviceFaithful(s.db.outbox, FirstCalls(s.history), k, s.dec.records[c].event.payload.features)
  {
    hide Inv, ValidConfig, AllGrounded, After, FirstCalls, DistinctEvents, Returned, DeviceFaithful, Bare, Known;
    PublishedGrounded(cfg, s, c);
    RepeatsChangeNothing(cfg.window, s.history);
    var fs, d := FirstCalls(s.history), s.dec.records[c].event;
    assert DistinctEvents(fs) by { FirstCallsPayments(cfg, s); }
    forall i | 0 <= i < |fs| ensures Known(s.db.outbox, fs[i]) { assert fs[i] in s.history; }
    var k := StoredIsReturned(cfg.window, fs, d.payload.sourceEventId);
    ReturnedFaithful(cfg.window, s.db.outbox, fs, k);
    assert FromFirstCall(cfg.window, fs, d, k);
  }
}
