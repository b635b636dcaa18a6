/** The steps of the pipeline against the services: a process whose moves nobody interrupts and whose
    acknowledgements arrive does to the whole state what its service does to its own. */
module PipelineAlone {
  import opened Text
  import opened Domain
  import opened Validation
  import opened EventContract
  import opened Ledger
  import opened Features
  import opened Scoring
  import opened Kafka
  import opened Pipeline
  import Creation
  import Deliveries
  import OutboxStore

  lemma RunFirst(cfg: Config, s: State, m: Move, rest: seq<Move>)
    ensures Run(cfg, s, [m] + rest) == Run(cfg, Step(cfg, s, m), rest)
  {
    hide Step;
    assert ([m] + rest)[1..] == rest;
  }

  // ---------------------------------------------------------------- the decision consumer

  /** What the transaction on the record refuses with; without a refusal it does not matter. */
  function Refusal(db: Db, r: Record): StoreError {
    if ParseEvent(r.value).Some? && ApplyTx(db, ParseEvent(r.value).value, r).1.Refused?
    then ApplyTx(db, ParseEvent(r.value).value, r).1.error else BadSource
  }

  /** The tables after handling, and the session past its record if it may move on. */
  function HandledBy(s: State, k: nat, done: (Db, bool)): State
    requires k in s.consumers
  {
    var w := s.consumers[k];
    if !done.1 then s.(db := done.0)
    else s.(db := done.0, decOffsets := s.decOffsets[w.partition := w.position + 1],
            consumers := s.consumers[k := ConsumerSession(w.partition, w.position + 1, Polling)])
  }

  predicate AtRecord(s: State, k: nat, r: Record) {
    && k in s.consumers && s.consumers[k].phase == Polling
    && r.at == At(s.dec.name, s.consumers[k].partition, s.consumers[k].position)
    && r.at in s.dec.records && s.dec.records[r.at] == r.value
  }

  /** The session in another phase, with these tables. */
  function In(s: State, k: nat, phase: ConsumerPhase, db: Db): State
    requires k in s.consumers
  { Turn(s, k, phase).(db := db) }

  lemma StaysIn(s: State, k: nat)
    requires k in s.consumers
    ensures In(s, k, s.consumers[k].phase, s.db) == s
  {
    assert s.consumers[k := s.consumers[k]] == s.consumers;
  }

  lemma Reads(s: State, k: nat, r: Record)
    requires AtRecord(s, k, r) && ValidSource(r.at)
    ensures ReadStep(s, k) == In(s, k,
              if ParseEvent(r.value).None? then Refusing(InvalidEvent)
              else match ExistingReceipt(s.db, r)
                case Missing => Applying
                case Found(Rejected) => Polling
                case Found(_) => Handled
                case Different => Polling, s.db)
  {
    hide ParseEvent, ValidSource, ExistingReceipt;
    StaysIn(s, k);
  }

  lemma Applies(s: State, k: nat, r: Record, phase: ConsumerPhase)
    requires AtRecord(s, k, r)
    ensures var n := In(s, k, phase, s.db);
            ApplyStep(n, k, true, Refusal(s.db, r)) ==
              if !phase.Applying? || ParseEvent(r.value).None? then n
              else
                var (db, result) := ApplyTx(s.db, ParseEvent(r.value).value, r);
                In(s, k, if result.Accepted? then Handled
                         else match Deliveries.RejectionCodeFor(result.error)
                           case None => Polling
                           case Some(code) => Refusing(code), db)
  {
    hide ParseEvent, ApplyTx, Deliveries.RejectionCodeFor;
  }

  lemma Rejects(s: State, k: nat, r: Record, phase: ConsumerPhase, db: Db)
    requires AtRecord(s, k, r)
    ensures RejectStep(In(s, k, phase, db), k, true) ==
              if !phase.Refusing? then In(s, k, phase, db)
              else
                var (n, error) := RejectTx(db, r, phase.code);
                In(s, k, if error.None? then Handled else Polling, n)
  {
    hide RejectTx;
  }

  lemma Advances(s: State, k: nat, phase: ConsumerPhase, db: Db, lands: bool)
    requires k in s.consumers && s.consumers[k].phase == Polling
    requires phase == Handled || phase == Polling
    ensures AdvanceStep(In(s, k, phase, db), k, lands, true) == HandledBy(s, k, (db, phase == Handled))
  {
    StaysIn(s, k);
  }

  /** The tables and the phase after each move. */
  function AfterTransaction(db: Db, r: Record): (Db, ConsumerPhase) {
    if ParseEvent(r.value).None? then (db, Refusing(InvalidEvent))
    else
      var (n, result) := ApplyTx(db, ParseEvent(r.value).value, r);
      if result.Accepted? then (n, Handled)
      else match Deliveries.RejectionCodeFor(result.error)
        case None => (n, Polling)
        case Some(code) => (n, Refusing(code))
  }

  lemma ReadsAndApplies(s: State, k: nat, r: Record)
    requires AtRecord(s, k, r) && ValidSource(r.at)
    ensures k in ReadStep(s, k).consumers
    ensures var (db, phase) := AfterTransaction(s.db, r);
            ApplyStep(ReadStep(s, k), k, true, Refusal(s.db, r)) == In(s, k, phase, db)
  {
    Reads(s, k, r);
    Applies(s, k, r, ReadStep(s, k).consumers[k].phase);
    FoundDecides(s.db, r);
    hide ReadStep, ApplyStep, ParseEvent, ApplyTx, ValidSource, ExistingReceipt;
  }

  /** What the receipt lookup of a parsed record already decides. */
  lemma FoundDecides(db: Db, r: Record)
    requires ValidSource(r.at)
    ensures ParseEvent(r.value).Some? ==>
            var (n, result) := ApplyTx(db, ParseEvent(r.value).value, r);
            match ExistingReceipt(db, r)
            case Missing => true
            case Found(Rejected) => n == db && result == Refused(SourceConflict)
            case Found(_) => n == db && result.Accepted?
            case Different => n == db && result == Refused(SourceConflict)
  {
    hide ValidSource, ParseEvent, SourceTaken, RoomFor;
  }

  lemma HandlesAlone(db: Db, r: Record)
    ensures var (n, phase) := AfterTransaction(db, r);
            Deliveries.Handle(db, r) == if phase.Refusing? then (RejectTx(n, r, phase.code).0,
              RejectTx(n, r, phase.code).1.None?) else (n, phase == Handled)
  {
    hide ParseEvent, ApplyTx, RejectTx;
  }

  /** Read, Apply, Reject and Advance without interruption are one call of the worker's handle: the tables it
      leaves, and the session and its committed offset one further exactly when it succeeds. */
  lemma ConsumerAlone(cfg: Config, s: State, k: nat, r: Record, lands: bool)
    requires AtRecord(s, k, r) && ValidSource(r.at)
    ensures Run(cfg, s, [Consumer(k, Read), Consumer(k, Apply(true, Refusal(s.db, r))), Consumer(k, Reject(true)),
              Consumer(k, Advance(lands, true))]) == HandledBy(s, k, Deliveries.Handle(s.db, r))
  {
    hide *;
    var said := Refusal(s.db, r);
    var (db, phase) := AfterTransaction(s.db, r);
    ReadsAndApplies(s, k, r);
    Rejects(s, k, r, phase, db);
    HandlesAlone(s.db, r);
    InPolling(s, k, r);
    StaysPresent(s, k);
    FourMoves(cfg, s, k, said, lands);
    var next := if phase.Refusing? then RejectTx(db, r, phase.code).0 else db;
    var at := if phase.Refusing? then (if RejectTx(db, r, phase.code).1.None? then Handled else Polling) else phase;
    PhaseAfter(s.db, r);
    Advances(s, k, at, next, lands);
  }

  lemma PhaseAfter(db: Db, r: Record)
    ensures !AfterTransaction(db, r).1.Applying?
  {
    hide ParseEvent, ApplyTx;
  }

  lemma InPolling(s: State, k: nat, r: Record)
    requires AtRecord(s, k, r)
    ensures k in s.consumers && s.consumers[k].phase == Polling
  {
  }

  lemma StaysPresent(s: State, k: nat)
    requires k in s.consumers
    ensures forall phase, db :: k in In(s, k, phase, db).consumers
  {
  }

  lemma FourMoves(cfg: Config, s: State, k: nat, said: StoreError, lands: bool)
    requires k in s.consumers && k in ReadStep(s, k).consumers
    requires var a := ApplyStep(ReadStep(s, k), k, true, said);
             k in a.consumers && k in RejectStep(a, k, true).consumers
    ensures Run(cfg, s, [Consumer(k, Read), Consumer(k, Apply(true, said)), Consumer(k, Reject(true)),
              Consumer(k, Advance(lands, true))])
            == AdvanceStep(RejectStep(ApplyStep(ReadStep(s, k), k, true, said), k, true), k, lands, true)
  {
    hide ReadStep, ApplyStep, RejectStep, AdvanceStep, Run;
    var a, b, c, d := Consumer(k, Read), Consumer(k, Apply(true, said)), Consumer(k, Reject(true)),
      Consumer(k, Advance(lands, true));
    assert [a, b, c, d] == [a] + [b, c, d] && [b, c, d] == [b] + [c, d] && [c, d] == [c] + [d] && [d] == [d] + [];
    RunFirst(cfg, s, a, [b, c, d]);
    RunFirst(cfg, ReadStep(s, k), b, [c, d]);
    RunFirst(cfg, ApplyStep(ReadStep(s, k), k, true, said), c, [d]);
    RunFirst(cfg, RejectStep(ApplyStep(ReadStep(s, k), k, true, said), k, true), d, []);
    RunNothing(cfg, AdvanceStep(RejectStep(ApplyStep(ReadStep(s, k), k, true, said), k, true), k, lands, true));
  }

  lemma RunNothing(cfg: Config, s: State)
    ensures Run(cfg, s, []) == s
  {
  }

  // ---------------------------------------------------------------- the risk worker

  predicate AtPayment(s: State, k: nat, c: Coord) {
    && k in s.risk && s.risk[k].phase == Ready
    && c == At(s.pay.name, s.risk[k].partition, s.risk[k].position) && c in s.pay.records
  }

  /** The session one record further, and its offset committed. */
  function Past(s: State, k: nat): State
    requires k in s.risk
  {
    var w := s.risk[k];
    s.(risk := s.risk[k := RiskSession(w.partition, w.position + 1, Ready)],
       riskOffsets := s.riskOffsets[w.partition := w.position + 1])
  }

  /** One round of the worker on a record, told by the service: a record that does not parse goes to the
      invalid topic; a decision, cached or new, to the decisions topic; without one the record stays. */
  function ServedBy(cfg: Config, s: State, k: nat, c: Coord, now: int, m: Model, target: int): State
    requires AtPayment(s, k, c)
  {
    match ParsePayment(s.pay.records[c])
    case None => Past(s, k).(invalid := s.invalid + {c})
    case Some(e) =>
      var (redis, d) := Processed(s.redis, cfg.window, cfg.settings, e, now, m);
      var seen := if LoadDecision(s.redis, e.id).Some? then [] else [Observation(e, now)];
      var n := s.(redis := redis, history := s.history + seen);
      if d.None? then n
      else Past(n, k).(dec := Append(s.dec, target, Json(d.value)), sent := s.sent + {Next(s.dec, target)})
  }

  /** The session in another phase. */
  function As(s: State, k: nat, phase: RiskPhase): State
    requires k in s.risk
  { Enter(s, k, phase) }

  lemma StaysAs(s: State, k: nat)
    requires k in s.risk
    ensures As(s, k, s.risk[k].phase) == s
  {
    assert s.risk[k := s.risk[k]] == s.risk;
  }

  /** Up to the decision: what the worker holds, and what it left in Redis. */
  function Prepared(cfg: Config, s: State, k: nat, c: Coord, now: int, m: Model): State
    requires AtPayment(s, k, c)
  {
    match ParsePayment(s.pay.records[c])
    case None => As(s, k, Malformed)
    case Some(e) =>
      if LoadDecision(s.redis, e.id).Some? then As(s, k, Saved(e, LoadDecision(s.redis, e.id).value))
      else
        var (redis, d) := Processed(s.redis, cfg.window, cfg.settings, e, now, m);
        As(s, k, if d.None? then Ready else Saved(e, d.value)).(redis := redis,
            history := s.history + [Observation(e, now)])
  }

  lemma Loads(s: State, k: nat, c: Coord)
    requires AtPayment(s, k, c)
    ensures LoadStep(s, k) == As(s, k,
              match ParsePayment(s.pay.records[c])
              case None => Malformed
              case Some(e) => if LoadDecision(s.redis, e.id).Some? then Saved(e, LoadDecision(s.redis, e.id).value)
                              else Missed(e))
  {
    hide ParsePayment, LoadDecision;
  }

  lemma Prepares(cfg: Config, s: State, k: nat, c: Coord, now: int, m: Model)
    requires AtPayment(s, k, c) && now > 0 && ValidModel(m)
    ensures k in LoadStep(s, k).risk && k in ObserveStep(cfg, LoadStep(s, k), k, now).risk
    ensures k in ScoreStep(cfg, ObserveStep(cfg, LoadStep(s, k), k, now), k, m).risk
    ensures SaveStep(ScoreStep(cfg, ObserveStep(cfg, LoadStep(s, k), k, now), k, m), k)
              == Prepared(cfg, s, k, c, now, m)
  {
    Loads(s, k, c);
    match ParsePayment(s.pay.records[c])
    case None => hide *; Skips(cfg, s, k, Malformed, now, m);
    case Some(e) => {
      if LoadDecision(s.redis, e.id).Some? {
        Skips(cfg, s, k, Saved(e, LoadDecision(s.redis, e.id).value), now, m);
        hide ParsePayment, LoadDecision, LoadStep, ObserveStep, ScoreStep, SaveStep, ValidModel;
      } else {
        Decides(cfg, s, k, e, now, m);
        hide ParsePayment, LoadDecision, LoadStep, ObserveStep, ScoreStep, SaveStep, ValidModel;
      }
    }
  }

  lemma Skips(cfg: Config, s: State, k: nat, phase: RiskPhase, now: int, m: Model)
    requires k in s.risk && (phase.Malformed? || phase.Saved?)
    ensures var n := As(s, k, phase);
            && ObserveStep(cfg, n, k, now) == ScoreStep(cfg, n, k, m) == SaveStep(n, k) == n && k in n.risk
  {
  }

  lemma Decides(cfg: Config, s: State, k: nat, e: OutboxEvent, now: int, m: Model)
    requires k in s.risk && s.risk[k].phase == Ready && e.payload.Created? && now > 0 && ValidModel(m)
    requires LoadDecision(s.redis, e.id).None?
    ensures var a := ObserveStep(cfg, As(s, k, Missed(e)), k, now);
            k in a.risk && k in ScoreStep(cfg, a, k, m).risk &&
            var (redis, d) := Processed(s.redis, cfg.window, cfg.settings, e, now, m);
            SaveStep(ScoreStep(cfg, a, k, m), k)
              == As(s, k, if d.None? then Ready else Saved(e, d.value)).(redis := redis,
                   history := s.history + [Observation(e, now)])
  {
    hide Observe, Decision, LabelOk, ValidModel, SaveDecision;
  }

  /** Answering and committing, from where the preparation left off. */
  lemma Answers(s: State, k: nat, phase: RiskPhase, target: int, lands: bool)
    requires k in s.risk && s.risk[k].phase == Ready && target >= 0
    requires phase.Malformed? || phase.Saved? || phase.Ready?
    ensures var a := QuarantineStep(As(s, k, phase), k, lands, true);
            k in a.risk && k in PublishStep(a, k, target, lands, true).risk &&
            CommitStep(PublishStep(a, k, target, lands, true), k, lands, true)
              == match phase
                 case Malformed =>
                   Past(s, k).(invalid := s.invalid + {At(s.pay.name, s.risk[k].partition, s.risk[k].position)})
                 case Saved(_, d) =>
                   Past(s, k).(dec := Append(s.dec, target, Json(d)), sent := s.sent + {Next(s.dec, target)})
                 case _ => As(s, k, phase)
  {
    hide Append, Next;
  }

  function Round(k: nat, now: int, m: Model, target: int, lands: bool): seq<Move> {
    [Risk(k, Load), Risk(k, Observing(now)), Risk(k, Score(m)), Risk(k, Save), Risk(k, Quarantine(lands, true)),
     Risk(k, Publish(target, lands, true)), Risk(k, Commit(lands, true))]
  }

  /** Load, Observe, Score, Save, Quarantine or Publish, and Commit without interruption are one call of the
      worker's handle: an unparsable record goes to the invalid topic, any other to the processor, whose decision
      goes to the decisions topic; then, and only then, the session and its committed offset move on. */
  lemma WorkerAlone(cfg: Config, s: State, k: nat, c: Coord, now: int, m: Model, target: int, lands: bool)
    requires AtPayment(s, k, c) && now > 0 && ValidModel(m) && target >= 0
    ensures Run(cfg, s, Round(k, now, m, target, lands)) == ServedBy(cfg, s, k, c, now, m, target)
  {
    hide Run, RiskStep, LoadStep, ObserveStep, ScoreStep, SaveStep, QuarantineStep, PublishStep, CommitStep;
    hide Prepared, ServedBy, ValidModel;
    Prepares(cfg, s, k, c, now, m);
    Finishes(cfg, s, k, c, now, m, target, lands);
    var a := LoadStep(s, k);
    var b := ObserveStep(cfg, a, k, now);
    var d := ScoreStep(cfg, b, k, m);
    var p := Prepared(cfg, s, k, c, now, m);
    var q := QuarantineStep(p, k, lands, true);
    PreparingMoves(cfg, s, k, now, m);
    AnsweringMoves(cfg, p, k, target, lands);
    SevenMoves(cfg, s, k, Load, Observing(now), Score(m), Save, Quarantine(lands, true), Publish(target, lands, true),
      Commit(lands, true));
  }

  lemma PreparingMoves(cfg: Config, s: State, k: nat, now: int, m: Model)
    requires k in s.risk && k in LoadStep(s, k).risk && k in ObserveStep(cfg, LoadStep(s, k), k, now).risk
    requires k in ScoreStep(cfg, ObserveStep(cfg, LoadStep(s, k), k, now), k, m).risk
    ensures RiskStep(cfg, RiskStep(cfg, RiskStep(cfg, RiskStep(cfg, s, k, Load), k, Observing(now)), k, Score(m)), k,
              Save) == SaveStep(ScoreStep(cfg, ObserveStep(cfg, LoadStep(s, k), k, now), k, m), k)
  {
    hide LoadStep, ObserveStep, ScoreStep, SaveStep;
  }

  lemma AnsweringMoves(cfg: Config, p: State, k: nat, target: int, lands: bool)
    requires k in p.risk && k in QuarantineStep(p, k, lands, true).risk
    requires k in PublishStep(QuarantineStep(p, k, lands, true), k, target, lands, true).risk
    ensures RiskStep(cfg, RiskStep(cfg, RiskStep(cfg, p, k, Quarantine(lands, true)), k, Publish(target, lands, true)),
              k, Commit(lands, true))
            == CommitStep(PublishStep(QuarantineStep(p, k, lands, true), k, target, lands, true), k, lands, true)
  {
    hide QuarantineStep, PublishStep, CommitStep;
  }

  lemma Finishes(cfg: Config, s: State, k: nat, c: Coord, now: int, m: Model, target: int, lands: bool)
    requires AtPayment(s, k, c) && now > 0 && ValidModel(m) && target >= 0
    ensures var p := Prepared(cfg, s, k, c, now, m);
            k in p.risk && k in QuarantineStep(p, k, lands, true).risk
            && k in PublishStep(QuarantineStep(p, k, lands, true), k, target, lands, true).risk
            && CommitStep(PublishStep(QuarantineStep(p, k, lands, true), k, target, lands, true), k, lands, true)
               == ServedBy(cfg, s, k, c, now, m, target)
  {
    hide ParsePayment, Processed, LoadDecision, Observation, QuarantineStep, PublishStep, CommitStep, Append, Next;
    hide ValidModel;
    match ParsePayment(s.pay.records[c])
    case None => Answers(s, k, Malformed, target, lands);
    case Some(e) => {
      var (redis, d) := Processed(s.redis, cfg.window, cfg.settings, e, now, m);
      if LoadDecision(s.redis, e.id).Some? {
        CachedStays(s.redis, cfg.window, cfg.settings, e, now, m);
        assert s.history + [] == s.history;
        Answers(s, k, Saved(e, d.value), target, lands);
      } else {
        var n := s.(redis := redis, history := s.history + [Observation(e, now)]);
        if d.Some? { Answers(n, k, Saved(e, d.value), target, lands); }
        else { StaysAs(n, k); Answers(n, k, Ready, target, lands); }
      }
    }
  }

  lemma CachedStays(r: Redis, window: int, c: Settings, e: OutboxEvent, now: int, m: Model)
    requires e.payload.Created? && LoadDecision(r, e.id).Some?
    ensures Processed(r, window, c, e, now, m) == (r, LoadDecision(r, e.id))
  {
  }

  lemma SevenMoves(cfg: Config, s: State, k: nat, a: RiskMove, b: RiskMove, c: RiskMove, d: RiskMove, e: RiskMove,
        f: RiskMove, g: RiskMove)
    ensures var n := RiskStep(cfg, RiskStep(cfg, RiskStep(cfg, RiskStep(cfg, s, k, a), k, b), k, c), k, d);
            Run(cfg, s, [Risk(k, a), Risk(k, b), Risk(k, c), Risk(k, d), Risk(k, e), Risk(k, f), Risk(k, g)])
              == RiskStep(cfg, RiskStep(cfg, RiskStep(cfg, n, k, e), k, f), k, g)
  {
    hide *;
    var s3 := RiskStep(cfg, RiskStep(cfg, RiskStep(cfg, s, k, a), k, b), k, c);
    var s6 := RiskStep(cfg, RiskStep(cfg, RiskStep(cfg, s3, k, d), k, e), k, f);
    var last := [Risk(k, g)];
    var tail := [Risk(k, d), Risk(k, e), Risk(k, f)] + last;
    assert [Risk(k, a), Risk(k, b), Risk(k, c), Risk(k, d), Risk(k, e), Risk(k, f), Risk(k, g)]
        == [Risk(k, a), Risk(k, b), Risk(k, c)] + tail;
    ThreeMoves(cfg, s, k, a, b, c, tail);
    ThreeMoves(cfg, s3, k, d, e, f, last);
    assert last == last + [];
    RiskFirst(cfg, s6, k, g, []);
    RunNothing(cfg, RiskStep(cfg, s6, k, g));
  }

  lemma ThreeMoves(cfg: Config, s: State, k: nat, a: RiskMove, b: RiskMove, c: RiskMove, rest: seq<Move>)
    ensures Run(cfg, s, [Risk(k, a), Risk(k, b), Risk(k, c)] + rest)
              == Run(cfg, RiskStep(cfg, RiskStep(cfg, RiskStep(cfg, s, k, a), k, b), k, c), rest)
  {
    hide *;
    var s1 := RiskStep(cfg, s, k, a);
    var s2 := RiskStep(cfg, s1, k, b);
    assert [Risk(k, a), Risk(k, b), Risk(k, c)] + rest == [Risk(k, a)] + ([Risk(k, b)] + ([Risk(k, c)] + rest));
    RiskFirst(cfg, s, k, a, [Risk(k, b)] + ([Risk(k, c)] + rest));
    RiskFirst(cfg, s1, k, b, [Risk(k, c)] + rest);
    RiskFirst(cfg, s2, k, c, rest);
  }

  lemma RiskFirst(cfg: Config, s: State, k: nat, m: RiskMove, rest: seq<Move>)
    ensures Run(cfg, s, [Risk(k, m)] + rest) == Run(cfg, RiskStep(cfg, s, k, m), rest)
  {
    hide Run, RiskStep;
    RunFirst(cfg, s, Risk(k, m), rest);
  }

  /** A key that expires is gone, and the others stay. */
  lemma KeysExpire(s: State, source: Uuid, customer: string)
    ensures var n, r := ExpireStep(s, ExpireSnapshot(source)).redis, s.redis;
            n == r.(snapshots := map x | x in r.snapshots && x != source :: r.snapshots[x])
    ensures var n, r := ExpireStep(s, ExpireDecision(source)).redis, s.redis;
            n == r.(decisions := map x | x in r.decisions && x != source :: r.decisions[x])
    ensures var n, r := ExpireStep(s, ExpireCustomer(customer)).redis, s.redis;
            n == Redis(r.snapshots, map x | x in r.velocity && x != customer :: r.velocity[x],
                   map x | x in r.devices && x != customer :: r.devices[x],
                   map x | x in r.baseline && x != customer :: r.baseline[x], r.decisions)
  {
  }

  // ---------------------------------------------------------------- the publisher and the API

  /** The row as the outbox store sees it. */
  function RowOf(row: OutboxRow, publishedAt: Option<int>, deadLetteredAt: Option<int>): OutboxStore.Row {
    OutboxStore.Row(row.event, row.createdAt, row.nextAttemptAt, row.attempts, publishedAt, deadLetteredAt)
  }

  predicate Shows(row: OutboxRow, r: OutboxStore.Row) {
    && r.event == row.event && r.createdAt == row.createdAt && r.nextAttemptAt == row.nextAttemptAt
    && r.attempts == row.attempts
    && row.delivery == (if r.publishedAt.Some? then Published else if r.deadLetteredAt.Some? then DeadLettered
                        else Pending)
  }

  /** A publisher's two moves on a pending row. An event that can be sent is appended to the payments topic, and
      its acknowledgement marks the row as the store does; a failure, retriable exactly for such an event, is
      recorded as the store does. */
  lemma PublisherAlone(cfg: Config, s: State, o: Uuid, target: int, r: OutboxStore.Row, next: int, permanent: bool,
        now: int)
    requires o in s.db.outbox && s.db.outbox[o].delivery == Pending && target >= 0 && Shows(s.db.outbox[o], r)
    ensures OutboxStore.Publishable(r.event) ==>
              var sent := Run(cfg, s, [Send(o, target)]);
              var n := Run(cfg, sent, [Mark(o, Next(s.pay, target))]);
              && sent == s.(pay := Append(s.pay, target, PayEvent(r.event)))
              && o in n.db.outbox && Shows(n.db.outbox[o], OutboxStore.Marked(r, now))
              && n == sent.(db := s.db.(outbox := s.db.outbox[o := n.db.outbox[o]]))
    ensures var n := Run(cfg, s, [Miss(o, next, permanent)]);
            if permanent == OutboxStore.Publishable(r.event) then n == s
            else && o in n.db.outbox && Shows(n.db.outbox[o], OutboxStore.Missed(r, next, permanent, now))
                 && n == s.(db := s.db.(outbox := s.db.outbox[o := n.db.outbox[o]]))
  {
    hide OutboxStore.Publishable;
  }

  /** A Create move leaves the tables that the service's call leaves. */
  lemma CreateAlone(cfg: Config, s: State, key: string, request: Request, traceId: Uuid, now: int)
    requires UniqueKeys(s.db.payments)
    ensures Run(cfg, s, [Create(key, request, traceId, now)]).db
              == Creation.Requested(s.db, key, request, V4(s.serial), V4(s.serial + 1), traceId, now).0
  {
    hide *;
    var m := Create(key, request, traceId, now);
    assert [m] == [m] + [];
    RunFirst(cfg, s, m, []);
    RunNothing(cfg, Step(cfg, s, m));
    CreateStepped(cfg, s, m);
    CreateCreates(s, m);
  }

  lemma CreateStepped(cfg: Config, s: State, m: Move)
    requires m.Create?
    ensures Step(cfg, s, m) == CreateStep(s, m)
  {
    hide CreateStep;
  }

  lemma CreateCreates(s: State, m: Move)
    requires m.Create? && UniqueKeys(s.db.payments)
    ensures CreateStep(s, m).db
              == Creation.Requested(s.db, m.key, m.request, V4(s.serial), V4(s.serial + 1), m.traceId, m.now).0
  {
    hide Creation.KeyOf, Creation.Candidate, Creation.EventFor, Normalize, ValidRequest, CreateTx, UniqueKeys;
    hide Deliveries.Perform, Problems;
    var k, n := Creation.KeyOf(m.key), Normalize(m.request);
    if k.Key? && ValidRequest(n) {
      var x := Creation.Candidate(k.key, n, V4(s.serial), m.now);
      Deliveries.PerformCreates(s.db, x, Creation.EventFor(x, V4(s.serial + 1), m.traceId), m.now);
    }
  }
}
