/** RiskFlow as one state machine: the payment API, the outbox publishers, both topics, any number of risk
    workers and decision consumers with their committed offsets, Redis and the tables. Every process may
    crash at any point, acknowledgements may be lost, several sessions may hold the same partition. */
module Pipeline {
  import opened Text
  import opened Domain
  import opened Validation
  import opened EventContract
  import opened Ledger
  import opened Features
  import opened Scoring
  import opened Kafka
  import Creation
  import Deliveries
  import OutboxStore
  import I = Interleaving

  /** What stays fixed during a run. */
  datatype Config = Config(settings: Settings, window: nat, payTopic: string, decTopic: string)

  predicate ValidConfig(c: Config) {
    ValidSettings(c.settings) && TrimSpace(c.decTopic) != "" && |Utf8(TrimSpace(c.decTopic))| <= 249
  }

  /** Where a risk worker stands with the record at its position. */
  datatype RiskPhase =
    | Ready | Malformed | Missed(e: OutboxEvent) | Observed(e: OutboxEvent, f: Snapshot)
    | Judged(e: OutboxEvent, d: Event) | Saved(e: OutboxEvent, d: Event) | Sent

  datatype RiskSession = RiskSession(partition: int, position: nat, phase: RiskPhase)

  /** Where a decision consumer stands: before the record, in a transaction that found no receipt for it,
      told to reject it, or done with it. */
  datatype ConsumerPhase = Polling | Applying | Refusing(code: RejectionCode) | Handled
  datatype ConsumerSession = ConsumerSession(partition: int, position: nat, phase: ConsumerPhase)

  /** `sent` holds the coordinates the risk workers wrote, `invalid` the source coordinates of the records
      on the invalid-events topic, `history` every observe call in order. */
  datatype State = State(
    db: Db, pay: Topic<PayValue>, dec: Topic<Value>, sent: set<Coord>, invalid: set<Coord>,
    riskOffsets: map<int, nat>, decOffsets: map<int, nat>,
    risk: map<nat, RiskSession>, consumers: map<nat, ConsumerSession>,
    redis: Redis, history: seq<Obs>, serial: nat)

  function Init(c: Config): State {
    State(EMPTY_DB, Topic(c.payTopic, map[], map[]), Topic(c.decTopic, map[], map[]), {}, {},
          map[], map[], map[], map[], EMPTY_REDIS, [], 0)
  }

  // ---------------------------------------------------------------- moves

  datatype RiskMove =
    | Start(partition: int) | Crash | Retry | Load | Observing(now: int) | Score(model: Model) | Save
    | Publish(target: int, lands: bool, acked: bool) | Quarantine(lands: bool, acked: bool) | Commit(lands: bool,
        acked: bool)

  datatype ConsumerMove =
    | Join(partition: int) | Leave | Read | Apply(acked: bool,
        said: StoreError) | Reject(acked: bool) | Advance(lands: bool, acked: bool)

  datatype Move =
    | Create(key: string, request: Request, traceId: Uuid, now: int)
    | Send(row: Uuid, target: int) | Mark(row: Uuid, at: Coord) | Miss(row: Uuid, next: int, permanent: bool)
    | PayNoise(target: int, pay: PayValue) | DecNoise(target: int, value: Value)
    | Risk(k: nat, move: RiskMove) | Consumer(k: nat, step: ConsumerMove)
    | Resolve(paymentId: Uuid, action: Action, expectedVersion: int, reason: string, reviewer: string, resolvedAt: int)
    | ExpireSnapshot(source: Uuid) | ExpireDecision(source: Uuid) | ExpireCustomer(customer: string)

  // ---------------------------------------------------------------- API and publisher

  /** Two fresh ids per accepted request. */
  function CreateStep(s: State, a: Move): State
    requires a.Create?
  {
    var key, n := Creation.KeyOf(a.key), Normalize(a.request);
    if !key.Key? || !ValidRequest(n) then s
    else
      var x := Creation.Candidate(key.key, n, V4(s.serial), a.now);
      s.(db := Deliveries.Perform(s.db,
          Deliveries.Creating(x, Creation.EventFor(x, V4(s.serial + 1), a.traceId), a.now)), serial := s.serial + 2)
  }

  /** The publisher's produce call; whether the publisher learns of it is up to Mark and Miss. */
  function SendStep(s: State, a: Move): State
    requires a.Send?
  {
    if a.row !in s.db.outbox || !s.db.outbox[a.row].delivery.Pending? ||
        !OutboxStore.Publishable(s.db.outbox[a.row].event) || a.target < 0 then s
    else s.(pay := Append(s.pay, a.target, PayEvent(s.db.outbox[a.row].event)))
  }

  function WithRow(s: State, o: Uuid, row: OutboxRow): State { s.(db := s.db.(outbox := s.db.outbox[o := row])) }

  /** After the acknowledgement of the record at `at`. */
  function MarkStep(s: State, a: Move): State
    requires a.Mark?
  {
    if a.row !in s.db.outbox || !s.db.outbox[a.row].delivery.Pending? || a.at !in s.pay.records
       || s.pay.records[a.at] != PayEvent(s.db.outbox[a.row].event) then s
    else var row := s.db.outbox[a.row]; WithRow(s, a.row, row.(delivery := Published, attempts := row.attempts + 1))
  }

  /** A failed attempt; permanent exactly when the event is not publishable. */
  function MissStep(s: State, a: Move): State
    requires a.Miss?
  {
    if a.row !in s.db.outbox || !s.db.outbox[a.row].delivery.Pending? ||
        a.permanent == OutboxStore.Publishable(s.db.outbox[a.row].event) then s
    else
      var row := s.db.outbox[a.row];
      WithRow(s, a.row, row.(delivery := if a.permanent then DeadLettered else Pending, attempts := row.attempts + 1,
          nextAttemptAt := a.next))
  }

  // ---------------------------------------------------------------- risk workers

  function At(name: string, partition: int, position: nat): Coord { Coord(name, partition, position) }

  function Enter(s: State, k: nat, phase: RiskPhase): State
    requires k in s.risk
  { s.(risk := s.risk[k := s.risk[k].(phase := phase)]) }

  /** Poll, parse and look the decision up. */
  function LoadStep(s: State, k: nat): State
    requires k in s.risk
  {
    var w := s.risk[k];
    var c := At(s.pay.name, w.partition, w.position);
    if !w.phase.Ready? || c !in s.pay.records then s
    else match ParsePayment(s.pay.records[c])
      case None => Enter(s, k, Malformed)
      case Some(e) => Enter(s, k, if LoadDecision(s.redis, e.id).Some? then Saved(e,
          LoadDecision(s.redis, e.id).value) else Missed(e))
  }

  function ObserveStep(cfg: Config, s: State, k: nat, now: int): State
    requires k in s.risk
  {
    var w := s.risk[k];
    if !w.phase.Missed? || !w.phase.e.payload.Created? || now <= 0 then s
    else
      var o := Observation(w.phase.e, now);
      var (redis, f) := Observe(s.redis, cfg.window, o);
      Enter(s, k, Observed(w.phase.e, f)).(redis := redis, history := s.history + [o])
  }

  /** Rules, model and envelope; an envelope that does not validate raises, and the record is retried. */
  function ScoreStep(cfg: Config, s: State, k: nat, m: Model): State
    requires k in s.risk
  {
    var w := s.risk[k];
    if !w.phase.Observed? || !w.phase.e.payload.Created? || !ValidModel(m) then s
    else Enter(s, k, if LabelOk(m) then Judged(w.phase.e, Decision(cfg.settings, w.phase.e, w.phase.f, m)) else Ready)
  }

  function SaveStep(s: State, k: nat): State
    requires k in s.risk
  {
    var w := s.risk[k];
    if !w.phase.Judged? then s
    else
      var (redis, winner) := SaveDecision(s.redis, w.phase.d);
      Enter(s, k, Saved(w.phase.e, winner)).(redis := redis)
  }

  /** The decision may land whether or not its acknowledgement arrives; without one the record is retried. */
  function PublishStep(s: State, k: nat, target: int, lands: bool, acked: bool): State
    requires k in s.risk
  {
    var w := s.risk[k];
    if !w.phase.Saved? || target < 0 then s
    else
      var n := Enter(s, k, if acked then Sent else Ready);
      if lands || acked then n.(dec := Append(s.dec, target, Json(w.phase.d)),
          sent := s.sent + {Next(s.dec, target)}) else n
  }

  function QuarantineStep(s: State, k: nat, lands: bool, acked: bool): State
    requires k in s.risk
  {
    var w := s.risk[k];
    if !w.phase.Malformed? then s
    else
      var n := Enter(s, k, if acked then Sent else Ready);
      if lands || acked then n.(invalid := s.invalid + {At(s.pay.name, w.partition, w.position)}) else n
  }

  function CommitStep(s: State, k: nat, lands: bool, acked: bool): State
    requires k in s.risk
  {
    var w := s.risk[k];
    if !w.phase.Sent? then s
    else
      var n := s.(risk := s.risk[k := RiskSession(w.partition, if acked then w.position + 1 else w.position, Ready)]);
      if lands || acked then n.(riskOffsets := s.riskOffsets[w.partition := w.position + 1]) else n
  }

  function RiskStep(cfg: Config, s: State, k: nat, m: RiskMove): State {
    if m.Start? then
      if k in s.risk || m.partition < 0 then s
      else s.(risk := s.risk[k := RiskSession(m.partition, Committed(s.riskOffsets, m.partition), Ready)])
    else if k !in s.risk then s
    else match m
      case Crash => s.(risk := s.risk - {k})
      case Retry => Enter(s, k, Ready)
      case Load => LoadStep(s, k)
      case Observing(now) => ObserveStep(cfg, s, k, now)
      case Score(model) => ScoreStep(cfg, s, k, model)
      case Save => SaveStep(s, k)
      case Publish(target, lands, acked) => PublishStep(s, k, target, lands, acked)
      case Quarantine(lands, acked) => QuarantineStep(s, k, lands, acked)
      case Commit(lands, acked) => CommitStep(s, k, lands, acked)
      case Start(_) => s
  }

  // ---------------------------------------------------------------- decision consumers

  function Turn(s: State, k: nat, phase: ConsumerPhase): State
    requires k in s.consumers
  { s.(consumers := s.consumers[k := s.consumers[k].(phase := phase)]) }

  /** Parsing, and the receipt lookup that opens the transaction. */
  function ReadStep(s: State, k: nat): State
    requires k in s.consumers
  {
    var w := s.consumers[k];
    var c := At(s.dec.name, w.partition, w.position);
    if !w.phase.Polling? || c !in s.dec.records then s
    else if ParseEvent(s.dec.records[c]).None? then Turn(s, k, Refusing(InvalidEvent))
    else match ExistingReceipt(s.db, Record(c, s.dec.records[c]))
      case Missing => if ValidSource(c) then Turn(s, k, Applying) else s
      case Found(Rejected) => s
      case Found(_) => Turn(s, k, Handled)
      case Different => s
  }

  /** The rest of the transaction; it can commit without the caller learning it. A refusal reads as `said`
      where the interleaving of statements lets it (Interleaving.AnswerFits). */
  function ApplyStep(s: State, k: nat, acked: bool, said: StoreError): State
    requires k in s.consumers
  {
    var w := s.consumers[k];
    var c := At(s.dec.name, w.partition, w.position);
    if !w.phase.Applying? || c !in s.dec.records || ParseEvent(s.dec.records[c]).None? then s
    else
      var (db, result) := ApplyTx(s.db, ParseEvent(s.dec.records[c]).value, Record(c, s.dec.records[c]));
      Turn(s, k, if acked then AfterApply(s.db, c, result, said) else Polling).(db := db)
  }

  function AfterApply(db: Db, c: Coord, result: ApplyResult, said: StoreError): ConsumerPhase {
    if result.Accepted? then Handled
    else
      var error := if I.AnswerFits(db, c, result.error, said) then said else result.error;
      if Deliveries.RejectionCodeFor(error).Some? then Refusing(Deliveries.RejectionCodeFor(error).value) else Polling
  }

  function RejectStep(s: State, k: nat, acked: bool): State
    requires k in s.consumers
  {
    var w := s.consumers[k];
    var c := At(s.dec.name, w.partition, w.position);
    if !w.phase.Refusing? || c !in s.dec.records then s
    else
      var (db, error) := RejectTx(s.db, Record(c, s.dec.records[c]), w.phase.code);
      Turn(s, k, if acked && error.None? then Handled else Polling).(db := db)
  }

  /** A failed offset commit ends the session. */
  function AdvanceStep(s: State, k: nat, lands: bool, acked: bool): State
    requires k in s.consumers
  {
    var w := s.consumers[k];
    if !w.phase.Handled? then s
    else
      var n := s.(consumers := if acked then s.consumers[k := ConsumerSession(w.partition, w.position + 1,
          Polling)] else s.consumers - {k});
      if lands || acked then n.(decOffsets := s.decOffsets[w.partition := w.position + 1]) else n
  }

  function ConsumerStep(s: State, k: nat, m: ConsumerMove): State {
    if m.Join? then
      if k in s.consumers || m.partition < 0 then s
      else s.(consumers := s.consumers[k := ConsumerSession(m.partition, Committed(s.decOffsets, m.partition),
          Polling)])
    else if k !in s.consumers then s
    else match m
      case Leave => s.(consumers := s.consumers - {k})
      case Read => ReadStep(s, k)
      case Apply(acked, said) => ApplyStep(s, k, acked, said)
      case Reject(acked) => RejectStep(s, k, acked)
      case Advance(lands, acked) => AdvanceStep(s, k, lands, acked)
      case Join(_) => s
  }

  // ---------------------------------------------------------------- one step, whole runs

  function ResolveStep(s: State, a: Move): State
    requires a.Resolve?
  {
    s.(db := ResolveTx(s.db, ResolveCommand(a.paymentId, a.action, a.expectedVersion, a.reason, a.reviewer,
        V4(s.serial), a.resolvedAt)).0,
       serial := s.serial + 1)
  }

  function ExpireStep(s: State, a: Move): State
    requires a.ExpireSnapshot? || a.ExpireDecision? || a.ExpireCustomer?
  {
    var r := s.redis;
    s.(redis := match a
      case ExpireSnapshot(e) => r.(snapshots := r.snapshots - {e})
      case ExpireDecision(e) => r.(decisions := r.decisions - {e})
      case ExpireCustomer(x) => r.(velocity := r.velocity - {x}, devices := r.devices - {x},
          baseline := r.baseline - {x})
      case _ => r)
  }

  /** A move whose guard fails leaves the state alone. Records that other producers put on the topics are
      ones the services cannot parse. */
  function Step(cfg: Config, s: State, a: Move): State {
    match a
    case Create(_, _, _, _) => CreateStep(s, a)
    case Send(_, _) => SendStep(s, a)
    case Mark(_, _) => MarkStep(s, a)
    case Miss(_, _, _) => MissStep(s, a)
    case PayNoise(target, v) => if target < 0 || ParsePayment(v).Some? then s else s.(pay := Append(s.pay, target, v))
    case DecNoise(target, v) => if target < 0 || ParseEvent(v).Some? then s else s.(dec := Append(s.dec, target, v))
    case Risk(k, m) => RiskStep(cfg, s, k, m)
    case Consumer(k, m) => ConsumerStep(s, k, m)
    case Resolve(_, _, _, _, _, _) => ResolveStep(s, a)
    case _ => ExpireStep(s, a)
  }

  function Run(cfg: Config, s: State, moves: seq<Move>): State
    decreases moves
  {
    if moves == [] then s else Run(cfg, Step(cfg, s, moves[0]), moves[1..])
  }
}
