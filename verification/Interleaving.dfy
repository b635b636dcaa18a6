/** Statement-level concurrency. Each transaction of the decision consumer, the review API and the
    payment API runs one SQL statement at a time under READ COMMITTED: a statement reads the committed
    tables, row locks and pending unique-index entries are held until the transaction ends, and a
    statement that needs a key another transaction holds waits. Any transaction may abort at any time; one
    that a statement sends back with an answer is logged at that statement. */
module Interleaving {
  import opened Text
  import opened Domain
  import opened Ledger
  import opened LedgerInvariant

  // ---------------------------------------------------------------- transactions

  /** A row lock or an entry of a unique index. */
  datatype Key =
    | PayRow(p: Uuid) | IdemKey(key: string) | OutKey(o: Uuid)
    | DecKey(d: Uuid) | SrcKey(s: Uuid)
    | AudKey(a: Uuid) | AudPair(kind: AuditKind, of: Uuid)
    | QueueKey(q: Uuid) | QueueDec(qd: Uuid) | CoordKey(at: Coord)

  datatype Job =
    | ApplyJob(e: Event, r: Record)
    | RejectJob(rejected: Record, code: RejectionCode)
    | ResolveJob(c: ResolveCommand)
    | CreateJob(candidate: Payment, event: OutboxEvent, now: int)

  datatype Outcome =
    | DidApply(applied: ApplyResult) | DidReject(error: Option<StoreError>)
    | DidResolve(resolved: ResolveResult) | DidCreate(created: CreateResult)

  /** The point a transaction has reached; the names say what its last statement found or did. */
  datatype Pc =
    | Begin
    // decision.PostgresStore.Apply and Reject
    | SawAccepted | SawRejected | ReceiptAbsent | Locked(status: Status) | SawSame
    | Unseen(status: Status) | SourceFree
    | DecisionIn | StatusSet | AuditIn | QueueIn
    | ReplayClash | ReplayReady | ApplyClash | ApplyOrphan | ApplyReady | RejectReady
    // review.PostgresRepository.Resolve; RowMissed tells whether the update saw a row at all
    | RowMissed(found: bool) | RowResolved | PaymentMoved | ResolveReady
    // payment.PostgresRepository.Create
    | KeySeen | PaymentIn | CreateReady
    // rolling back, with the answer the caller gets
    | Denied(said: Outcome)

  datatype Tx = Tx(job: Job, pc: Pc, locks: set<Key>, writes: Db)

  /** What a job does when it runs alone. */
  function Atomic(db: Db, job: Job): (Db, Outcome)
    requires UniqueKeys(db.payments)
  {
    match job
    case ApplyJob(e, r) => var (n, o) := ApplyTx(db, e, r); (n, DidApply(o))
    case RejectJob(r, code) => var (n, o) := RejectTx(db, r, code); (n, DidReject(o))
    case ResolveJob(c) => var (n, o) := ResolveTx(db, c); (n, DidResolve(o))
    case CreateJob(candidate, event, now) => var (n, o) := CreateTx(db, candidate, event, now); (n, DidCreate(o))
  }

  /** What the callers guarantee: the event is the parsed record, the outbox event announces the payment. */
  ghost predicate JobOk(job: Job) {
    match job
    case ApplyJob(e, r) => Carries(r, e)
    case CreateJob(candidate, event, _) => Announces(event, candidate) && candidate.status.PendingRisk?
    case _ => true
  }

  function Overlay(db: Db, w: Db): Db {
    Db(db.payments + w.payments, db.outbox + w.outbox, db.decisions + w.decisions,
       db.receipts + w.receipts, db.audits + w.audits, db.reviews + w.reviews)
  }

  // ---------------------------------------------------------------- statements

  function DenyApply(tx: Tx, error: StoreError): Tx { tx.(pc := Denied(DidApply(Refused(error)))) }
  function DenyReject(tx: Tx, error: StoreError): Tx { tx.(pc := Denied(DidReject(Some(error)))) }
  function DenyResolve(tx: Tx, result: ResolveResult): Tx { tx.(pc := Denied(DidResolve(result))) }
  function DenyCreate(tx: Tx, result: CreateResult): Tx { tx.(pc := Denied(DidCreate(result))) }

  /** A statement waits for a row or an index entry that another transaction holds only after the committed
      tables have neither failed its condition nor refused its insert. A unique violation that no clause
      absorbs comes back as the database's own error, `Constraint`. */
  function ApplyStatement(db: Db, tx: Tx, held: set<Key>): Tx
    requires tx.job.ApplyJob?
  {
    var e, r := tx.job.e, tx.job.r;
    var p, d, s := e.payload.paymentId, e.payload.decisionId, e.payload.sourceEventId;
    match tx.pc
    case Begin =>
      if !ValidSource(r.at) then DenyApply(tx, BadSource)
      else (match ExistingReceipt(db, r)
        case Missing => tx.(pc := ReceiptAbsent)
        case Found(Rejected) => DenyApply(tx, SourceConflict)
        case Found(_) => tx.(pc := SawAccepted)
        case Different => DenyApply(tx, SourceConflict))
    case ReceiptAbsent =>
      if p !in db.payments then DenyApply(tx, Unfound(p))
      else if PayRow(p) in held then tx
      else tx.(pc := Locked(db.payments[p].status), locks := tx.locks + {PayRow(p)})
    case Locked(status) =>
      if d !in db.decisions then tx.(pc := Unseen(status))
      else if db.decisions[d] == e then tx.(pc := SawSame)
      else DenyApply(tx, DecisionClash)
    case SawSame =>
      if CoordKey(r.at) in held then tx
      else if r.at in db.receipts then tx.(pc := ReplayClash)
      else tx.(pc := ReplayReady, locks := tx.locks + {CoordKey(r.at)},
               writes := tx.writes.(receipts := map[r.at := AcceptedReceipt(e, r, Replayed)]))
    case ReplayClash =>
      (match ExistingReceipt(db, r)
        case Found(Rejected) => DenyApply(tx, SourceConflict)
        case Found(_) => tx.(pc := SawAccepted)
        case Different => DenyApply(tx, SourceConflict)
        case Missing => DenyApply(tx, Constraint))
    case Unseen(status) =>
      if SourceTaken(db.decisions, s) then DenyApply(tx, DecisionClash)
      else if !status.PendingRisk? then DenyApply(tx, StateClash)
      else tx.(pc := SourceFree)
    case SourceFree =>
      if d in db.decisions || SourceTaken(db.decisions, s) then DenyApply(tx, Constraint)
      else if DecKey(d) in held || SrcKey(s) in held then tx
      else tx.(pc := DecisionIn, locks := tx.locks + {DecKey(d), SrcKey(s)},
               writes := tx.writes.(decisions := map[d := e]))
    case DecisionIn =>
      if p !in db.payments || !db.payments[p].status.PendingRisk? then DenyApply(tx, StateClash)
      else tx.(pc := StatusSet,
               writes := tx.writes.(payments := map[p := db.payments[p].(status := StatusFor(e.payload.verdict))]))
    case StatusSet =>
      if d in db.audits || AuditTaken(db.audits, RiskDecisionRecorded, d) then DenyApply(tx, Constraint)
      else if AudKey(d) in held || AudPair(RiskDecisionRecorded, d) in held then tx
      else tx.(pc := AuditIn, locks := tx.locks + {AudKey(d), AudPair(RiskDecisionRecorded, d)},
               writes := tx.writes.(audits := map[d := DecisionAudit(e)]))
    case AuditIn =>
      if !e.payload.verdict.Review? then tx.(pc := QueueIn)
      else if p in db.reviews || QueuedDecision(db.reviews, d) then DenyApply(tx, Constraint)
      else if QueueKey(p) in held || QueueDec(d) in held then tx
      else tx.(pc := QueueIn, locks := tx.locks + {QueueKey(p), QueueDec(d)},
               writes := tx.writes.(reviews := map[p := NewQueueRow(e)]))
    case QueueIn =>
      if CoordKey(r.at) in held then tx
      else if r.at in db.receipts then tx.(pc := ApplyClash)
      else tx.(pc := ApplyReady, locks := tx.locks + {CoordKey(r.at)},
               writes := tx.writes.(receipts := map[r.at := AcceptedReceipt(e, r, Applied)]))
    case ApplyClash =>
      (match ExistingReceipt(db, r)
        case Found(Rejected) => DenyApply(tx, SourceConflict)
        case Found(_) => tx.(pc := ApplyOrphan)
        case Different => DenyApply(tx, SourceConflict)
        case Missing => DenyApply(tx, Constraint))
    case _ => tx
  }

  function RejectStatement(db: Db, tx: Tx, held: set<Key>): Tx
    requires tx.job.RejectJob?
  {
    var r, code := tx.job.rejected, tx.job.code;
    match tx.pc
    case Begin =>
      if !ValidSource(r.at) then DenyReject(tx, BadSource)
      else (match ExistingReceipt(db, r)
        case Missing => tx.(pc := ReceiptAbsent)
        case Found(Rejected) => tx.(pc := SawRejected)
        case _ => DenyReject(tx, SourceConflict))
    case ReceiptAbsent =>
      if CoordKey(r.at) in held then tx
      else if r.at in db.receipts || r.value.Null? then DenyReject(tx, Constraint)
      else tx.(pc := RejectReady, locks := tx.locks + {CoordKey(r.at)},
               writes := tx.writes.(receipts := map[r.at := RejectedReceipt(r, code)]))
    case _ => tx
  }

  /** The conditional update; when it hit no row, currentConflict's query, a statement of its own. */
  function ResolveStatement(db: Db, tx: Tx, held: set<Key>): Tx
    requires tx.job.ResolveJob?
  {
    var c := tx.job.c;
    var p := c.paymentId;
    match tx.pc
    case Begin =>
      if p !in db.reviews then tx.(pc := RowMissed(false))
      else if !db.reviews[p].status.Waiting? ||
          db.reviews[p].version != c.expectedVersion then tx.(pc := RowMissed(true))
      else if QueueKey(p) in held then tx
      else tx.(pc := RowResolved, locks := tx.locks + {QueueKey(p)},
               writes := tx.writes.(reviews := map[p := ResolvedRow(db.reviews[p], c)]))
    case RowMissed(_) =>
      if p !in db.reviews then DenyResolve(tx, NotFound)
      else if !db.reviews[p].status.Waiting? then DenyResolve(tx,
          AlreadyResolved(db.reviews[p].status, db.reviews[p].version))
      else DenyResolve(tx, VersionConflict(db.reviews[p].version))
    case RowResolved =>
      if p !in db.payments || !db.payments[p].status.UnderReview? then DenyResolve(tx, ReviewStateConflict)
      else if PayRow(p) in held then tx
      else tx.(pc := PaymentMoved, locks := tx.locks + {PayRow(p)},
               writes := tx.writes.(payments := map[p := db.payments[p].(status := PaymentStatusFor(c.action))]))
    case PaymentMoved =>
      if p !in tx.writes.reviews then tx
      else
        var d := tx.writes.reviews[p].decisionId;
        if c.auditId in db.audits || AuditTaken(db.audits, AuditKindFor(c.action), d) then
          DenyResolve(tx, ResolveConstraint)
        else if AudKey(c.auditId) in held || AudPair(AuditKindFor(c.action), d) in held then tx
        else tx.(pc := ResolveReady, locks := tx.locks + {AudKey(c.auditId), AudPair(AuditKindFor(c.action), d)},
                 writes := tx.writes.(audits := map[c.auditId := ManualAudit(tx.writes.reviews[p], c)]))
    case _ => tx
  }

  /** What the caller is told from the row read under its idempotency key. */
  function ReplayOf(existing: Payment, candidate: Payment): CreateResult {
    if existing.fingerprint != candidate.fingerprint then IdempotencyConflict else ReplayedPayment(existing)
  }

  ghost function CreateStatement(db: Db, tx: Tx, held: set<Key>): Tx
    requires tx.job.CreateJob?
  {
    var candidate, event := tx.job.candidate, tx.job.event;
    match tx.pc
    case Begin =>
      if KeyTaken(db.payments, candidate.idempotencyKey) then tx.(pc := KeySeen)
      else if IdemKey(candidate.idempotencyKey) in held then tx
      else if candidate.id in db.payments then DenyCreate(tx, CreateConstraint)
      else if PayRow(candidate.id) in held then tx
      else tx.(pc := PaymentIn, locks := tx.locks + {IdemKey(candidate.idempotencyKey), PayRow(candidate.id)},
               writes := tx.writes.(payments := map[candidate.id := candidate]))
    case KeySeen =>
      if !KeyTaken(db.payments, candidate.idempotencyKey) then tx
      else
        var p :| p in db.payments && db.payments[p].idempotencyKey == candidate.idempotencyKey;
        DenyCreate(tx, ReplayOf(db.payments[p], candidate))
    case PaymentIn =>
      if OutKey(event.id) in held then tx
      else if event.id in db.outbox then DenyCreate(tx, CreateConstraint)
      else tx.(pc := CreateReady, locks := tx.locks + {OutKey(event.id)},
               writes := tx.writes.(outbox := map[event.id := NewRow(event, tx.job.now)]))
    case _ => tx
  }

  ghost function Statement(db: Db, tx: Tx, held: set<Key>): Tx {
    match tx.job
    case ApplyJob(_, _) => ApplyStatement(db, tx, held)
    case RejectJob(_, _) => RejectStatement(db, tx, held)
    case ResolveJob(_) => ResolveStatement(db, tx, held)
    case CreateJob(_, _, _) => CreateStatement(db, tx, held)
  }

  predicate CanCommit(pc: Pc) {
    pc in {SawAccepted, SawRejected, ReplayReady, ApplyOrphan, ApplyReady, RejectReady, ResolveReady, CreateReady}
  }

  /** What a committing transaction reports to its caller. */
  function Reported(tx: Tx): Outcome
    requires CanCommit(tx.pc)
  {
    match tx.job
    case ApplyJob(_, _) => DidApply(Accepted(tx.pc.ApplyReady? || tx.pc.ApplyOrphan?))
    case RejectJob(_, _) => DidReject(None)
    case ResolveJob(c) =>
      DidResolve(if c.paymentId in tx.writes.reviews then Resolved(tx.writes.reviews[c.paymentId]) else NotFound)
    case CreateJob(candidate, _, _) => DidCreate(NewPayment(candidate))
  }

  // ---------------------------------------------------------------- the system

  /** One answered call: committed, or sent back without a trace in the tables. */
  datatype Entry = Entry(job: Job, outcome: Outcome, committed: bool)
  datatype Sys = Sys(db: Db, txs: map<nat, Tx>, log: seq<Entry>)

  datatype Move = Start(t: nat, job: Job) | Run(t: nat) | Commit(t: nat) | Abort(t: nat)

  function Held(txs: map<nat, Tx>, t: nat): set<Key> {
    set u, k | u in txs && u != t && k in txs[u].locks :: k
  }

  ghost predicate Enabled(s: Sys, m: Move) {
    match m
    case Start(t, job) => t !in s.txs && JobOk(job)
    case Run(t) => t in s.txs
    case Commit(t) => t in s.txs && CanCommit(s.txs[t].pc)
    case Abort(t) => t in s.txs
  }

  /** The answer a statement sent the caller back with. */
  function Answered(before: Tx, after: Tx): seq<Entry> {
    if after.pc.Denied? && !before.pc.Denied? then [Entry(before.job, after.pc.said, false)] else []
  }

  ghost function Moved(s: Sys, m: Move): Sys
    requires Enabled(s, m)
  {
    match m
    case Start(t, job) => s.(txs := s.txs[t := Tx(job, Begin, {}, EMPTY_DB)])
    case Run(t) =>
      var n := Statement(s.db, s.txs[t], Held(s.txs, t));
      s.(txs := s.txs[t := n], log := s.log + Answered(s.txs[t], n))
    case Abort(t) => s.(txs := s.txs - {t})
    case Commit(t) =>
      Sys(Overlay(s.db, s.txs[t].writes), s.txs - {t}, s.log + [Entry(s.txs[t].job, Reported(s.txs[t]), true)])
  }

  ghost predicate Steps(s: Sys, moves: seq<Move>)
    decreases moves
  {
    moves == [] || (Enabled(s, moves[0]) && Steps(Moved(s, moves[0]), moves[1..]))
  }

  ghost function Reached(s: Sys, moves: seq<Move>): Sys
    requires Steps(s, moves)
    decreases moves
  {
    if moves == [] then s else Reached(Moved(s, moves[0]), moves[1..])
  }

  /** A job on its own; a database whose idempotency keys clash cannot exist and is left alone. */
  ghost function Alone(db: Db, job: Job): (Db, Outcome) {
    if UniqueKeys(db.payments) then Atomic(db, job) else (db, DidReject(None))
  }

  /** The tables the committed jobs of the log leave when they run one after the other. */
  ghost function OneByOne(db: Db, log: seq<Entry>): Db {
    if log == [] then db
    else
      var before, last := OneByOne(db, log[..|log| - 1]), log[|log| - 1];
      if last.committed then Alone(before, last.job).0 else before
  }

  /** The refusals of the statements after the receipt lookup. */
  const AFTER_LOOKUP := {NoPayment, CastError, DecisionClash, StateClash, Constraint}

  /** How a refusal of Apply may differ from the atomic one on the tables of the deciding statement:
      a receipt for the coordinate appeared after the transaction had looked for one, or the clash with
      another decision showed as a unique violation or after the status check. */
  predicate AnswerFits(db: Db, at: Coord, atomic: StoreError, said: StoreError) {
    || said == atomic
    || (atomic == SourceConflict && at in db.receipts && said in AFTER_LOOKUP)
    || (atomic == DecisionClash && said in {StateClash, Constraint})
  }

  /** What a caller sent back was told, against the atomic run on the tables of the deciding statement.
      A Reject whose insert met a receipt that just appeared fails and is retried; a Resolve whose update
      saw no queue row may read one that was enqueued in between, with the very version it asked for. */
  ghost predicate Explains(db: Db, job: Job, said: Outcome) {
    match job
    case ApplyJob(e, r) =>
      && said.DidApply? && said.applied.Refused? && ApplyTx(db, e, r).1.Refused?
      && AnswerFits(db, r.at, ApplyTx(db, e, r).1.error, said.applied.error)
    case RejectJob(r, code) =>
      && said.DidReject? && said.error.Some?
      && (RejectTx(db, r, code).1 == said.error || (said.error.value == Constraint && r.at in db.receipts))
    case ResolveJob(c) =>
      && said.DidResolve? && !said.resolved.Resolved?
      && (ResolveTx(db, c).1 == said.resolved ||
          (said.resolved == VersionConflict(c.expectedVersion) && Enqueued(db, c)))
    case CreateJob(x, event, now) =>
      && said.DidCreate? && !said.created.NewPayment? && UniqueKeys(db.payments) &&
          CreateTx(db, x, event, now).1 == said.created
  }

  predicate Enqueued(db: Db, c: ResolveCommand) {
    c.paymentId in db.reviews && db.reviews[c.paymentId].status.Waiting? &&
        db.reviews[c.paymentId].version == c.expectedVersion
  }

  /** Every committed caller got the answer of the serial run, every other one an explained answer. */
  ghost predicate Fits(db: Db, entry: Entry) {
    if entry.committed then Alone(db, entry.job).1 == entry.outcome else Explains(db, entry.job, entry.outcome)
  }

  ghost predicate SameOutcomes(db: Db, log: seq<Entry>) {
    forall i | 0 <= i < |log| :: Fits(OneByOne(db, log[..i]), log[i])
  }

  // ---------------------------------------------------------------- what a transaction relies on

  ghost predicate PaymentHeld(db: Db, tx: Tx, p: Uuid, s: Status) {
    PayRow(p) in tx.locks && p in db.payments && db.payments[p].status == s
  }

  ghost predicate DecisionHeld(db: Db, tx: Tx, e: Event) {
    && DecKey(e.payload.decisionId) in tx.locks && e.payload.decisionId !in db.decisions
    && SrcKey(e.payload.sourceEventId) in tx.locks && !SourceTaken(db.decisions, e.payload.sourceEventId)
  }

  ghost predicate AuditHeld(db: Db, tx: Tx, a: Uuid, kind: AuditKind, d: Uuid) {
    && AudKey(a) in tx.locks && a !in db.audits
    && AudPair(kind, d) in tx.locks && !AuditTaken(db.audits, kind, d)
  }

  ghost predicate QueueHeld(db: Db, tx: Tx, e: Event) {
    e.payload.verdict.Review? ==>
      && QueueKey(e.payload.paymentId) in tx.locks && e.payload.paymentId !in db.reviews
      && QueueDec(e.payload.decisionId) in tx.locks && !QueuedDecision(db.reviews, e.payload.decisionId)
  }

  ghost predicate ReceiptHeld(db: Db, tx: Tx, at: Coord) {
    CoordKey(at) in tx.locks && at !in db.receipts
  }

  ghost predicate Settled(db: Db, r: Record, rejected: bool) {
    var x := ExistingReceipt(db, r);
    ValidSource(r.at) && x.Found? && x.disposition.Rejected? == rejected
  }

  ghost predicate SameDecision(db: Db, e: Event) {
    && e.payload.paymentId in db.payments
    && e.payload.decisionId in db.decisions && db.decisions[e.payload.decisionId] == e
  }

  /** This very event is not the recorded decision of its id. */
  ghost predicate NotRecorded(db: Db, e: Event) {
    e.payload.decisionId !in db.decisions || db.decisions[e.payload.decisionId] != e
  }

  /** How far the first acceptance of a decision has got, and the writes it has pending. */
  ghost predicate Recording(db: Db, tx: Tx, stage: nat)
    requires tx.job.ApplyJob?
  {
    var e, r := tx.job.e, tx.job.r;
    var p, d := e.payload.paymentId, e.payload.decisionId;
    && ValidSource(r.at)
    && PaymentHeld(db, tx, p, PendingRisk) && DecisionHeld(db, tx, e)
    && (stage >= 3 ==> AuditHeld(db, tx, d, RiskDecisionRecorded, d))
    && (stage >= 4 ==> QueueHeld(db, tx, e))
    && (stage >= 5 ==> ReceiptHeld(db, tx, r.at))
    && tx.writes == Db(
         if stage >= 2 then map[p := db.payments[p].(status := StatusFor(e.payload.verdict))] else map[],
         map[],
         map[d := e],
         if stage >= 5 then map[r.at := AcceptedReceipt(e, r, Applied)] else map[],
         if stage >= 3 then map[d := DecisionAudit(e)] else map[],
         if stage >= 4 && e.payload.verdict.Review? then map[p := NewQueueRow(e)] else map[])
  }

  ghost predicate ApplyInv(db: Db, tx: Tx)
    requires tx.job.ApplyJob?
  {
    var e, r := tx.job.e, tx.job.r;
    var p := e.payload.paymentId;
    match tx.pc
    case Begin => tx.writes == EMPTY_DB
    case ReceiptAbsent => tx.writes == EMPTY_DB && ValidSource(r.at)
    case SawAccepted => tx.writes == EMPTY_DB && Settled(db, r, false)
    case Locked(s) => tx.writes == EMPTY_DB && ValidSource(r.at) && PaymentHeld(db, tx, p, s)
    case Unseen(s) => tx.writes == EMPTY_DB && ValidSource(r.at) && PaymentHeld(db, tx, p, s) && NotRecorded(db, e)
    case SourceFree => tx.writes == EMPTY_DB && ValidSource(r.at) && PaymentHeld(db, tx, p, PendingRisk) &&
        NotRecorded(db, e)
    case SawSame => tx.writes == EMPTY_DB && ValidSource(r.at) && SameDecision(db, e)
    case ReplayClash => tx.writes == EMPTY_DB && ValidSource(r.at) && SameDecision(db, e) && r.at in db.receipts
    case ReplayReady =>
      && ValidSource(r.at) && SameDecision(db, e) && ReceiptHeld(db, tx, r.at)
      && tx.writes == EMPTY_DB.(receipts := map[r.at := AcceptedReceipt(e, r, Replayed)])
    case DecisionIn => Recording(db, tx, 1)
    case StatusSet => Recording(db, tx, 2)
    case AuditIn => Recording(db, tx, 3)
    case QueueIn => Recording(db, tx, 4)
    case ApplyClash => Recording(db, tx, 4) && r.at in db.receipts
    case ApplyReady => Recording(db, tx, 5)
    case Denied(_) => true
    case _ => false
  }

  ghost predicate RejectInv(db: Db, tx: Tx)
    requires tx.job.RejectJob?
  {
    var r := tx.job.rejected;
    match tx.pc
    case Begin => tx.writes == EMPTY_DB
    case ReceiptAbsent => tx.writes == EMPTY_DB && ValidSource(r.at)
    case SawRejected => tx.writes == EMPTY_DB && Settled(db, r, true)
    case RejectReady =>
      && ValidSource(r.at) && !r.value.Null? && ReceiptHeld(db, tx, r.at)
      && tx.writes == EMPTY_DB.(receipts := map[r.at := RejectedReceipt(r, tx.job.code)])
    case Denied(_) => true
    case _ => false
  }

  /** How far a review resolution has got. */
  ghost predicate Resolving(db: Db, tx: Tx, stage: nat)
    requires tx.job.ResolveJob?
  {
    var c := tx.job.c;
    var p := c.paymentId;
    && QueueKey(p) in tx.locks && p in db.reviews
    && db.reviews[p].status.Waiting? && db.reviews[p].version == c.expectedVersion
    && (stage >= 2 ==> PaymentHeld(db, tx, p, UnderReview))
    && (stage >= 3 ==> AuditHeld(db, tx, c.auditId, AuditKindFor(c.action), db.reviews[p].decisionId))
    && tx.writes == Db(
         if stage >= 2 then map[p := db.payments[p].(status := PaymentStatusFor(c.action))] else map[],
         map[], map[], map[],
         if stage >= 3 then map[c.auditId := ManualAudit(db.reviews[p], c)] else map[],
         map[p := ResolvedRow(db.reviews[p], c)])
  }

  ghost predicate ResolveInv(db: Db, tx: Tx)
    requires tx.job.ResolveJob?
  {
    match tx.pc
    case Begin => tx.writes == EMPTY_DB
    case RowMissed(found) => tx.writes == EMPTY_DB &&
        (found ==> tx.job.c.paymentId in db.reviews && !Enqueued(db, tx.job.c))
    case RowResolved => Resolving(db, tx, 1)
    case PaymentMoved => Resolving(db, tx, 2)
    case ResolveReady => Resolving(db, tx, 3)
    case Denied(_) => true
    case _ => false
  }

  ghost predicate Creating(db: Db, tx: Tx, stage: nat)
    requires tx.job.CreateJob?
  {
    var x, event := tx.job.candidate, tx.job.event;
    && IdemKey(x.idempotencyKey) in tx.locks && !KeyTaken(db.payments, x.idempotencyKey)
    && PayRow(x.id) in tx.locks && x.id !in db.payments
    && (stage >= 2 ==> OutKey(event.id) in tx.locks && event.id !in db.outbox)
    && tx.writes == EMPTY_DB.(payments := map[x.id := x],
                              outbox := if stage >= 2 then map[event.id := NewRow(event, tx.job.now)] else map[])
  }

  ghost predicate CreateInv(db: Db, tx: Tx)
    requires tx.job.CreateJob?
  {
    match tx.pc
    case Begin => tx.writes == EMPTY_DB
    case KeySeen => tx.writes == EMPTY_DB && KeyTaken(db.payments, tx.job.candidate.idempotencyKey)
    case PaymentIn => Creating(db, tx, 1)
    case CreateReady => Creating(db, tx, 2)
    case Denied(_) => true
    case _ => false
  }

  ghost predicate TxInv(db: Db, tx: Tx) {
    && JobOk(tx.job)
    && match tx.job
       case ApplyJob(_, _) => ApplyInv(db, tx)
       case RejectJob(_, _) => RejectInv(db, tx)
       case ResolveJob(_) => ResolveInv(db, tx)
       case CreateJob(_, _, _) => CreateInv(db, tx)
  }

  // ---------------------------------------------------------------- a statement keeps its own invariant

  predicate EarlyPc(pc: Pc) {
    pc in {Begin, ReceiptAbsent, SawSame, ReplayClash, SourceFree} || pc.Locked? || pc.Unseen?
  }

  lemma EarlyStatementKeeps(db: Db, tx: Tx, held: set<Key>)
    requires tx.job.ApplyJob? && TxInv(db, tx) && EarlyPc(tx.pc)
    ensures TxInv(db, ApplyStatement(db, tx, held))
  {
    hide ValidSource, SourceTaken;
  }

  lemma LateStatementKeeps(db: Db, tx: Tx, held: set<Key>)
    requires tx.job.ApplyJob? && TxInv(db, tx) && !EarlyPc(tx.pc)
    requires tx.pc.ApplyClash? ==> !Settled(db, tx.job.r, false)
    ensures TxInv(db, ApplyStatement(db, tx, held))
  {
    hide *;
    if tx.pc.DecisionIn? || tx.pc.StatusSet? { WriteStatementKeeps(db, tx, held); } else { LastStatementKeeps(db, tx,
        held); }
  }

  lemma WriteStatementKeeps(db: Db, tx: Tx, held: set<Key>)
    requires tx.job.ApplyJob? && TxInv(db, tx) && (tx.pc.DecisionIn? || tx.pc.StatusSet?)
    ensures TxInv(db, ApplyStatement(db, tx, held))
  {
    hide ValidSource, SourceTaken, AuditTaken, QueuedDecision, Carries;
  }

  lemma LastStatementKeeps(db: Db, tx: Tx, held: set<Key>)
    requires tx.job.ApplyJob? && TxInv(db, tx) && !EarlyPc(tx.pc) && !tx.pc.DecisionIn? && !tx.pc.StatusSet?
    requires tx.pc.ApplyClash? ==> !Settled(db, tx.job.r, false)
    ensures TxInv(db, ApplyStatement(db, tx, held))
  {
    hide ValidSource, SourceTaken, AuditTaken, QueuedDecision, Carries;
  }

  lemma ApplyStatementKeeps(db: Db, tx: Tx, held: set<Key>)
    requires DbInv(db) && tx.job.ApplyJob? && TxInv(db, tx)
    ensures TxInv(db, ApplyStatement(db, tx, held))
  {
    if EarlyPc(tx.pc) {
      hide *;
      EarlyStatementKeeps(db, tx, held);
    } else {
      if tx.pc.ApplyClash? { hide DbInv, ApplyStatement, Recording; NoOrphan(db, tx); }
      hide *;
      LateStatementKeeps(db, tx, held);
    }
  }

  /** A first acceptance never meets an accepted receipt for its own record: that receipt's decision
      would already be recorded, and this transaction holds the decision's index entry free. */
  lemma NoOrphan(db: Db, tx: Tx)
    requires DbInv(db) && tx.job.ApplyJob? && JobOk(tx.job) && Recording(db, tx, 4)
    ensures !Settled(db, tx.job.r, false)
  {
    hide Outboxed, DecisionsUnique, Decided, Queued, Audited, ValidSource;
    if tx.job.r.at in db.receipts { assert ReceiptOk(db.decisions, db.receipts[tx.job.r.at]); }
  }

  lemma StatementKeeps(db: Db, tx: Tx, held: set<Key>)
    requires DbInv(db) && TxInv(db, tx)
    ensures TxInv(db, Statement(db, tx, held))
  {
    hide *;
    if tx.job.ApplyJob? { ApplyRunKeeps(db, tx, held); } else { OtherRunKeeps(db, tx, held); }
  }

  lemma ApplyRunKeeps(db: Db, tx: Tx, held: set<Key>)
    requires DbInv(db) && tx.job.ApplyJob? && TxInv(db, tx)
    ensures TxInv(db, Statement(db, tx, held))
  {
    hide DbInv, TxInv, ApplyStatement;
    ApplyStatementKeeps(db, tx, held);
  }

  lemma OtherRunKeeps(db: Db, tx: Tx, held: set<Key>)
    requires !tx.job.ApplyJob? && TxInv(db, tx)
    ensures TxInv(db, Statement(db, tx, held))
  {
    hide *;
    if tx.job.RejectJob? { RejectRunKeeps(db, tx, held); }
    else if tx.job.ResolveJob? { ResolveRunKeeps(db, tx, held); }
    else { CreateRunKeeps(db, tx, held); }
  }

  lemma RejectRunKeeps(db: Db, tx: Tx, held: set<Key>)
    requires tx.job.RejectJob? && TxInv(db, tx)
    ensures TxInv(db, Statement(db, tx, held))
  {
    hide ValidSource, ApplyInv, ResolveInv, CreateInv, ApplyStatement, ResolveStatement, CreateStatement;
  }

  lemma CreateRunKeeps(db: Db, tx: Tx, held: set<Key>)
    requires tx.job.CreateJob? && TxInv(db, tx)
    ensures TxInv(db, Statement(db, tx, held))
  {
    hide ApplyInv, RejectInv, ResolveInv, Announces, KeyTaken, ApplyStatement, RejectStatement, ResolveStatement;
  }

  lemma ResolveRunKeeps(db: Db, tx: Tx, held: set<Key>)
    requires tx.job.ResolveJob? && TxInv(db, tx)
    ensures TxInv(db, Statement(db, tx, held))
  {
    hide AuditTaken, ApplyInv, RejectInv, CreateInv, ApplyStatement, RejectStatement, CreateStatement;
  }

  // ---------------------------------------------------------------- what the callers sent back are told

  /** An accepted receipt of the transaction's own record means its event is recorded. */
  lemma AcceptedMeansRecorded(db: Db, e: Event, r: Record)
    requires DbInv(db) && Carries(r, e) && ExistingReceipt(db, r).Found? && ExistingReceipt(db, r) != Found(Rejected)
    ensures !NotRecorded(db, e) && e.payload.paymentId in db.payments
  {
    hide Outboxed, DecisionsUnique, Queued, Audited;
    assert ReceiptOk(db.decisions, db.receipts[r.at]);
    hide Receipted;
  }

  lemma EarlyRefusalExplained(db: Db, tx: Tx, held: set<Key>)
    requires DbInv(db) && tx.job.ApplyJob? && TxInv(db, tx) && EarlyPc(tx.pc)
    requires ApplyStatement(db, tx, held).pc.Denied?
    ensures Explains(db, tx.job, ApplyStatement(db, tx, held).pc.said)
  {
    hide DbInv, ValidSource, SourceTaken, RoomFor;
    var e, r := tx.job.e, tx.job.r;
    if ExistingReceipt(db, r).Found? && ExistingReceipt(db, r) != Found(Rejected) { AcceptedMeansRecorded(db, e, r); }
  }

  lemma LateRefusalExplained(db: Db, tx: Tx, held: set<Key>)
    requires DbInv(db) && tx.job.ApplyJob? && TxInv(db, tx) && !EarlyPc(tx.pc) && !tx.pc.Denied?
    requires ApplyStatement(db, tx, held).pc.Denied?
    ensures Explains(db, tx.job, ApplyStatement(db, tx, held).pc.said)
  {
    hide DbInv, ValidSource, SourceTaken, AuditTaken, QueuedDecision;
    var e, r := tx.job.e, tx.job.r;
    if ExistingReceipt(db, r).Found? && ExistingReceipt(db, r) != Found(Rejected) { AcceptedMeansRecorded(db, e, r); }
  }

  lemma RejectRefusalExplained(db: Db, tx: Tx, held: set<Key>)
    requires tx.job.RejectJob? && TxInv(db, tx) && !tx.pc.Denied? && RejectStatement(db, tx, held).pc.Denied?
    ensures Explains(db, tx.job, RejectStatement(db, tx, held).pc.said)
  {
    hide ValidSource;
  }

  /** The payment of a waiting queue row is under review, whoever holds it locked: from here a resolution
      never runs into the payment state conflict. */
  lemma ResolvingIsReviewed(db: Db, tx: Tx)
    requires DbInv(db) && tx.job.ResolveJob? && Resolving(db, tx, 1)
    ensures tx.job.c.paymentId in db.payments && db.payments[tx.job.c.paymentId].status.UnderReview?
  {
    hide Outboxed, Audited, Receipted, DecisionsUnique;
    assert QueueRowOk(db.decisions, tx.job.c.paymentId, db.reviews[tx.job.c.paymentId]);
  }

  lemma ResolveRefusalExplained(db: Db, tx: Tx, held: set<Key>)
    requires DbInv(db) && tx.job.ResolveJob? && TxInv(db, tx) && !tx.pc.Denied? &&
        ResolveStatement(db, tx, held).pc.Denied?
    ensures Explains(db, tx.job, ResolveStatement(db, tx, held).pc.said)
    ensures ResolveStatement(db, tx, held).pc.said != DidResolve(ReviewStateConflict)
  {
    hide DbInv, AuditTaken;
    if tx.pc.RowResolved? { ResolvingIsReviewed(db, tx); }
  }

  lemma CreateRefusalExplained(db: Db, tx: Tx, held: set<Key>)
    requires UniqueKeys(db.payments) && tx.job.CreateJob? && TxInv(db, tx) && !tx.pc.Denied?
    requires CreateStatement(db, tx, held).pc.Denied?
    ensures Explains(db, tx.job, CreateStatement(db, tx, held).pc.said)
  {
    hide Announces;
  }

  lemma StatementExplains(db: Db, tx: Tx, held: set<Key>)
    requires DbInv(db) && TxInv(db, tx) && !tx.pc.Denied? && Statement(db, tx, held).pc.Denied?
    ensures Explains(db, tx.job, Statement(db, tx, held).pc.said)
  {
    KeysAndJob(db, tx);
    hide DbInv, TxInv, Explains, UniqueKeys, ApplyStatement, RejectStatement, ResolveStatement, CreateStatement;
    match tx.job
    case ApplyJob(_, _) =>
      if EarlyPc(tx.pc) { EarlyRefusalExplained(db, tx, held); } else { LateRefusalExplained(db, tx, held); }
    case RejectJob(_, _) => RejectRefusalExplained(db, tx, held);
    case ResolveJob(_) => ResolveRefusalExplained(db, tx, held);
    case CreateJob(_, _, _) => CreateRefusalExplained(db, tx, held);
  }

  // ---------------------------------------------------------------- committing is running alone

  lemma OverlayLaws<K, V>(m: map<K, V>, k: K, v: V)
    ensures m + map[] == m && m + map[k := v] == m[k := v]
  {
  }

  lemma OverlayNothing(db: Db)
    ensures db.payments + map[] == db.payments && db.outbox + map[] == db.outbox && db.decisions + map[] == db.decisions
    ensures db.audits + map[] == db.audits && db.reviews + map[] == db.reviews && db.receipts + map[] == db.receipts
    ensures Overlay(db, EMPTY_DB) == db
  {
  }

  lemma RecordedOverlay(db: Db, tx: Tx)
    requires tx.job.ApplyJob? && Recording(db, tx, 5)
    ensures Overlay(db, tx.writes) == Recorded(db, tx.job.e, tx.job.r)
  {
    hide ValidSource, DecisionHeld, AuditHeld, QueueHeld, ReceiptHeld;
    var e, r := tx.job.e, tx.job.r;
    var p, d := e.payload.paymentId, e.payload.decisionId;
    OverlayNothing(db);
    OverlayLaws(db.decisions, d, e);
    OverlayLaws(db.receipts, r.at, AcceptedReceipt(e, r, Applied));
    OverlayLaws(db.audits, d, DecisionAudit(e));
    OverlayLaws(db.reviews, p, NewQueueRow(e));
    OverlayLaws(db.payments, p, db.payments[p].(status := StatusFor(e.payload.verdict)));
  }

  lemma ReplayOverlay(db: Db, tx: Tx)
    requires tx.job.ApplyJob? && ApplyInv(db, tx) && tx.pc in {SawAccepted, ReplayReady}
    ensures var e, r := tx.job.e, tx.job.r;
            Overlay(db, tx.writes) ==
            if tx.pc.ReplayReady? then db.(receipts := db.receipts[r.at := AcceptedReceipt(e, r, Replayed)]) else db
  {
    hide ValidSource, SameDecision, Settled, ReceiptHeld, Recording, PaymentHeld;
    OverlayNothing(db);
    OverlayLaws(db.receipts, tx.job.r.at, AcceptedReceipt(tx.job.e, tx.job.r, Replayed));
  }

  lemma ApplyCommits(db: Db, tx: Tx)
    requires tx.job.ApplyJob? && TxInv(db, tx) && CanCommit(tx.pc)
    ensures ApplyTx(db, tx.job.e, tx.job.r) == (Overlay(db, tx.writes), Accepted(tx.pc.ApplyReady?))
  {
    hide ValidSource, SourceTaken, AuditTaken, QueuedDecision, Overlay, Recorded, Recording, ApplyTx, SameDecision;
    hide JobOk;
    if tx.pc.ApplyReady? {
      RecordedOverlay(db, tx);
      RecordedApplies(db, tx);
    } else {
      ReplayOverlay(db, tx);
      ReplayApplies(db, tx);
    }
  }

  lemma RecordedApplies(db: Db, tx: Tx)
    requires tx.job.ApplyJob? && Recording(db, tx, 5)
    ensures tx.job.e.payload.paymentId in db.payments
    ensures ApplyTx(db, tx.job.e, tx.job.r) == (Recorded(db, tx.job.e, tx.job.r), Accepted(true))
  {
    hide ValidSource, SourceTaken, AuditTaken, QueuedDecision, Recorded;
  }

  lemma ReplayApplies(db: Db, tx: Tx)
    requires tx.job.ApplyJob? && ApplyInv(db, tx) && tx.pc in {SawAccepted, ReplayReady}
    ensures ApplyTx(db, tx.job.e, tx.job.r) ==
              (if tx.pc.ReplayReady? then db.(receipts := db.receipts[tx.job.r.at := AcceptedReceipt(tx.job.e,
                  tx.job.r, Replayed)]) else db, Accepted(false))
  {
    hide ValidSource, SourceTaken, RoomFor, Recording;
  }

  function AfterResolve(db: Db, c: ResolveCommand): Db
    requires c.paymentId in db.reviews && c.paymentId in db.payments
  {
    var p, q := c.paymentId, db.reviews[c.paymentId];
    db.(reviews := db.reviews[p := ResolvedRow(q, c)],
        payments := db.payments[p := db.payments[p].(status := PaymentStatusFor(c.action))],
        audits := db.audits[c.auditId := ManualAudit(q, c)])
  }

  lemma ResolveOverlay(db: Db, tx: Tx)
    requires tx.job.ResolveJob? && Resolving(db, tx, 3)
    ensures Overlay(db, tx.writes) == AfterResolve(db, tx.job.c)
  {
    hide AuditHeld;
    var c, p := tx.job.c, tx.job.c.paymentId;
    OverlayNothing(db);
    OverlayLaws(db.reviews, p, ResolvedRow(db.reviews[p], c));
    OverlayLaws(db.payments, p, db.payments[p].(status := PaymentStatusFor(c.action)));
    OverlayLaws(db.audits, c.auditId, ManualAudit(db.reviews[p], c));
  }

  lemma ResolveCommits(db: Db, tx: Tx)
    requires tx.job.ResolveJob? && TxInv(db, tx) && CanCommit(tx.pc)
    ensures ResolveTx(db, tx.job.c) == (Overlay(db, tx.writes),
        Resolved(ResolvedRow(db.reviews[tx.job.c.paymentId], tx.job.c)))
  {
    ResolveOverlay(db, tx);
    hide AuditTaken, Overlay;
  }

  lemma RejectCommits(db: Db, tx: Tx)
    requires tx.job.RejectJob? && TxInv(db, tx) && CanCommit(tx.pc)
    ensures RejectTx(db, tx.job.rejected, tx.job.code) == (Overlay(db, tx.writes), None)
  {
    hide ValidSource;
    var r := tx.job.rejected;
    OverlayLaws(db.receipts, r.at, RejectedReceipt(r, tx.job.code));
    OverlayNothing(db);
  }

  lemma CreateCommits(db: Db, tx: Tx)
    requires tx.job.CreateJob? && TxInv(db, tx) && CanCommit(tx.pc) && UniqueKeys(db.payments)
    ensures CreateTx(db, tx.job.candidate, tx.job.event, tx.job.now) == (Overlay(db, tx.writes),
        NewPayment(tx.job.candidate))
  {
    hide KeyTaken;
    var x, event := tx.job.candidate, tx.job.event;
    OverlayLaws(db.payments, x.id, x);
    OverlayLaws(db.outbox, event.id, NewRow(event, tx.job.now));
    OverlayNothing(db);
  }

  lemma CommitIsAlone(db: Db, tx: Tx)
    requires UniqueKeys(db.payments) && TxInv(db, tx) && CanCommit(tx.pc)
    ensures Alone(db, tx.job) == (Overlay(db, tx.writes), Reported(tx))
  {
    if tx.job.ApplyJob? {
      assert !tx.pc.ApplyOrphan?;
      hide TxInv, ApplyTx, Overlay, UniqueKeys;
      ApplyCommits(db, tx);
    } else if tx.job.RejectJob? {
      hide TxInv, RejectTx, Overlay, UniqueKeys;
      RejectCommits(db, tx);
    } else if tx.job.ResolveJob? {
      assert tx.job.c.paymentId in tx.writes.reviews &&
          tx.writes.reviews[tx.job.c.paymentId] == ResolvedRow(db.reviews[tx.job.c.paymentId], tx.job.c);
      hide TxInv, ResolveTx, Overlay, UniqueKeys;
      ResolveCommits(db, tx);
    } else {
      hide TxInv, CreateTx, Overlay, UniqueKeys;
      CreateCommits(db, tx);
    }
  }

  lemma AloneKeeps(db: Db, job: Job)
    requires DbInv(db) && JobOk(job)
    ensures DbInv(Alone(db, job).0)
  {
    match job
    case ApplyJob(e, r) => { hide DbInv, ApplyTx; ApplyKeeps(db, e, r); }
    case RejectJob(r, code) => { hide DbInv, RejectTx; RejectKeeps(db, r, code); }
    case ResolveJob(c) => { hide DbInv, ResolveTx; ResolveKeeps(db, c); }
    case CreateJob(x, event, now) => { hide DbInv, CreateTx; CreateKeeps(db, x, event, now); }
  }

  // ---------------------------------------------------------------- other transactions' commits

  ghost predicate PaymentsExtend(m: Payments, n: Payments, k: set<Key>) {
    && (forall p | p in m :: p in n && (PayRow(p) in k || n[p] == m[p]) && n[p].idempotencyKey == m[p].idempotencyKey)
    && (forall p | p in n && p !in m :: PayRow(p) in k && IdemKey(n[p].idempotencyKey) in k)
  }

  ghost predicate DecisionsExtend(m: Decisions, n: Decisions, k: set<Key>) {
    && (forall d | d in m :: d in n && n[d] == m[d])
    && (forall d | d in n && d !in m ::
          DecKey(d) in k && SrcKey(n[d].payload.sourceEventId) in k && PayRow(n[d].payload.paymentId) in k)
  }

  ghost predicate AuditsExtend(m: Audits, n: Audits, k: set<Key>) {
    && (forall a | a in m :: a in n && n[a] == m[a])
    && (forall a | a in n && a !in m :: AudKey(a) in k && AudPair(n[a].kind, n[a].decisionId) in k)
  }

  ghost predicate ReviewsExtend(m: Reviews, n: Reviews, k: set<Key>) {
    && (forall p | p in m :: p in n && (QueueKey(p) in k || n[p] == m[p]) && n[p].decisionId == m[p].decisionId)
    && (forall p | p in m :: n[p] == m[p] || (m[p].status.Waiting? && !n[p].status.Waiting?))
    && (forall p | p in n && p !in m :: QueueKey(p) in k && QueueDec(n[p].decisionId) in k)
  }

  ghost predicate ReceiptsExtend(m: Receipts, n: Receipts, k: set<Key>) {
    && (forall c | c in m :: c in n && n[c] == m[c])
    && (forall c | c in n && c !in m :: CoordKey(c) in k)
  }

  ghost predicate OutboxExtends(m: Outbox, n: Outbox, k: set<Key>) {
    forall o | o in n && o !in m :: OutKey(o) in k
  }

  /** Nothing disappears, and whatever changes is covered by the keys `k`. */
  ghost predicate Extends(db: Db, n: Db, k: set<Key>) {
    && PaymentsExtend(db.payments, n.payments, k) && OutboxExtends(db.outbox, n.outbox, k)
    && DecisionsExtend(db.decisions, n.decisions, k) && ReceiptsExtend(db.receipts, n.receipts, k)
    && AuditsExtend(db.audits, n.audits, k) && ReviewsExtend(db.reviews, n.reviews, k)
  }

  lemma ReceiptExtends(db: Db, at: Coord, t: Receipt, k: set<Key>)
    requires at in db.receipts || CoordKey(at) in k
    ensures Extends(db, db, k)
    ensures at !in db.receipts ==> Extends(db, db.(receipts := db.receipts[at := t]), k)
  {
  }

  lemma InsertsExtend(db: Db, e: Event, r: Record, k: set<Key>)
    requires DecKey(e.payload.decisionId) in k && SrcKey(e.payload.sourceEventId) in k &&
        PayRow(e.payload.paymentId) in k
    requires AudKey(e.payload.decisionId) in k && AudPair(RiskDecisionRecorded, e.payload.decisionId) in k &&
        CoordKey(r.at) in k
    requires e.payload.decisionId !in db.decisions && e.payload.decisionId !in db.audits && r.at !in db.receipts
    ensures DecisionsExtend(db.decisions, db.decisions[e.payload.decisionId := e], k)
    ensures AuditsExtend(db.audits, db.audits[e.payload.decisionId := DecisionAudit(e)], k)
    ensures ReceiptsExtend(db.receipts, db.receipts[r.at := AcceptedReceipt(e, r, Applied)], k)
  {
  }

  lemma RowsExtend(db: Db, e: Event, k: set<Key>)
    requires PayRow(e.payload.paymentId) in k && e.payload.paymentId in db.payments
    requires e.payload.verdict.Review? ==>
               QueueKey(e.payload.paymentId) in k && QueueDec(e.payload.decisionId) in k &&
                   e.payload.paymentId !in db.reviews
    ensures var p := e.payload.paymentId;
            PaymentsExtend(db.payments, db.payments[p := db.payments[p].(status := StatusFor(e.payload.verdict))], k)
    ensures e.payload.verdict.Review? ==>
        ReviewsExtend(db.reviews, db.reviews[e.payload.paymentId := NewQueueRow(e)], k)
    ensures ReviewsExtend(db.reviews, db.reviews, k) && OutboxExtends(db.outbox, db.outbox, k)
  {
  }

  lemma RecordedExtends(db: Db, tx: Tx)
    requires tx.job.ApplyJob? && Recording(db, tx, 5)
    ensures Extends(db, Recorded(db, tx.job.e, tx.job.r), tx.locks)
  {
    hide ValidSource, SourceTaken, AuditTaken, QueuedDecision, PaymentsExtend, OutboxExtends, DecisionsExtend;
    hide ReceiptsExtend, AuditsExtend, ReviewsExtend;
    InsertsExtend(db, tx.job.e, tx.job.r, tx.locks);
    RowsExtend(db, tx.job.e, tx.locks);
  }

  lemma ResolveExtends(db: Db, tx: Tx)
    requires tx.job.ResolveJob? && Resolving(db, tx, 3)
    ensures Extends(db, AfterResolve(db, tx.job.c), tx.locks)
  {
    hide AuditTaken;
  }

  lemma RejectExtends(db: Db, tx: Tx)
    requires tx.job.RejectJob? && TxInv(db, tx) && CanCommit(tx.pc)
    ensures Extends(db, Overlay(db, tx.writes), tx.locks)
  {
    hide ValidSource, Overlay, Extends, RejectedReceipt;
    RejectCommits(db, tx);
    var r := tx.job.rejected;
    ReceiptExtends(db, r.at, RejectedReceipt(r, tx.job.code), tx.locks);
  }

  lemma CreateExtends(db: Db, tx: Tx)
    requires tx.job.CreateJob? && TxInv(db, tx) && CanCommit(tx.pc) && UniqueKeys(db.payments)
    ensures Extends(db, Overlay(db, tx.writes), tx.locks)
  {
    hide KeyTaken, UniqueKeys, Overlay, PaymentsExtend, OutboxExtends, DecisionsExtend, ReceiptsExtend, AuditsExtend;
    hide ReviewsExtend, CreateTx, JobOk;
    CreateOverlay(db, tx);
    CreatedExtends(db, tx.job.candidate, tx.job.event, tx.job.now, tx.locks);
  }

  lemma CreatedExtends(db: Db, x: Payment, event: OutboxEvent, now: int, k: set<Key>)
    requires PayRow(x.id) in k && IdemKey(x.idempotencyKey) in k && OutKey(event.id) in k && x.id !in db.payments
    ensures PaymentsExtend(db.payments, db.payments[x.id := x], k) &&
        OutboxExtends(db.outbox, db.outbox[event.id := NewRow(event, now)], k)
    ensures DecisionsExtend(db.decisions, db.decisions, k) && ReceiptsExtend(db.receipts, db.receipts, k)
    ensures AuditsExtend(db.audits, db.audits, k) && ReviewsExtend(db.reviews, db.reviews, k)
  {
  }

  lemma CreateOverlay(db: Db, tx: Tx)
    requires tx.job.CreateJob? && CreateInv(db, tx) && CanCommit(tx.pc)
    ensures Creating(db, tx, 2)
    ensures var x, event := tx.job.candidate, tx.job.event;
            Overlay(db, tx.writes) == db.(payments := db.payments[x.id := x],
                outbox := db.outbox[event.id := NewRow(event, tx.job.now)])
  {
    hide KeyTaken;
    OverlayNothing(db);
    OverlayLaws(db.payments, tx.job.candidate.id, tx.job.candidate);
    OverlayLaws(db.outbox, tx.job.event.id, NewRow(tx.job.event, tx.job.now));
  }

  lemma ReplayExtends(db: Db, tx: Tx)
    requires tx.job.ApplyJob? && ApplyInv(db, tx) && tx.pc in {SawAccepted, ReplayReady}
    ensures Extends(db, Overlay(db, tx.writes), tx.locks)
  {
    ReplayOverlay(db, tx);
    ReceiptExtends(db, tx.job.r.at, AcceptedReceipt(tx.job.e, tx.job.r, Replayed), tx.locks);
    hide Overlay, ValidSource, SameDecision, Extends;
  }

  /** What a committing transaction changes is covered by the keys it holds. */
  lemma CommitExtends(db: Db, tx: Tx)
    requires TxInv(db, tx) && CanCommit(tx.pc) && UniqueKeys(db.payments)
    ensures Extends(db, Overlay(db, tx.writes), tx.locks)
  {
    match tx.job
    case ApplyJob(e, r) => {
      if tx.pc.ApplyReady? {
        hide Extends, Overlay, Recording;
        RecordedOverlay(db, tx);
        RecordedExtends(db, tx);
      } else {
        hide Extends, Overlay, ApplyInv;
        ReplayExtends(db, tx);
      }
    }
    case RejectJob(_, _) => { hide *; RejectExtends(db, tx); }
    case ResolveJob(c) => {
      hide Extends, Overlay, Resolving;
      ResolveOverlay(db, tx);
      ResolveExtends(db, tx);
    }
    case CreateJob(_, _, _) => { hide *; CreateExtends(db, tx); }
  }

  lemma HeldStaysHeld(db: Db, n: Db, k: set<Key>, tx: Tx, p: Uuid, s: Status, e: Event)
    requires Extends(db, n, k) && k !! tx.locks
    ensures PaymentHeld(db, tx, p, s) ==> PaymentHeld(n, tx, p, s) && n.payments[p] == db.payments[p]
    ensures DecisionHeld(db, tx, e) ==> DecisionHeld(n, tx, e)
    ensures QueueHeld(db, tx, e) ==> QueueHeld(n, tx, e)
    ensures SameDecision(db, e) ==> SameDecision(n, e)
    ensures PayRow(e.payload.paymentId) in tx.locks && NotRecorded(db, e) ==> NotRecorded(n, e)
  {
  }

  lemma FreeStaysFree(db: Db, n: Db, k: set<Key>, tx: Tx, a: Uuid, kind: AuditKind, d: Uuid, at: Coord)
    requires Extends(db, n, k) && k !! tx.locks
    ensures AuditHeld(db, tx, a, kind, d) ==> AuditHeld(n, tx, a, kind, d)
    ensures ReceiptHeld(db, tx, at) ==> ReceiptHeld(n, tx, at)
  {
  }

  lemma ApplyStable(db: Db, n: Db, k: set<Key>, tx: Tx)
    requires Extends(db, n, k) && k !! tx.locks && tx.job.ApplyJob? && ApplyInv(db, tx)
    ensures ApplyInv(n, tx)
  {
    var e, r := tx.job.e, tx.job.r;
    var p, d := e.payload.paymentId, e.payload.decisionId;
    HeldStaysHeld(db, n, k, tx, p, PendingRisk, e);
    if tx.pc.Locked? || tx.pc.Unseen? { HeldStaysHeld(db, n, k, tx, p, tx.pc.status, e); }
    FreeStaysFree(db, n, k, tx, d, RiskDecisionRecorded, d, r.at);
    assert r.at in db.receipts ==> r.at in n.receipts && n.receipts[r.at] == db.receipts[r.at];
    hide Extends, ValidSource, PaymentHeld, DecisionHeld, QueueHeld, SameDecision, AuditHeld, ReceiptHeld, Recording;
    forall stage: nat | Recording(db, tx, stage) ensures Recording(n, tx, stage) {
      RecordingStable(db, n, k, tx, stage);
    }
  }

  lemma RecordingStable(db: Db, n: Db, k: set<Key>, tx: Tx, stage: nat)
    requires Extends(db, n, k) && k !! tx.locks && tx.job.ApplyJob? && Recording(db, tx, stage)
    ensures Recording(n, tx, stage)
  {
    var e, r := tx.job.e, tx.job.r;
    var p, d := e.payload.paymentId, e.payload.decisionId;
    HeldStaysHeld(db, n, k, tx, p, PendingRisk, e);
    FreeStaysFree(db, n, k, tx, d, RiskDecisionRecorded, d, r.at);
    assert p in db.payments && p in n.payments && n.payments[p] == db.payments[p];
    hide Extends, ValidSource, PaymentHeld, DecisionHeld, QueueHeld, AuditHeld, ReceiptHeld;
  }

  lemma OthersStable(db: Db, n: Db, k: set<Key>, tx: Tx)
    requires Extends(db, n, k) && k !! tx.locks && !tx.job.ApplyJob? && TxInv(db, tx)
    ensures TxInv(n, tx)
  {
    hide ValidSource;
  }

  lemma Stable(db: Db, n: Db, k: set<Key>, tx: Tx)
    requires Extends(db, n, k) && k !! tx.locks && TxInv(db, tx)
    ensures TxInv(n, tx)
  {
    if tx.job.ApplyJob? {
      hide Extends, ApplyInv;
      ApplyStable(db, n, k, tx);
    } else {
      hide *;
      OthersStable(db, n, k, tx);
    }
  }

  // ---------------------------------------------------------------- whole runs

  ghost predicate Exclusive(txs: map<nat, Tx>) {
    forall t, u | t in txs && u in txs && t != u :: txs[t].locks !! txs[u].locks
  }

  ghost predicate SysInv(from: Db, s: Sys) {
    && DbInv(s.db) && Exclusive(s.txs)
    && (forall t | t in s.txs :: TxInv(s.db, s.txs[t]))
    && s.db == OneByOne(from, s.log) && SameOutcomes(from, s.log)
  }

  /** A statement only takes keys nobody else holds. */
  lemma StatementLocks(db: Db, tx: Tx, held: set<Key>)
    requires tx.locks !! held
    ensures Statement(db, tx, held).locks !! held
    ensures Statement(db, tx, held).job == tx.job
  {
    hide ValidSource, SourceTaken, AuditTaken, QueuedDecision, KeyTaken, ExistingReceipt;
  }

  lemma RunKeepsExclusive(s: Sys, t: nat)
    requires Exclusive(s.txs) && t in s.txs
    ensures Exclusive(Moved(s, Run(t)).txs)
  {
    var held := Held(s.txs, t);
    StatementLocks(s.db, s.txs[t], held);
    var n := Statement(s.db, s.txs[t], held);
    hide Statement;
    forall u | u in s.txs && u != t ensures n.locks !! s.txs[u].locks {
      assert s.txs[u].locks <= held;
    }
  }

  lemma LogGrows(from: Db, log: seq<Entry>, entry: Entry)
    requires SameOutcomes(from, log) && Fits(OneByOne(from, log), entry)
    ensures SameOutcomes(from, log + [entry])
    ensures OneByOne(from, log + [entry]) ==
              if entry.committed then Alone(OneByOne(from, log), entry.job).0 else OneByOne(from, log)
  {
    hide Alone, Fits;
    var n := log + [entry];
    assert n[..|n| - 1] == log;
    forall i | 0 <= i < |n| ensures Fits(OneByOne(from, n[..i]), n[i]) {
      assert n[..i] == log[..i];
    }
  }

  lemma CommitKeeps(from: Db, s: Sys, t: nat)
    requires SysInv(from, s) && t in s.txs && CanCommit(s.txs[t].pc)
    ensures SysInv(from, Moved(s, Commit(t)))
  {
    hide DbInv, TxInv, Overlay, UniqueKeys, JobOk, Alone, SameOutcomes, OneByOne;
    var tx := s.txs[t];
    KeysAndJob(s.db, tx);
    CommitIsAlone(s.db, tx);
    AloneKeeps(s.db, tx.job);
    LogGrows(from, s.log, Entry(tx.job, Reported(tx), true));
    OthersKept(s, t);
  }

  lemma KeysAndJob(db: Db, tx: Tx)
    requires DbInv(db) && TxInv(db, tx)
    ensures UniqueKeys(db.payments) && JobOk(tx.job)
  {
    assert Outboxed(db.payments, db.outbox);
    hide DbInv, JobOk;
  }

  lemma OthersKept(s: Sys, t: nat)
    requires DbInv(s.db) && Exclusive(s.txs) && t in s.txs && CanCommit(s.txs[t].pc)
    requires forall u | u in s.txs :: TxInv(s.db, s.txs[u])
    ensures forall u | u in s.txs - {t} :: TxInv(Overlay(s.db, s.txs[t].writes), s.txs[u])
    ensures Exclusive(s.txs - {t})
  {
    hide DbInv, TxInv, Overlay, UniqueKeys, JobOk, Extends;
    var tx := s.txs[t];
    KeysAndJob(s.db, tx);
    CommitExtends(s.db, tx);
    forall u | u in s.txs - {t} ensures TxInv(Overlay(s.db, tx.writes), s.txs[u]) {
      Stable(s.db, Overlay(s.db, tx.writes), tx.locks, s.txs[u]);
    }
  }

  /** A statement that answers its caller explains the answer. */
  lemma RunKeeps(from: Db, s: Sys, t: nat)
    requires SysInv(from, s) && t in s.txs
    ensures SysInv(from, Moved(s, Run(t)))
  {
    hide DbInv, TxInv, SameOutcomes, OneByOne, Statement, Exclusive, Explains, Alone;
    var held := Held(s.txs, t);
    var n := Statement(s.db, s.txs[t], held);
    RunKeepsExclusive(s, t);
    StatementKeeps(s.db, s.txs[t], held);
    if n.pc.Denied? && !s.txs[t].pc.Denied? {
      StatementExplains(s.db, s.txs[t], held);
      LogGrows(from, s.log, Entry(s.txs[t].job, n.pc.said, false));
    } else {
      assert s.log + [] == s.log;
    }
  }

  lemma StartInv(db: Db, t: nat, job: Job)
    requires JobOk(job)
    ensures TxInv(db, Tx(job, Begin, {}, EMPTY_DB))
  {
    hide Carries, Announces;
  }

  lemma MoveKeeps(from: Db, s: Sys, m: Move)
    requires SysInv(from, s) && Enabled(s, m)
    ensures SysInv(from, Moved(s, m))
  {
    match m
    case Start(t, job) => {
      hide DbInv, TxInv, JobOk, SameOutcomes, OneByOne;
      StartInv(s.db, t, job);
    }
    case Abort(t) => { hide DbInv, TxInv, SameOutcomes, OneByOne; }
    case Run(t) => { hide SysInv, Moved; RunKeeps(from, s, t); }
    case Commit(t) => { hide SysInv, Moved; CommitKeeps(from, s, t); }
  }

  lemma {:induction false} MovesKeep(from: Db, s: Sys, moves: seq<Move>)
    requires SysInv(from, s) && Steps(s, moves)
    ensures SysInv(from, Reached(s, moves))
    decreases moves
  {
    hide SysInv, Moved, Enabled;
    if moves != [] {
      MoveKeeps(from, s, moves[0]);
      MovesKeep(from, Moved(s, moves[0]), moves[1..]);
    }
  }

  /** Serializability of any interleaving of any number of Apply, Reject, Resolve and Create
      transactions, with aborts anywhere: the tables are those the committed jobs leave when run one after
      the other in commit order; every committed caller got the answer that serial run gives, and every
      caller sent back one that the atomic run at its deciding statement explains. */
  lemma InterleavingsAreSerial(from: Db, moves: seq<Move>)
    requires DbInv(from) && Steps(Sys(from, map[], []), moves)
    ensures var s := Reached(Sys(from, map[], []), moves);
            s.db == OneByOne(from, s.log) && SameOutcomes(from, s.log) && DbInv(s.db)
  {
    assert SysInv(from, Sys(from, map[], [])) by { hide DbInv; }
    hide DbInv, Enabled, Moved, Steps, Reached;
    MovesKeep(from, Sys(from, map[], []), moves);
  }
}
