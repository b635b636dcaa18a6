/** Payment creation: the service that builds the payment and its single event, and what concurrent
    callers are told under one idempotency key. */
module Creation {
  import opened Text
  import opened Domain
  import opened Validation
  import opened Fingerprint
  import opened Ledger
  import opened LedgerInvariant
  import opened Serial
  import D = Database
  import I = Interleaving

  // ---------------------------------------------------------------- the service

  function Candidate(key: string, normalized: Request, id: Uuid, now: int): Payment {
    Payment(id, key, Canonical(normalized), normalized, PendingRisk, now)
  }

  function EventFor(p: Payment, id: Uuid, traceId: Uuid): OutboxEvent {
    OutboxEvent(id, PaymentsCreated, p.id, 1, p.createdAt, traceId, Created(p.id, p.request, p.createdAt))
  }

  lemma EventAnnounces(key: string, normalized: Request, id: Uuid, now: int, eventId: Uuid, traceId: Uuid)
    ensures Announces(EventFor(Candidate(key, normalized, id, now), eventId, traceId),
        Candidate(key, normalized, id, now))
  {
    hide Canonical;
  }

  lemma CandidateParts(key: string, r: Request, id: Uuid, now: int, eventId: Uuid, traceId: Uuid)
    ensures var x := Candidate(key, r, id, now);
            x.id == id && x.request == r && x.status.PendingRisk? && EventFor(x, eventId, traceId).id == eventId
  {
    hide Canonical;
  }

  datatype Outcome = BadKey(key: KeyResult) | BadRequest(fields: map<Field, Problem>) | Stored(result: CreateResult)

  function KeyOf(raw: string): KeyResult {
    var k := TrimSpace(raw);
    if k == "" then KeyRequired
    else if |k| > 255 || exists c | c in k :: IsControl(c) then KeyInvalid
    else Key(k)
  }

  /** Service.Create on the tables; ids, trace id and clock come from the environment. */
  function Requested(db: Db, raw: string, r: Request, id: Uuid, eventId: Uuid, traceId: Uuid, now: int): (Db, Outcome)
    requires UniqueKeys(db.payments)
  {
    if !KeyOf(raw).Key? then (db, BadKey(KeyOf(raw)))
    else if !ValidRequest(Normalize(r)) then (db, BadRequest(Problems(Normalize(r))))
    else
      var candidate := Candidate(KeyOf(raw).key, Normalize(r), id, now);
      var (n, result) := CreateTx(db, candidate, EventFor(candidate, eventId, traceId), now);
      (n, Stored(result))
  }

  method Create(store: D.Database, raw: string, r: Request, id: Uuid, eventId: Uuid, traceId: Uuid,
        now: int) returns (outcome: Outcome)
    requires UniqueKeys(store.payments)
    modifies store
    ensures (store.View(), outcome) == Requested(old(store.View()), raw, r, id, eventId, traceId, now)
  {
    hide CreateTx, ValidRequest, Normalize, Problems, Canonical, IsControl;
    var key := NormalizeKey(raw);
    if !key.Key? { return BadKey(key); }
    var checked := Validation.NormalizeAndValidate(r);
    if checked.Invalid? { return BadRequest(checked.fields); }
    var n := checked.request;
    var payment := Payment(id, key.key, Canonical(n), n, PendingRisk, now);
    var event := OutboxEvent(eventId, PaymentsCreated, payment.id, 1, now, traceId,
        Created(payment.id, payment.request, payment.createdAt));
    var result := store.Create(payment, event, now);
    return Stored(result);
  }

  // ---------------------------------------------------------------- idempotency

  ghost predicate Fingerprinted(payments: Payments) {
    forall p | p in payments :: payments[p].fingerprint == Canonical(payments[p].request)
  }

  ghost predicate FingerprintedJob(job: I.Job) {
    job.CreateJob? ==> job.candidate.fingerprint == Canonical(job.candidate.request)
  }

  lemma AloneKeepsFingerprints(db: Db, job: I.Job)
    requires Fingerprinted(db.payments) && FingerprintedJob(job)
    ensures Fingerprinted(I.Alone(db, job).0.payments)
  {
    hide Canonical, Fingerprinted;
    PaymentsKept(db, job);
    hide I.Alone;
    FingerprintsCarry(db.payments, I.Alone(db, job).0.payments, job);
  }

  lemma FingerprintsCarry(a: Payments, b: Payments, job: I.Job)
    requires Fingerprinted(a) && FingerprintedJob(job) && PaymentsGrow(a, b, job)
    ensures Fingerprinted(b)
  {
    hide Canonical;
  }

  lemma {:induction false} FingerprintsKept(from: Db, log: seq<I.Entry>, k: nat)
    requires Fingerprinted(from.payments) && k <= |log| && forall i | 0 <= i < |log| :: FingerprintedJob(log[i].job)
    ensures Fingerprinted(I.OneByOne(from, log[..k]).payments)
    decreases k
  {
    hide *;
    NothingLogged(from, log);
    if k > 0 {
      FingerprintsKept(from, log, k - 1);
      NextInLog(from, log, k - 1);
      if log[k - 1].committed { AloneKeepsFingerprints(I.OneByOne(from, log[..k - 1]), log[k - 1].job); }
    }
  }

  /** What a create transaction tells its caller. */
  lemma CreateTells(db: Db, x: Payment, event: OutboxEvent, now: int)
    requires UniqueKeys(db.payments) && (forall p | p in db.payments :: db.payments[p].id == p) &&
        Fingerprinted(db.payments)
    requires x.fingerprint == Canonical(x.request)
    ensures var (n, o) := CreateTx(db, x, event, now); o.CreateConstraint? || Answers(n.payments, x, o)
  {
    hide Canonical, KeyTaken, UniqueKeys;
    if KeyTaken(db.payments, x.idempotencyKey) {
      var p := PaymentFor(db.payments, x.idempotencyKey);
      CanonicalInjective(db.payments[p].request, x.request);
    } else if x.id !in db.payments && event.id !in db.outbox {
      assert CreateTx(db, x, event, now).0.payments[x.id] == x;
    }
  }

  /** The tables right after a logged call. */
  ghost function After(db: Db, entry: I.Entry): Db { if entry.committed then I.Alone(db, entry.job).0 else db }

  lemma CreateAnswer(db: Db, entry: I.Entry)
    requires entry.job.CreateJob? && DbInv(db) && Fingerprinted(db.payments) && FingerprintedJob(entry.job) &&
        I.Fits(db, entry)
    ensures Told(After(db, entry).payments, entry)
  {
    hide DbInv, Canonical, CreateTx, Answers, Fingerprinted, UniqueKeys, Outboxed;
    KeyedPayments(db);
    var x := entry.job.candidate;
    CreateTells(db, x, entry.job.event, entry.job.now);
    if !entry.committed { OnlyNewPaymentsWrite(db, x, entry.job.event, entry.job.now); }
  }

  lemma OnlyNewPaymentsWrite(db: Db, x: Payment, event: OutboxEvent, now: int)
    requires UniqueKeys(db.payments)
    ensures !CreateTx(db, x, event, now).1.NewPayment? ==> CreateTx(db, x, event, now).0 == db
  {
    hide KeyTaken, UniqueKeys;
  }

  lemma KeyedPayments(db: Db)
    requires DbInv(db)
    ensures UniqueKeys(db.payments) && Outboxed(db.payments, db.outbox) && forall p | p in db.payments ::
        db.payments[p].id == p
  {
    hide DecisionsUnique, Decided, Queued, Audited, Receipted;
  }

  /** The stored payment under the candidate's key answers the call: the same request gets its id, any
      other request gets a conflict. */
  ghost predicate Answers(payments: Payments, candidate: Payment, answer: CreateResult) {
    exists p | p in payments ::
      && payments[p].idempotencyKey == candidate.idempotencyKey
      && if payments[p].request == candidate.request
         then (answer.NewPayment? || answer.ReplayedPayment?) && answer.payment.id == p
         else answer.IdempotencyConflict?
  }

  /** The caller of a logged create got that answer; only a clash of random ids lets a call fail otherwise. */
  ghost predicate Told(payments: Payments, entry: I.Entry) {
    && entry.job.CreateJob? && entry.outcome.DidCreate?
    && (entry.outcome.created.CreateConstraint? || Answers(payments, entry.job.candidate, entry.outcome.created))
  }

  lemma ToldLasts(a: Payments, b: Payments, entry: I.Entry)
    requires Told(a, entry) && PaymentsStay(a, b)
    ensures Told(b, entry)
  {
    if !entry.outcome.created.CreateConstraint? {
      hide PaymentsStay, Answers;
      AnswersLast(a, b, entry.job.candidate, entry.outcome.created);
    }
  }

  lemma AnswersLast(a: Payments, b: Payments, candidate: Payment, answer: CreateResult)
    requires Answers(a, candidate, answer) && PaymentsStay(a, b)
    ensures Answers(b, candidate, answer)
  {
    var p :| && p in a && a[p].idempotencyKey == candidate.idempotencyKey
             && if a[p].request == candidate.request then (answer.NewPayment? || answer.ReplayedPayment?) &&
                 answer.payment.id == p
                else answer.IdempotencyConflict?;
    assert b[p].idempotencyKey == candidate.idempotencyKey && b[p].request == a[p].request;
  }

  // ---------------------------------------------------------------- fresh ids

  /** The ids of the new rows are not in the tables; two calls draw different ones. */
  ghost predicate NewIds(db: Db, job: I.Job) {
    job.CreateJob? ==> job.candidate.id !in db.payments && job.event.id !in db.outbox
  }

  predicate Apart(a: I.Job, b: I.Job) {
    a.CreateJob? && b.CreateJob? ==> a.candidate.id != b.candidate.id && a.event.id != b.event.id
  }

  ghost predicate FreshIds(db: Db, moves: seq<I.Move>) {
    && (forall k | 0 <= k < |moves| && moves[k].Start? :: NewIds(db, moves[k].job))
    && (forall j, k | 0 <= j < k < |moves| && moves[j].Start? && moves[k].Start? :: Apart(moves[j].job, moves[k].job))
  }

  /** Transactions that have not been sent back still find their ids unused. */
  ghost predicate FreshTxs(s: I.Sys) {
    && (forall t | t in s.txs && !s.txs[t].pc.Denied? :: NewIds(s.db, s.txs[t].job))
    && (forall t, u | t in s.txs && u in s.txs && t != u :: Apart(s.txs[t].job, s.txs[u].job))
  }

  ghost predicate NeverClashed(log: seq<I.Entry>) {
    forall i | 0 <= i < |log| :: log[i].outcome != I.DidCreate(CreateConstraint)
  }

  ghost predicate FreshSys(s: I.Sys, moves: seq<I.Move>) {
    && FreshTxs(s) && FreshIds(s.db, moves) && NeverClashed(s.log)
    && forall k, t | 0 <= k < |moves| && moves[k].Start? && t in s.txs :: Apart(moves[k].job, s.txs[t].job)
  }

  lemma ExplainedIsNoClash(db: Db, job: I.Job, said: I.Outcome)
    requires NewIds(db, job) && I.Explains(db, job, said)
    ensures said != I.DidCreate(CreateConstraint)
  {
    hide KeyTaken, UniqueKeys, ApplyTx, RejectTx, ResolveTx, I.AnswerFits, I.Enqueued;
  }

  /** A committed job adds no ids but its own. */
  lemma OwnIdsOnly(db: Db, job: I.Job, other: I.Job)
    requires NewIds(db, other) && Apart(job, other)
    ensures NewIds(I.Alone(db, job).0, other)
  {
    hide ValidSource, SourceTaken, RoomFor, AuditTaken, KeyTaken, UniqueKeys;
  }

  lemma FreshRun(from: Db, s: I.Sys, t: nat, moves: seq<I.Move>)
    requires I.SysInv(from, s) && t in s.txs && FreshSys(s, moves)
    ensures FreshSys(I.Moved(s, I.Run(t)), moves)
  {
    hide I.Statement, I.Explains, DbInv, I.TxInv, I.Exclusive, I.OneByOne, I.SameOutcomes, NewIds, Apart, I.Held;
    var held := I.Held(s.txs, t);
    var n := I.Statement(s.db, s.txs[t], held);
    StatementKeepsJob(s.db, s.txs[t], held);
    if s.txs[t].pc.Denied? {
      DeniedStays(s.db, s.txs[t], held);
    } else if n.pc.Denied? {
      I.StatementExplains(s.db, s.txs[t], held);
      ExplainedIsNoClash(s.db, s.txs[t].job, n.pc.said);
    }
  }

  lemma DeniedStays(db: Db, tx: I.Tx, held: set<I.Key>)
    requires tx.pc.Denied?
    ensures I.Statement(db, tx, held) == tx
  {
  }

  lemma FreshCommit(from: Db, s: I.Sys, t: nat, moves: seq<I.Move>)
    requires I.SysInv(from, s) && I.Enabled(s, I.Commit(t)) && FreshSys(s, moves)
    ensures FreshSys(I.Moved(s, I.Commit(t)), moves)
  {
    hide DbInv, I.TxInv, I.Exclusive, I.OneByOne, I.SameOutcomes, NewIds, Apart, I.Alone, I.Overlay, UniqueKeys;
    I.KeysAndJob(s.db, s.txs[t]);
    I.CommitIsAlone(s.db, s.txs[t]);
    forall other | NewIds(s.db, other) && Apart(s.txs[t].job, other)
      ensures NewIds(I.Alone(s.db, s.txs[t].job).0, other)
    {
      OwnIdsOnly(s.db, s.txs[t].job, other);
    }
    forall k | 0 <= k < |moves| && moves[k].Start? ensures Apart(s.txs[t].job, moves[k].job) {
      ApartBothWays(moves[k].job, s.txs[t].job);
    }
  }

  lemma ApartBothWays(a: I.Job, b: I.Job)
    ensures Apart(a, b) == Apart(b, a)
  {
  }

  lemma FreshNext(from: Db, s: I.Sys, moves: seq<I.Move>)
    requires I.SysInv(from, s) && moves != [] && I.Enabled(s, moves[0]) && FreshSys(s, moves)
    ensures FreshSys(I.Moved(s, moves[0]), moves[1..])
  {
    hide I.SysInv, I.Moved, I.JobOk, FreshSys;
    FreshTail(s, moves);
    match moves[0]
    case Start(t, job) => FreshStart(s, moves);
    case Abort(t) => FreshAbort(s, t, moves[1..]);
    case Run(t) => FreshRun(from, s, t, moves[1..]);
    case Commit(t) => FreshCommit(from, s, t, moves[1..]);
  }

  lemma FreshTail(s: I.Sys, moves: seq<I.Move>)
    requires moves != [] && FreshSys(s, moves)
    ensures FreshSys(s, moves[1..])
  {
    hide NewIds, Apart, NeverClashed, FreshTxs;
  }

  lemma FreshAbort(s: I.Sys, t: nat, moves: seq<I.Move>)
    requires FreshSys(s, moves) && t in s.txs
    ensures FreshSys(I.Moved(s, I.Abort(t)), moves)
  {
    hide NewIds, Apart, NeverClashed, FreshIds;
  }

  lemma FreshStart(s: I.Sys, moves: seq<I.Move>)
    requires moves != [] && moves[0].Start? && I.Enabled(s, moves[0]) && FreshSys(s, moves)
    ensures FreshSys(I.Moved(s, moves[0]), moves[1..])
  {
    hide NewIds, Apart, NeverClashed, I.JobOk;
    forall a, b ensures Apart(a, b) == Apart(b, a) { ApartBothWays(a, b); }
    FreshTail(s, moves);
  }

  lemma {:induction false} FreshMoves(from: Db, s: I.Sys, moves: seq<I.Move>)
    requires I.SysInv(from, s) && I.Steps(s, moves) && FreshSys(s, moves)
    ensures NeverClashed(I.Reached(s, moves).log)
    decreases moves
  {
    hide I.SysInv, I.Moved, I.Enabled, FreshTxs, FreshIds, NeverClashed;
    if moves != [] {
      FreshNext(from, s, moves);
      I.MoveKeeps(from, s, moves[0]);
      FreshMoves(from, I.Moved(s, moves[0]), moves[1..]);
    }
  }

  lemma NoClashOfIds(from: Db, moves: seq<I.Move>)
    requires DbInv(from) && I.Steps(I.Sys(from, map[], []), moves) && FreshIds(from, moves)
    ensures NeverClashed(I.Reached(I.Sys(from, map[], []), moves).log)
  {
    hide DbInv, I.Steps, I.Reached, FreshIds;
    FreshMoves(from, I.Sys(from, map[], []), moves);
  }

  /** Idempotency under any interleaving: in the final tables each key a create call used has one payment
      and that payment one outbox row. When the random ids are fresh, every call with an equal normalized
      request was told that payment's id, every other call a conflict; when they are not, a call may instead
      have failed on a clash of ids. */
  lemma CreationIsIdempotent(from: Db, moves: seq<I.Move>, i: nat)
    requires DbInv(from) && Fingerprinted(from.payments) && I.Steps(I.Sys(from, map[], []), moves)
    requires forall k | 0 <= k < |moves| && moves[k].Start? :: FingerprintedJob(moves[k].job)
    ensures var s := I.Reached(I.Sys(from, map[], []), moves);
            && UniqueKeys(s.db.payments) && Outboxed(s.db.payments, s.db.outbox)
            && (i < |s.log| && s.log[i].job.CreateJob? ==>
                  && Told(s.db.payments, s.log[i])
                  && (FreshIds(from, moves) ==>
                        Answers(s.db.payments, s.log[i].job.candidate, s.log[i].outcome.created)))
  {
    hide *;
    var s := I.Reached(I.Sys(from, map[], []), moves);
    I.InterleavingsAreSerial(from, moves);
    LoggedJobs(from, moves, FingerprintedJob);
    KeyedPayments(s.db);
    if i < |s.log| && s.log[i].job.CreateJob? {
      ToldInLog(from, s.log, i);
      if FreshIds(from, moves) { NoClashOfIds(from, moves); }
      AnsweredUnlessClashed(s.db.payments, s.log, i);
    }
  }

  lemma AnsweredUnlessClashed(payments: Payments, log: seq<I.Entry>, i: nat)
    requires i < |log| && Told(payments, log[i])
    ensures log[i].outcome.DidCreate?
    ensures NeverClashed(log) ==> Answers(payments, log[i].job.candidate, log[i].outcome.created)
  {
    hide Answers;
  }

  lemma ToldInLog(from: Db, log: seq<I.Entry>, i: nat)
    requires DbInv(from) && Fingerprinted(from.payments) && I.SameOutcomes(from, log) && i < |log| &&
        log[i].job.CreateJob?
    requires forall k | 0 <= k < |log| :: I.JobOk(log[k].job) && FingerprintedJob(log[k].job)
    ensures Told(I.OneByOne(from, log).payments, log[i])
  {
    hide *;
    LogKeeps(from, log, i);
    FingerprintsKept(from, log, i);
    var db := I.OneByOne(from, log[..i]);
    OutcomeInLog(from, log, i);
    CreateAnswer(db, log[i]);
    AfterIsNext(from, log, i);
    PaymentsStayOn(from, log, i + 1);
    ToldLasts(After(db, log[i]).payments, I.OneByOne(from, log).payments, log[i]);
  }

  lemma AfterIsNext(from: Db, log: seq<I.Entry>, i: nat)
    requires i < |log|
    ensures I.OneByOne(from, log[..i + 1]) == After(I.OneByOne(from, log[..i]), log[i])
  {
    hide I.Alone, I.OneByOne;
    NextInLog(from, log, i);
  }
}
