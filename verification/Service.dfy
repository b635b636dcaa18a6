/** Payment creation as callers of the service see it: what a new payment stores, and what a second call under
    the same idempotency key is told, whatever ran in between. */
module Service {
  import opened Text
  import opened Domain
  import opened Validation
  import opened Fingerprint
  import opened Ledger
  import opened LedgerInvariant
  import opened Serial
  import opened Creation
  import I = Interleaving

  /** One call of Service.Create, with the ids, trace id and clock its environment supplied. */
  datatype Call = Call(raw: string, request: Request, id: Uuid, eventId: Uuid, traceId: Uuid, now: int)

  function Answer(db: Db, c: Call): (Db, Outcome)
    requires UniqueKeys(db.payments)
  { Requested(db, c.raw, c.request, c.id, c.eventId, c.traceId, c.now) }

  /** Printable ASCII, or past the control characters of Latin-1. */
  predicate Plain(c: char) { ' ' <= c <= '~' || c as int >= 0xA0 }

  /** The caller's key and request pass validation. */
  predicate Accepted(c: Call) {
    var k := TrimSpace(c.raw);
    1 <= |k| <= 255 && (forall x | x in k :: Plain(x)) && ValidRequest(Normalize(c.request))
  }

  lemma AcceptedKey(c: Call)
    ensures Accepted(c) ==> KeyOf(c.raw) == Key(TrimSpace(c.raw))
    ensures Accepted(c) <==> KeyOf(c.raw).Key? && ValidRequest(Normalize(c.request))
  {
    hide TrimSpace, ValidRequest, Normalize;
  }

  /** A refused call changes nothing, and is told what is wrong: the key, or else every offending field of the
      normalized request, and no other. */
  lemma RefusedCall(db: Db, c: Call)
    requires UniqueKeys(db.payments) && !Accepted(c)
    ensures Answer(db, c).0 == db
    ensures var k, o := TrimSpace(c.raw), Answer(db, c).1;
            if |k| == 0 then o == BadKey(KeyRequired)
            else if |k| > 255 || exists x | x in k :: !Plain(x) then o == BadKey(KeyInvalid)
            else o.BadRequest? && o.fields != map[] && Named(o.fields, Normalize(c.request))
  {
    AcceptedKey(c);
    ProblemsDecide(Normalize(c.request));
    ProblemsNamed(Normalize(c.request));
    hide TrimSpace, Normalize, ValidRequest, Named, Problems, Canonical, CreateTx, UniqueKeys;
  }

  predicate NamedText(fields: map<Field, Problem>, f: Field, s: string) {
    && (f in fields <==> s == "" || |s| > 255)
    && (f in fields ==> fields[f] == if s == "" then Required else TooLong)
  }

  predicate NamedCode(fields: map<Field, Problem>, f: Field, s: string, n: nat) {
    && (f in fields <==> !(|s| == n && forall i | 0 <= i < n :: s[i] in UPPER_LETTERS))
    && (f in fields ==> fields[f] == NotACode)
  }

  ghost predicate Named(fields: map<Field, Problem>, r: Request) {
    && NamedText(fields, CustomerId, r.customerId) && NamedText(fields, MerchantId, r.merchantId)
    && NamedText(fields, DeviceId, r.deviceId)
    && (AmountMinor in fields <==> r.amountMinor <= 0)
    && (AmountMinor in fields ==> fields[AmountMinor] == NotPositive)
    && NamedCode(fields, Currency, r.currency, 3) && NamedCode(fields, Country, r.country, 2)
  }

  lemma ProblemsNamed(r: Request)
    ensures Named(Problems(r), r)
  {
    CodeLetters(r.currency, 3);
    CodeLetters(r.country, 2);
    hide UpperAscii, UPPER_LETTERS, Problems;
    forall f: Field { ProblemAt(r, f); }
  }

  lemma ProblemAt(r: Request, f: Field)
    ensures f in Problems(r) <==> FieldProblem(r, f).Some?
    ensures f in Problems(r) ==> Problems(r)[f] == FieldProblem(r, f).value
  {
    hide FieldProblem;
    assert f in FIELDS by { match f case CustomerId => case MerchantId => case DeviceId => case AmountMinor =>
                            case Currency => case Country => }
  }

  // ---------------------------------------------------------------- what a new payment stores

  /** The payment of the call, and the event that announces it. */
  ghost predicate PaymentOf(c: Call, x: Payment) {
    && x.id == c.id && x.idempotencyKey == TrimSpace(c.raw) && x.request == Normalize(c.request)
    && x.createdAt == c.now
    && forall r: Request :: x.fingerprint == Canonical(Normalize(r)) <==> Normalize(r) == Normalize(c.request)
  }

  ghost predicate StoresPayment(payments: Payments, n: Payments, c: Call) {
    && c.id in n && PaymentOf(c, n[c.id]) && n[c.id].status.PendingRisk? && n == payments[c.id := n[c.id]]
  }

  /** The payments.created event of the call, version 1, about its normalized request. */
  ghost predicate EventOf(c: Call, e: OutboxEvent) {
    && e.id == c.eventId && e.eventType.PaymentsCreated? && e.aggregateId == c.id && e.schemaVersion == 1
    && e.occurredAt == c.now && e.traceId == c.traceId && e.payload == Created(c.id, Normalize(c.request), c.now)
  }

  ghost predicate StoresEvent(outbox: Outbox, n: Outbox, c: Call) {
    && c.eventId in n && EventOf(c, n[c.eventId].event) && n == outbox[c.eventId := n[c.eventId]]
    && n[c.eventId] == OutboxRow(n[c.eventId].event, c.now, c.now, 0, Pending)
  }

  ghost predicate Stores(db: Db, n: Db, c: Call) {
    && StoresPayment(db.payments, n.payments, c) && StoresEvent(db.outbox, n.outbox, c)
    && n == db.(payments := n.payments, outbox := n.outbox)
  }

  lemma CandidateStores(c: Call, key: string)
    ensures var x := Candidate(key, Normalize(c.request), c.id, c.now);
            && x == Payment(c.id, key, Canonical(Normalize(c.request)), Normalize(c.request), PendingRisk, c.now)
            && EventOf(c, EventFor(x, c.eventId, c.traceId))
  {
    hide Canonical, Normalize;
  }

  /** A call under a key that nobody has used: the payment with its fingerprint, its one event due at once, and
      nothing else; unless one of its random ids is taken. */
  lemma NewPaymentStores(db: Db, c: Call)
    requires UniqueKeys(db.payments) && Accepted(c)
    requires forall p | p in db.payments :: db.payments[p].idempotencyKey != TrimSpace(c.raw)
    requires c.id !in db.payments && c.eventId !in db.outbox
    ensures var (n, o) := Answer(db, c); Stores(db, n, c) && o == Stored(NewPayment(n.payments[c.id]))
  {
    hide Canonical, Normalize, ValidRequest, TrimSpace, Candidate, EventFor, UniqueKeys, KeyOf;
    hide CreateTx, Stores, EventOf;
    AcceptedKey(c);
    CandidateStores(c, TrimSpace(c.raw));
    var x := Candidate(TrimSpace(c.raw), Normalize(c.request), c.id, c.now);
    CandidateParts(TrimSpace(c.raw), Normalize(c.request), c.id, c.now, c.eventId, c.traceId);
    FreshCreate(db, x, EventFor(x, c.eventId, c.traceId), c.now);
    CandidateIsPaymentOf(c, x);
    StoredBoth(db, c, x, EventFor(x, c.eventId, c.traceId));
  }

  lemma FreshCreate(db: Db, x: Payment, event: OutboxEvent, now: int)
    requires UniqueKeys(db.payments) && x.id !in db.payments && event.id !in db.outbox
    requires forall p | p in db.payments :: db.payments[p].idempotencyKey != x.idempotencyKey
    ensures CreateTx(db, x, event, now) == (db.(payments := db.payments[x.id := x],
              outbox := db.outbox[event.id := OutboxRow(event, now, now, 0, Pending)]), NewPayment(x))
  {
  }

  lemma CandidateIsPaymentOf(c: Call, x: Payment)
    requires x.id == c.id && x.idempotencyKey == TrimSpace(c.raw) && x.request == Normalize(c.request)
    requires x.fingerprint == Canonical(Normalize(c.request)) && x.createdAt == c.now
    ensures PaymentOf(c, x)
  {
    hide Canonical, Normalize, TrimSpace;
    forall r: Request
      ensures Canonical(Normalize(c.request)) == Canonical(Normalize(r)) <==> Normalize(r) == Normalize(c.request)
    {
      FingerprintsOfNormalForms(r, c.request);
    }
  }

  lemma StoredBoth(db: Db, c: Call, x: Payment, event: OutboxEvent)
    requires PaymentOf(c, x) && x.status.PendingRisk? && EventOf(c, event)
    ensures Stores(db, db.(payments := db.payments[c.id := x],
              outbox := db.outbox[c.eventId := OutboxRow(event, c.now, c.now, 0, Pending)]), c)
  {
    hide PaymentOf, EventOf;
  }

  // ---------------------------------------------------------------- a second call

  /** Of two accepted calls under one key, the later replays the earlier one's payment if and only if their
      normalized requests agree, and is told of a conflict otherwise; it writes nothing. In between payments may
      have been added and have changed status. */
  lemma SecondCall(db: Db, c: Call, later: Db, d: Call)
    requires UniqueKeys(db.payments) && Accepted(c) && Answer(db, c).1.Stored? && Answer(db, c).1.result.NewPayment?
    requires UniqueKeys(later.payments) && PaymentsStay(Answer(db, c).0.payments, later.payments)
    requires Accepted(d) && TrimSpace(c.raw) == TrimSpace(d.raw)
    ensures var (n, o) := Answer(later, d);
            && n == later && o.Stored?
            && if Normalize(c.request) == Normalize(d.request)
               then o.result.ReplayedPayment? && o.result.payment.id == c.id
               else o.result.IdempotencyConflict?
  {
    AcceptedKey(c);
    AcceptedKey(d);
    CandidateStores(c, TrimSpace(c.raw));
    CandidateStores(d, TrimSpace(d.raw));
    FingerprintsOfNormalForms(c.request, d.request);
    hide Canonical, Normalize, ValidRequest, TrimSpace, Candidate, EventFor, KeyOf, UniqueKeys;
    var x := Candidate(TrimSpace(c.raw), Normalize(c.request), c.id, c.now);
    FirstIsStored(db, x, EventFor(x, c.eventId, c.traceId), c.now);
    var y := Candidate(TrimSpace(d.raw), Normalize(d.request), d.id, d.now);
    SecondIsAnswered(later, x.id, y, EventFor(y, d.eventId, d.traceId), d.now);
  }

  lemma FirstIsStored(db: Db, x: Payment, event: OutboxEvent, now: int)
    requires UniqueKeys(db.payments)
    ensures CreateTx(db, x, event, now).1.NewPayment? ==>
              x.id in CreateTx(db, x, event, now).0.payments && CreateTx(db, x, event, now).0.payments[x.id] == x
  {
    hide KeyTaken, UniqueKeys;
  }

  lemma SecondIsAnswered(db: Db, p: Uuid, y: Payment, event: OutboxEvent, now: int)
    requires UniqueKeys(db.payments) && p in db.payments && db.payments[p].idempotencyKey == y.idempotencyKey
    ensures CreateTx(db, y, event, now) == (db, if db.payments[p].fingerprint == y.fingerprint
                                              then ReplayedPayment(db.payments[p]) else IdempotencyConflict)
  {
    assert KeyTaken(db.payments, y.idempotencyKey);
    assert PaymentFor(db.payments, y.idempotencyKey) == p;
  }

  // ---------------------------------------------------------------- any interleaving

  function JobOf(c: Call): I.Job
    requires Accepted(c)
  {
    var x := Candidate(TrimSpace(c.raw), Normalize(c.request), c.id, c.now);
    I.CreateJob(x, EventFor(x, c.eventId, c.traceId), c.now)
  }

  /** The service itself started the create. */
  ghost predicate ByService(job: I.Job) { job.CreateJob? ==> exists c :: Accepted(c) && JobOf(c) == job }

  lemma ServiceFingerprints(job: I.Job)
    requires ByService(job)
    ensures FingerprintedJob(job)
  {
    hide Canonical, Normalize, TrimSpace, ValidRequest, JobOf, Accepted;
    if job.CreateJob? {
      var c :| Accepted(c) && JobOf(c) == job;
      JobCarries(c);
    }
  }

  lemma JobCarries(c: Call)
    requires Accepted(c)
    ensures JobOf(c).CreateJob?
    ensures var x := JobOf(c).candidate;
            && x.idempotencyKey == TrimSpace(c.raw) && x.request == Normalize(c.request)
            && x.fingerprint == Canonical(x.request)
  {
    CandidateStores(c, TrimSpace(c.raw));
    hide Canonical, Normalize, TrimSpace, ValidRequest, Candidate, EventFor;
  }

  /** Idempotency of the service under any interleaving, from an empty database: each key has one payment; two
      calls under one key were told the same id if and only if their normalized requests agree with the stored
      one, and a conflict otherwise. */
  lemma ServiceIsIdempotent(moves: seq<I.Move>, i: nat, c: Call)
    requires I.Steps(I.Sys(EMPTY_DB, map[], []), moves) && FreshIds(EMPTY_DB, moves)
    requires forall k | 0 <= k < |moves| && moves[k].Start? :: ByService(moves[k].job)
    ensures var s := I.Reached(I.Sys(EMPTY_DB, map[], []), moves);
            && UniqueKeys(s.db.payments)
            && (i < |s.log| && Accepted(c) && s.log[i].job == JobOf(c) ==> ToldEntry(s.db.payments, c, s.log[i]))
  {
    hide *;
    forall k | 0 <= k < |moves| && moves[k].Start? ensures FingerprintedJob(moves[k].job) {
      ServiceFingerprints(moves[k].job);
    }
    EmptyTables();
    CreationIsIdempotent(EMPTY_DB, moves, i);
    var s := I.Reached(I.Sys(EMPTY_DB, map[], []), moves);
    if i < |s.log| && Accepted(c) && s.log[i].job == JobOf(c) {
      JobCarries(c);
      AnswersCall(s.db.payments, c, s.log[i]);
    }
  }

  /** The stored payment under the call's key decides: its id for the same normalized request, else a conflict. */
  ghost predicate ToldCall(payments: Payments, c: Call, answer: CreateResult) {
    exists p | p in payments ::
      && payments[p].idempotencyKey == TrimSpace(c.raw)
      && if payments[p].request == Normalize(c.request)
         then (answer.NewPayment? || answer.ReplayedPayment?) && answer.payment.id == p
         else answer.IdempotencyConflict?
  }

  ghost predicate ToldEntry(payments: Payments, c: Call, entry: I.Entry) {
    entry.outcome.DidCreate? && ToldCall(payments, c, entry.outcome.created)
  }

  lemma AnswersCall(payments: Payments, c: Call, entry: I.Entry)
    requires Accepted(c) && entry.job == JobOf(c) && Told(payments, entry)
    requires Answers(payments, JobOf(c).candidate, entry.outcome.created)
    ensures ToldEntry(payments, c, entry)
  {
    hide Canonical, Normalize, TrimSpace, ValidRequest, JobOf, Accepted;
    JobCarries(c);
  }

  lemma EmptyTables()
    ensures DbInv(EMPTY_DB) && Fingerprinted(EMPTY_DB.payments)
  {
  }
}
