/** Manual review under concurrency: what any number of reviewers resolving the same payment leaves. */
module Reviews {
  import opened Text
  import opened Domain
  import opened Ledger
  import opened LedgerInvariant
  import opened Serial
  import I = Interleaving

  ghost predicate Resolves(entry: I.Entry, p: Uuid) {
    entry.job.ResolveJob? && entry.job.c.paymentId == p && entry.outcome.DidResolve? && entry.outcome.resolved.Resolved?
  }

  /** The audit row of a manual resolution: which payment and decision, what was done, by whom and when. */
  ghost predicate ManualRow(u: Audit, decision: Uuid, c: ResolveCommand) {
    && u.aggregateId == c.paymentId && u.decisionId == decision
    && u.kind == (if c.action.Approve? then ManualReviewApproved else ManualReviewRejected)
    && u.actor == c.reviewer && u.occurredAt == c.resolvedAt
  }

  /** The command's resolution is on record: queue row, payment status and the one manual audit row. */
  ghost predicate Stands(db: Db, c: ResolveCommand) {
    var p := c.paymentId;
    && p in db.reviews && p in db.payments
    && db.reviews[p].status == (if c.action.Approve? then Approved else Declined) && db.reviews[p].version == 2
    && db.reviews[p].resolvedAt == Some(c.resolvedAt) && db.reviews[p].reviewer == Some(c.reviewer) &&
        db.reviews[p].reason == Some(c.reason)
    && db.payments[p].status == (if c.action.Approve? then Allowed else Blocked)
    && c.auditId in db.audits && ManualRow(db.audits[c.auditId], db.reviews[p].decisionId, c)
    && forall a | a in db.audits && db.audits[a].aggregateId == p && !db.audits[a].kind.RiskDecisionRecorded? ::
        a == c.auditId
  }

  // ---------------------------------------------------------------- one transaction

  /** A waiting queue row always finds its payment under review, so that conflict cannot happen. */
  lemma NoStateConflict(db: Db, c: ResolveCommand)
    requires DbInv(db)
    ensures !ResolveTx(db, c).1.ReviewStateConflict?
  {
    hide Outboxed, Audited, Receipted, DecisionsUnique, AuditTaken;
    if c.paymentId in db.reviews { assert QueueRowOk(db.decisions, c.paymentId, db.reviews[c.paymentId]); }
  }

  /** Everything a successful resolution writes. */
  ghost predicate Resolution(db: Db, n: Db, c: ResolveCommand) {
    var p := c.paymentId;
    && p in db.reviews && p in db.payments
    && n.reviews == db.reviews[p := QueueRow(db.reviews[p].decisionId, if c.action.Approve? then Approved else Declined,
        2, db.reviews[p].enqueuedAt, Some(c.resolvedAt), Some(c.reviewer), Some(c.reason))]
    && n.payments == db.payments[p := db.payments[p].(status := if c.action.Approve? then Allowed else Blocked)]
    && c.auditId in n.audits && n.audits == db.audits[c.auditId := n.audits[c.auditId]]
    && ManualRow(n.audits[c.auditId], db.reviews[p].decisionId, c)
    && n.outbox == db.outbox && n.decisions == db.decisions && n.receipts == db.receipts
  }

  /** In consistent tables a waiting row has no manual audit row. */
  lemma WaitingIsUnaudited(db: Db, c: ResolveCommand)
    requires DbInv(db) && c.paymentId in db.reviews && db.reviews[c.paymentId].status.Waiting?
    ensures !AuditTaken(db.audits, AuditKindFor(c.action), db.reviews[c.paymentId].decisionId)
    ensures db.reviews[c.paymentId].version == 1
    ensures c.paymentId in db.payments && db.payments[c.paymentId].status.UnderReview?
  {
    hide Outboxed, Receipted, DecisionsUnique, SystemAudited, ReviewsAudited, Solitary;
    assert QueueRowOk(db.decisions, c.paymentId, db.reviews[c.paymentId]);
    forall a | a in db.audits ensures AuditRowOk(db.decisions, db.reviews, a, db.audits[a]) { }
    hide AuditRowsOk;
  }

  /** One resolution, in consistent tables: what the caller is told follows from the queue row, and the tables
      change only when it succeeds, which it does unless the random audit id clashes. */
  lemma ResolvedExactly(db: Db, c: ResolveCommand)
    requires DbInv(db)
    ensures var (n, x) := ResolveTx(db, c);
            if c.paymentId !in db.reviews then n == db && x == NotFound
            else if !db.reviews[c.paymentId].status.Waiting? then
              n == db && x == AlreadyResolved(db.reviews[c.paymentId].status, 2)
            else if c.expectedVersion != 1 then n == db && x == VersionConflict(1)
            else if c.auditId in db.audits then n == db && x == ResolveConstraint
            else Resolution(db, n, c) && x == Resolved(n.reviews[c.paymentId])
  {
    hide DbInv, AuditTaken, Resolution;
    RowIsShaped(db, c.paymentId);
    if c.paymentId in db.reviews && db.reviews[c.paymentId].status.Waiting? {
      WaitingIsUnaudited(db, c);
      if c.expectedVersion == 1 && c.auditId !in db.audits { ResolutionWrites(db, c); }
    }
  }

  lemma ResolutionWrites(db: Db, c: ResolveCommand)
    requires c.paymentId in db.reviews && db.reviews[c.paymentId].status.Waiting?
    requires db.reviews[c.paymentId].version == 1
    requires c.expectedVersion == 1 && c.paymentId in db.payments && db.payments[c.paymentId].status.UnderReview?
    requires c.auditId !in db.audits
    requires !AuditTaken(db.audits, AuditKindFor(c.action), db.reviews[c.paymentId].decisionId)
    ensures var (n, x) := ResolveTx(db, c); Resolution(db, n, c) && x == Resolved(n.reviews[c.paymentId])
  {
    hide AuditTaken;
  }

  /** Every recorded decision has its audit row: the consumer recorded it when it was decided. */
  lemma SystemRow(db: Db, d: Uuid)
    requires DbInv(db) && d in db.decisions
    ensures d in db.audits
    ensures var e := db.decisions[d].payload;
            db.audits[d] == Audit(e.paymentId, RiskDecisionRecorded, "risk-decision-consumer", d, e.decisionAt)
  {
    hide Outboxed, Decided, Queued, Receipted, AuditRowsOk, ReviewsAudited, Solitary;
  }

  /** The rows a resolution leaves behind. */
  ghost predicate RowsLeft(reviews: Reviews, audits: Audits, c: ResolveCommand) {
    && c.paymentId in reviews && c.auditId in audits
    && reviews[c.paymentId].status == (if c.action.Approve? then Approved else Declined)
    && reviews[c.paymentId].resolvedAt == Some(c.resolvedAt) && reviews[c.paymentId].reviewer == Some(c.reviewer)
    && reviews[c.paymentId].reason == Some(c.reason)
    && ManualRow(audits[c.auditId], reviews[c.paymentId].decisionId, c)
  }

  lemma ResolutionLeavesRows(db: Db, c: ResolveCommand)
    requires ResolveTx(db, c).1.Resolved?
    ensures RowsLeft(ResolveTx(db, c).0.reviews, ResolveTx(db, c).0.audits, c)
    ensures c.paymentId in db.reviews && db.reviews[c.paymentId].status.Waiting?
  {
    hide AuditTaken;
  }

  /** No transaction touches a resolved queue row or an audit row. */
  lemma RowsStay(db: Db, job: I.Job, c: ResolveCommand)
    requires RowsLeft(db.reviews, db.audits, c)
    ensures RowsLeft(I.Alone(db, job).0.reviews, I.Alone(db, job).0.audits, c)
  {
    hide ValidSource, SourceTaken, AuditTaken, QueuedDecision, UniqueKeys, KeyTaken, ExistingReceipt;
  }

  lemma OwnerOfRow(decisions: Decisions, payments: Payments, reviews: Reviews, p: Uuid)
    requires DecisionsUnique(decisions) && Decided(payments, decisions, reviews) && Queued(decisions, reviews) &&
        p in reviews
    ensures RowShape(reviews[p]) && p in payments
    ensures payments[p].status
              == match reviews[p].status case Waiting => UnderReview case Approved => Allowed case Declined => Blocked
  {
    assert QueueRowOk(decisions, p, reviews[p]);
  }

  lemma OneManualRow(decisions: Decisions, audits: Audits, reviews: Reviews, p: Uuid, a: Uuid, b: Uuid)
    requires Audited(decisions, audits, reviews) && a in audits && b in audits
    requires audits[a].aggregateId == p == audits[b].aggregateId
    requires !audits[a].kind.RiskDecisionRecorded? && !audits[b].kind.RiskDecisionRecorded?
    ensures a == b
  {
    hide SystemAudited, ReviewsAudited;
    assert AuditRowOk(decisions, reviews, a, audits[a]) && AuditRowOk(decisions, reviews, b, audits[b]);
  }

  lemma RowsStand(db: Db, c: ResolveCommand)
    requires DbInv(db) && RowsLeft(db.reviews, db.audits, c)
    ensures Stands(db, c)
  {
    hide Outboxed, DecisionsUnique, Decided, Queued, Audited, Receipted;
    OwnerOfRow(db.decisions, db.payments, db.reviews, c.paymentId);
    forall a | a in db.audits && db.audits[a].aggregateId == c.paymentId && !db.audits[a].kind.RiskDecisionRecorded?
      ensures a == c.auditId
    {
      OneManualRow(db.decisions, db.audits, db.reviews, c.paymentId, a, c.auditId);
    }
  }

  // ---------------------------------------------------------------- any interleaving

  lemma {:induction false} RowsStayOn(from: Db, log: seq<I.Entry>, k: nat, n: nat, c: ResolveCommand)
    requires k <= n <= |log| && RowsLeft(I.OneByOne(from, log[..k]).reviews, I.OneByOne(from, log[..k]).audits, c)
    ensures RowsLeft(I.OneByOne(from, log[..n]).reviews, I.OneByOne(from, log[..n]).audits, c)
    decreases n
  {
    hide *;
    if k < n {
      RowsStayOn(from, log, k, n - 1, c);
      RowsStay(I.OneByOne(from, log[..n - 1]), log[n - 1].job, c);
      NextInLog(from, log, n - 1);
    }
  }

  /** The queue row of a payment goes at most from waiting to resolved. */
  ghost predicate RowGoesOn(a: Reviews, b: Reviews, p: Uuid) {
    p in a ==> p in b && (!a[p].status.Waiting? ==> b[p] == a[p])
  }

  lemma RowStays(db: Db, job: I.Job, p: Uuid)
    ensures RowGoesOn(db.reviews, I.Alone(db, job).0.reviews, p)
  {
    hide ValidSource, SourceTaken, AuditTaken, QueuedDecision, UniqueKeys, KeyTaken, ExistingReceipt;
  }

  lemma {:induction false} RowStaysOn(from: Db, log: seq<I.Entry>, k: nat, n: nat, p: Uuid)
    requires k <= n <= |log|
    ensures RowGoesOn(I.OneByOne(from, log[..k]).reviews, I.OneByOne(from, log[..n]).reviews, p)
    decreases n
  {
    hide I.OneByOne, I.Alone;
    if k < n {
      RowStaysOn(from, log, k, n - 1, p);
      RowStays(I.OneByOne(from, log[..n - 1]), log[n - 1].job, p);
      NextInLog(from, log, n - 1);
    }
  }

  ghost predicate LogOk(from: Db, log: seq<I.Entry>) {
    DbInv(from) && I.SameOutcomes(from, log) && forall i | 0 <= i < |log| :: I.JobOk(log[i].job)
  }

  /** What a logged resolution was told, on the tables of its commit or of its deciding statement. */
  ghost predicate Said(db: Db, entry: I.Entry) {
    && entry.job.ResolveJob? && entry.outcome.DidResolve?
    && var c, x := entry.job.c, entry.outcome.resolved;
       if entry.committed then x == ResolveTx(db, c).1
       else !x.Resolved? && (x == ResolveTx(db, c).1 || (x == VersionConflict(c.expectedVersion) && I.Enqueued(db, c)))
  }

  lemma AtomicResolve(from: Db, log: seq<I.Entry>, i: nat)
    requires LogOk(from, log) && i < |log| && log[i].job.ResolveJob?
    ensures DbInv(I.OneByOne(from, log[..i])) && Said(I.OneByOne(from, log[..i]), log[i])
    ensures log[i].committed ==> I.OneByOne(from, log[..i + 1]) == ResolveTx(I.OneByOne(from, log[..i]), log[i].job.c).0
  {
    LogKeeps(from, log, i);
    OutcomeInLog(from, log, i);
    NextInLog(from, log, i);
    hide LogOk, I.OneByOne, I.SameOutcomes, ResolveTx, I.JobOk;
    assert UniqueKeys(I.OneByOne(from, log[..i]).payments);
    hide DbInv;
  }

  lemma RowsAfter(from: Db, log: seq<I.Entry>, i: nat)
    requires LogOk(from, log) && i < |log| && log[i].job.ResolveJob? && Resolves(log[i], log[i].job.c.paymentId)
    ensures RowsLeft(I.OneByOne(from, log[..i + 1]).reviews, I.OneByOne(from, log[..i + 1]).audits, log[i].job.c)
  {
    hide RowsLeft, LogOk, I.OneByOne, ResolveTx, DbInv;
    AtomicResolve(from, log, i);
    ResolutionLeavesRows(I.OneByOne(from, log[..i]), log[i].job.c);
  }

  /** Whoever asks once the row is resolved is told so, with the winner's status and version 2. */
  lemma LoserIsTold(db: Db, c: ResolveCommand, entry: I.Entry)
    requires DbInv(db) && RowsLeft(db.reviews, db.audits, c) && Said(db, entry) && entry.job.c.paymentId == c.paymentId
    ensures entry.outcome == I.DidResolve(AlreadyResolved(if c.action.Approve? then Approved else Declined, 2))
  {
    hide Outboxed, Decided, Audited, Receipted, DecisionsUnique, AuditTaken;
    assert QueueRowOk(db.decisions, c.paymentId, db.reviews[c.paymentId]);
  }

  lemma LaterIsTold(from: Db, log: seq<I.Entry>, i: nat, j: nat)
    requires LogOk(from, log) && i < j < |log| && log[i].job.ResolveJob? && Resolves(log[i], log[i].job.c.paymentId)
    requires log[j].job.ResolveJob? && log[j].job.c.paymentId == log[i].job.c.paymentId
    ensures var winner := if log[i].job.c.action.Approve? then Approved else Declined;
            log[j].outcome == I.DidResolve(AlreadyResolved(winner, 2))
  {
    hide RowsLeft, LogOk, I.OneByOne, ResolveTx, DbInv, Said;
    RowsAfter(from, log, i);
    RowsStayOn(from, log, i + 1, j, log[i].job.c);
    AtomicResolve(from, log, j);
    LoserIsTold(I.OneByOne(from, log[..j]), log[i].job.c, log[j]);
  }

  /** What a caller was told still describes the final queue row: never a payment state conflict; a
      resolution reported as made is the one that stands; a version conflict names the waiting version. */
  ghost predicate Informed(reviews: Reviews, entry: I.Entry) {
    && entry.job.ResolveJob? && entry.outcome.DidResolve?
    && var p, x := entry.job.c.paymentId, entry.outcome.resolved;
       && !x.ReviewStateConflict?
       && (x.AlreadyResolved? ==>
             p in reviews && !x.status.Waiting? && reviews[p].status == x.status &&
                 reviews[p].version == x.version == 2)
       && (x.VersionConflict? ==> p in reviews && x.version == 1)
  }

  lemma RowIsShaped(db: Db, p: Uuid)
    requires DbInv(db)
    ensures p in db.reviews ==> RowShape(db.reviews[p])
  {
    hide Outboxed, Decided, Audited, Receipted, DecisionsUnique;
    if p in db.reviews { assert QueueRowOk(db.decisions, p, db.reviews[p]); }
  }

  lemma ConflictsNameTheRow(db: Db, c: ResolveCommand)
    requires c.paymentId in db.reviews ==> RowShape(db.reviews[c.paymentId])
    ensures var x := ResolveTx(db, c).1;
            && (x.AlreadyResolved? ==>
                  && c.paymentId in db.reviews && !x.status.Waiting?
                  && db.reviews[c.paymentId].status == x.status && db.reviews[c.paymentId].version == x.version == 2)
            && (x.VersionConflict? ==> c.paymentId in db.reviews && x.version == 1)
  {
    hide AuditTaken;
  }

  lemma InformedAtOnce(db: Db, entry: I.Entry)
    requires DbInv(db) && Said(db, entry)
    ensures Informed(db.reviews, entry)
  {
    hide DbInv, ResolveTx;
    NoStateConflict(db, entry.job.c);
    RowIsShaped(db, entry.job.c.paymentId);
    ConflictsNameTheRow(db, entry.job.c);
  }

  lemma InformedInLog(from: Db, log: seq<I.Entry>, i: nat)
    requires LogOk(from, log) && i < |log| && log[i].job.ResolveJob?
    ensures Informed(I.OneByOne(from, log).reviews, log[i])
  {
    hide LogOk, I.OneByOne, ResolveTx, DbInv, Said;
    AtomicResolve(from, log, i);
    InformedAtOnce(I.OneByOne(from, log[..i]), log[i]);
    assert log[..|log|] == log;
    RowStaysOn(from, log, i, |log|, log[i].job.c.paymentId);
  }

  /** What a logged resolution means for the final tables and for the j-th entry of the log. */
  ghost predicate Exclusive(db: Db, log: seq<I.Entry>, i: nat, j: nat)
    requires i < |log| && j < |log| && log[i].job.ResolveJob?
  {
    var c := log[i].job.c;
    && Informed(db.reviews, log[i])
    && (Resolves(log[i], c.paymentId) ==>
        && Stands(db, c) && (Resolves(log[j], c.paymentId) ==> i == j)
        && (i < j && log[j].job.ResolveJob? && log[j].job.c.paymentId == c.paymentId ==>
              log[j].outcome == I.DidResolve(AlreadyResolved(if c.action.Approve? then Approved else Declined, 2))))
  }

  lemma ExclusiveInLog(from: Db, log: seq<I.Entry>, i: nat, j: nat)
    requires LogOk(from, log) && i < |log| && j < |log| && log[i].job.ResolveJob? && DbInv(I.OneByOne(from, log))
    ensures Exclusive(I.OneByOne(from, log), log, i, j)
  {
    hide LogOk, DbInv, I.OneByOne, Stands, ResolveTx, RowsLeft, Informed;
    var c := log[i].job.c;
    assert log[..|log|] == log;
    InformedInLog(from, log, i);
    if Resolves(log[i], c.paymentId) {
      RowsAfter(from, log, i);
      RowsStayOn(from, log, i + 1, |log|, c);
      RowsStand(I.OneByOne(from, log), c);
      if log[j].job.ResolveJob? && log[j].job.c.paymentId == c.paymentId {
        if i < j { LaterIsTold(from, log, i, j); }
        if j < i && Resolves(log[j], c.paymentId) { LaterIsTold(from, log, j, i); }
      }
    }
  }

  /** In any interleaving of reviewers with each other and with everything else: at most one resolution of
      a payment succeeds; it stands in the final tables, with version 2, the matching payment status and
      exactly one manual audit row; everybody answered later is told of it; and nobody at all is told of a
      payment state conflict. */
  lemma ReviewsAreExclusive(from: Db, moves: seq<I.Move>, i: nat, j: nat)
    requires DbInv(from) && I.Steps(I.Sys(from, map[], []), moves)
    ensures var s := I.Reached(I.Sys(from, map[], []), moves);
            i < |s.log| && j < |s.log| && s.log[i].job.ResolveJob? ==> Exclusive(s.db, s.log, i, j)
  {
    var s := I.Reached(I.Sys(from, map[], []), moves);
    I.InterleavingsAreSerial(from, moves);
    LoggedJobs(from, moves, (job: I.Job) => true);
    hide I.Steps, I.Reached, I.OneByOne, I.SameOutcomes, I.JobOk, DbInv, Exclusive;
    if i < |s.log| && j < |s.log| && s.log[i].job.ResolveJob? { ExclusiveInLog(from, s.log, i, j); }
  }
}
