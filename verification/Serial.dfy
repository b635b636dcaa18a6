/** Runs of committed transactions, one after the other, as every interleaving leaves them: what stays from
    the tables a transaction left to the tables at the end. */
module Serial {
  import opened Domain
  import opened Ledger
  import opened LedgerInvariant
  import opened Interleaving

  /** A payment keeps everything but its status. */
  ghost predicate PaymentsStay(a: Payments, b: Payments) {
    forall p | p in a :: p in b && b[p] == a[p].(status := b[p].status)
  }

  /** New payments come from create jobs. */
  ghost predicate PaymentsGrow(a: Payments, b: Payments, job: Job) {
    && PaymentsStay(a, b)
    && forall p | p in b && p !in a :: job.CreateJob? && b[p] == job.candidate
  }

  lemma PaymentsKept(db: Db, job: Job)
    ensures PaymentsGrow(db.payments, Alone(db, job).0.payments, job)
  {
    hide ApplyTx, RejectTx, ResolveTx, CreateTx, UniqueKeys, PaymentsGrow;
    SamePayments(db.payments, job);
    match job
    case ApplyJob(e, r) => ApplyKeepsPayments(db, e, r, job);
    case RejectJob(r, code) => RejectKeepsPayments(db, r, code);
    case ResolveJob(c) => ResolveKeepsPayments(db, c, job);
    case CreateJob(x, event, now) => if UniqueKeys(db.payments) { CreateKeepsPayments(db, job); }
  }

  lemma SamePayments(a: Payments, job: Job)
    ensures PaymentsGrow(a, a, job)
  {
  }

  lemma ApplyKeepsPayments(db: Db, e: Event, r: Record, job: Job)
    ensures PaymentsGrow(db.payments, ApplyTx(db, e, r).0.payments, job)
  {
    hide ValidSource, SourceTaken, RoomFor, ExistingReceipt;
  }

  lemma RejectKeepsPayments(db: Db, r: Record, code: RejectionCode)
    ensures RejectTx(db, r, code).0.payments == db.payments
  {
    hide ValidSource, ExistingReceipt;
  }

  lemma ResolveKeepsPayments(db: Db, c: ResolveCommand, job: Job)
    ensures PaymentsGrow(db.payments, ResolveTx(db, c).0.payments, job)
  {
    hide AuditTaken;
  }

  lemma CreateKeepsPayments(db: Db, job: Job)
    requires job.CreateJob? && UniqueKeys(db.payments)
    ensures PaymentsGrow(db.payments, CreateTx(db, job.candidate, job.event, job.now).0.payments, job)
  {
    hide KeyTaken, UniqueKeys;
  }

  lemma {:induction false} PaymentsStayOn(from: Db, log: seq<Entry>, k: nat)
    requires k <= |log|
    ensures PaymentsStay(OneByOne(from, log[..k]).payments, OneByOne(from, log).payments)
    decreases |log|
  {
    if k < |log| {
      var init := log[..|log| - 1];
      PaymentsStayOn(from, init, k);
      assert init[..k] == log[..k];
      PaymentsKept(OneByOne(from, init), log[|log| - 1].job);  // a call that did not commit changes nothing
      hide Alone;
    } else {
      assert log[..k] == log;
    }
  }

  lemma NextInLog(from: Db, log: seq<Entry>, k: nat)
    requires k < |log|
    ensures OneByOne(from, log[..k + 1]) ==
              if log[k].committed then Alone(OneByOne(from, log[..k]), log[k].job).0 else OneByOne(from, log[..k])
  {
    hide Alone;
    assert log[..k + 1][..k] == log[..k];
  }

  lemma OutcomeInLog(from: Db, log: seq<Entry>, k: nat)
    requires k < |log| && SameOutcomes(from, log)
    ensures Fits(OneByOne(from, log[..k]), log[k])
  {
    hide Fits, OneByOne;
  }

  lemma NothingLogged(from: Db, log: seq<Entry>)
    ensures OneByOne(from, log[..0]) == from
  {
  }

  /** The state before the k-th logged job satisfies the ledger invariant. */
  lemma {:induction false} LogKeeps(from: Db, log: seq<Entry>, k: nat)
    requires DbInv(from) && k <= |log| && forall i | 0 <= i < |log| :: JobOk(log[i].job)
    ensures DbInv(OneByOne(from, log[..k]))
    decreases k
  {
    hide *;
    NothingLogged(from, log);
    if k > 0 {
      LogKeeps(from, log, k - 1);
      NextInLog(from, log, k - 1);
      if log[k - 1].committed { AloneKeeps(OneByOne(from, log[..k - 1]), log[k - 1].job); }
    }
  }

  ghost predicate JobsOk(s: Sys, p: Job -> bool) {
    && (forall t | t in s.txs :: JobOk(s.txs[t].job) && p(s.txs[t].job))
    && (forall i | 0 <= i < |s.log| :: JobOk(s.log[i].job) && p(s.log[i].job))
  }

  /** Every logged job was started, so it has whatever property all started jobs have. */
  lemma {:induction false} StartedJobsLogged(s: Sys, moves: seq<Move>, p: Job -> bool)
    requires Steps(s, moves) && JobsOk(s, p)
    requires forall k | 0 <= k < |moves| && moves[k].Start? :: p(moves[k].job)
    ensures JobsOk(Reached(s, moves), p)
    decreases moves
  {
    if moves != [] {
      StartedJobNext(s, moves[0], p);
      hide Moved, Enabled, JobsOk;
      StartedJobsLogged(Moved(s, moves[0]), moves[1..], p);
    }
  }

  lemma LoggedJobs(from: Db, moves: seq<Move>, p: Job -> bool)
    requires Steps(Sys(from, map[], []), moves)
    requires forall k | 0 <= k < |moves| && moves[k].Start? :: p(moves[k].job)
    ensures var log := Reached(Sys(from, map[], []), moves).log;
            forall i | 0 <= i < |log| :: JobOk(log[i].job) && p(log[i].job)
  {
    StartedJobsLogged(Sys(from, map[], []), moves, p);
    hide Steps, Reached, JobOk;
  }

  lemma StartedJobNext(s: Sys, m: Move, p: Job -> bool)
    requires Enabled(s, m) && JobsOk(s, p) && (m.Start? ==> p(m.job))
    ensures JobsOk(Moved(s, m), p)
  {
    hide JobOk, Overlay, Statement, Held;
    if m.Run? { StatementKeepsJob(s.db, s.txs[m.t], Held(s.txs, m.t)); }
  }

  lemma StatementKeepsJob(db: Db, tx: Tx, held: set<Key>)
    ensures Statement(db, tx, held).job == tx.job
  {
    hide ValidSource, SourceTaken, AuditTaken, QueuedDecision, KeyTaken, ExistingReceipt;
  }
}
