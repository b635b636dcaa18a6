/** Any number of publishers on one outbox: claims under SKIP LOCKED, produce calls whose acknowledgement may
    be lost, transactions that may roll back at any point, and a clock that moves on between any two steps. */
module OutboxScheduler {
  import opened Text
  import opened Domain
  import opened Backoff
  import opened OutboxStore
  import opened Counting

  /** A publisher's open transaction: it holds the row's lock; then it knows how the publish call ended;
      then it has the failure's next attempt time and the update pending. */
  datatype Phase = Claimed | Told(result: Publication) | Deferred(next: int, permanent: bool)

  datatype Claim = Claim(row: Id, serial: nat, phase: Phase)

  /** `creates` holds the transactions that are about to insert a row, by the time they began; `log` the row
      of every claim ever made, by serial; `committed` the serials whose outcome was committed; `produced` and
      `acked` the rows that reached the broker and that it acknowledged. */
  datatype System = System(
    now: int, rows: Rows, creates: map<Id, int>, claims: map<nat, Claim>, log: seq<Id>, committed: set<nat>,
    produced: set<Id>, acked: set<Id>)

  const EMPTY := System(0, map[], map[], map[], [], {}, {}, {})

  datatype Config = Config(retryMin: int64, retryMax: int64)
  predicate ValidConfig(c: Config) { 0 < c.retryMin <= c.retryMax }

  datatype Move =
    | Tick(to: int) | Begin(id: Id) | Insert(id: Id, event: OutboxEvent) | Abandon(id: Id) | ClaimNext(w: nat, id: Id)
    | Publish(w: nat, broker: Publication) | Fail(w: nat) | Commit(w: nat) | Rollback(w: nat)

  function Locked(claims: map<nat, Claim>): set<Id> { set w | w in claims :: claims[w].row }

  predicate Enabled(s: System, m: Move) {
    match m
    case Tick(to) => to >= s.now
    case Begin(id) => id !in s.rows && id !in s.creates
    case Insert(id, event) => id in s.creates && id !in s.rows
    case Abandon(id) => id in s.creates
    case ClaimNext(w, id) => w !in s.claims && IsFirst(s.rows, Locked(s.claims), s.now, id)
    case Publish(w, broker) => w in s.claims && s.claims[w].phase.Claimed? && s.claims[w].row in s.rows &&
        !broker.PermanentError?
    case Fail(w) => w in s.claims && s.claims[w].phase.Told? && !s.claims[w].phase.result.Acked? &&
        s.claims[w].row in s.rows
    case Commit(w) =>
      && w in s.claims && s.claims[w].row in s.rows && Open(s.rows[s.claims[w].row])
      && (s.claims[w].phase.Deferred? || s.claims[w].phase == Told(Acked))
    case Rollback(w) => w in s.claims
  }

  function With(s: System, w: nat, phase: Phase): System
    requires w in s.claims
  { s.(claims := s.claims[w := s.claims[w].(phase := phase)]) }

  /** A new row is stamped with the time its transaction began, and visible when that commits. */
  function Moved(c: Config, s: System, m: Move): System
    requires ValidConfig(c) && Enabled(s, m)
  {
    match m
    case Tick(to) => s.(now := to)
    case Begin(id) => s.(creates := s.creates[id := s.now])
    case Insert(id, event) =>
      var began := s.creates[id];
      s.(rows := s.rows[id := Row(event, began, began, 0, None, None)], creates := s.creates - {id})
    case Abandon(id) => s.(creates := s.creates - {id})
    case ClaimNext(w, id) => s.(claims := s.claims[w := Claim(id, |s.log|, Claimed)], log := s.log + [id])
    case Publish(w, broker) =>
      var a := s.claims[w].row;
      var result := PublishEvent(s.rows[a].event, broker);
      var landed := result.Acked? || (result.BrokerError? && result.landed);
      With(s, w, Told(result)).(produced := if landed then s.produced + {a} else s.produced,
                                acked := if result.Acked? then s.acked + {a} else s.acked)
    case Fail(w) =>
      var a := s.claims[w].row;
      With(s, w, Deferred(s.now + Capped(s.rows[a].attempts + 1, c.retryMin, c.retryMax),
          s.claims[w].phase.result.PermanentError?))
    case Commit(w) =>
      var a := s.claims[w].row;
      var row := s.rows[a];
      s.(claims := s.claims - {w}, committed := s.committed + {s.claims[w].serial},
         rows := s.rows[a := if s.claims[w].phase.Deferred? then Missed(row, s.claims[w].phase.next,
             s.claims[w].phase.permanent, s.now) else Marked(row, s.now)])
    case Rollback(w) => s.(claims := s.claims - {w})
  }

  function Step(c: Config, s: System, m: Move): System
    requires ValidConfig(c)
  { if Enabled(s, m) then Moved(c, s, m) else s }

  function Run(c: Config, s: System, moves: seq<Move>): System
    requires ValidConfig(c)
    decreases moves
  {
    if moves == [] then s else Run(c, Step(c, s, moves[0]), moves[1..])
  }

  // ---------------------------------------------------------------- one state per row

  ghost predicate RowOk(r: Row, id: Id, produced: set<Id>, acked: set<Id>) {
    && (r.publishedAt.None? || r.deadLetteredAt.None?)
    && (r.publishedAt.Some? ==> id in acked && Publishable(r.event))
    && (r.deadLetteredAt.Some? ==> !Publishable(r.event))
    && (!Publishable(r.event) ==> id !in produced)
  }

  ghost predicate ClaimOk(rows: Rows, acked: set<Id>, log: seq<Id>, committed: set<nat>, claim: Claim) {
    && claim.row in rows && Open(rows[claim.row]) && claim.serial < |log| && log[claim.serial] == claim.row &&
        claim.serial !in committed
    && match claim.phase
       case Claimed => true
       case Told(result) =>
         && (result.Acked? ==> claim.row in acked && Publishable(rows[claim.row].event))
         && (result.PermanentError? <==> !Publishable(rows[claim.row].event))
       case Deferred(_, permanent) => permanent <==> !Publishable(rows[claim.row].event)
  }

  /** No two claims in flight on one row. */
  ghost predicate OneEach(claims: map<nat, Claim>) {
    forall v, w | v in claims && w in claims && v != w ::
        claims[v].row != claims[w].row && claims[v].serial != claims[w].serial
  }

  ghost predicate Inv(s: System) {
    && s.acked <= s.produced <= s.rows.Keys && OneEach(s.claims)
    && (forall a | a in s.rows :: RowOk(s.rows[a], a, s.produced, s.acked))
    && (forall w | w in s.claims :: ClaimOk(s.rows, s.acked, s.log, s.committed, s.claims[w]))
    && (forall n | n in s.committed :: n < |s.log|)
  }

  /** A published or dead-lettered row never changes again; an open one keeps event and creation time. */
  ghost predicate RowsLast(a: Rows, b: Rows) {
    forall x | x in a :: x in b && b[x].event == a[x].event && b[x].createdAt == a[x].createdAt &&
        (Open(a[x]) || b[x] == a[x])
  }

  lemma ClaimKeeps(c: Config, s: System, m: Move)
    requires ValidConfig(c) && Inv(s) && m.ClaimNext? && Enabled(s, m)
    ensures Inv(Moved(c, s, m)) && RowsLast(s.rows, Moved(c, s, m).rows)
  {
    hide RowOk, Publishable;
    var n := Moved(c, s, m);
    forall w | w in s.claims
      ensures s.claims[w].row != m.id && ClaimOk(n.rows, n.acked, n.log, n.committed, s.claims[w])
    {
      assert s.claims[w].row in Locked(s.claims);
      assert ClaimOk(s.rows, s.acked, s.log, s.committed, s.claims[w]);
    }
  }

  lemma PublishKeeps(c: Config, s: System, m: Move)
    requires ValidConfig(c) && Inv(s) && m.Publish? && Enabled(s, m)
    ensures Inv(Moved(c, s, m)) && RowsLast(s.rows, Moved(c, s, m).rows)
  {
    var a := s.claims[m.w].row;
    PermanentMeansUnsendable(s.rows[a].event, m.broker);
    hide Publishable, PublishEvent;
    var n := Moved(c, s, m);
    assert ClaimOk(s.rows, s.acked, s.log, s.committed, s.claims[m.w]) && RowOk(s.rows[a], a, s.produced, s.acked);
    forall x | x in n.rows
      ensures RowOk(n.rows[x], x, n.produced, n.acked)
    {
      assert RowOk(s.rows[x], x, s.produced, s.acked);
    }
    forall w | w in n.claims ensures ClaimOk(n.rows, n.acked, n.log, n.committed, n.claims[w]) {
      assert ClaimOk(s.rows, s.acked, s.log, s.committed, s.claims[w]);
    }
  }

  lemma CommitKeeps(c: Config, s: System, m: Move)
    requires ValidConfig(c) && Inv(s) && m.Commit? && Enabled(s, m)
    ensures Inv(Moved(c, s, m)) && RowsLast(s.rows, Moved(c, s, m).rows)
  {
    hide Publishable;
    var n, a := Moved(c, s, m), s.claims[m.w].row;
    assert ClaimOk(s.rows, s.acked, s.log, s.committed, s.claims[m.w]) && RowOk(s.rows[a], a, s.produced, s.acked);
    forall x | x in n.rows
      ensures RowOk(n.rows[x], x, n.produced, n.acked)
    {
      assert x in s.rows && RowOk(s.rows[x], x, s.produced, s.acked);
    }
    forall w | w in n.claims ensures ClaimOk(n.rows, n.acked, n.log, n.committed, n.claims[w]) {
      assert ClaimOk(s.rows, s.acked, s.log, s.committed, s.claims[w]) && s.claims[w].row != a;
    }
  }

  lemma OtherKeeps(c: Config, s: System, m: Move)
    requires ValidConfig(c) && Inv(s) && Enabled(s, m) && !m.ClaimNext? && !m.Publish? && !m.Commit?
    ensures Inv(Moved(c, s, m)) && RowsLast(s.rows, Moved(c, s, m).rows)
  {
    hide Publishable, Capped;
    var n := Moved(c, s, m);
    forall w | w in n.claims ensures ClaimOk(n.rows, n.acked, n.log, n.committed, n.claims[w]) {
      assert ClaimOk(s.rows, s.acked, s.log, s.committed, s.claims[w]);
    }
  }

  lemma StepKeeps(c: Config, s: System, m: Move)
    requires ValidConfig(c) && Inv(s)
    ensures Inv(Step(c, s, m)) && RowsLast(s.rows, Step(c, s, m).rows)
  {
    if Enabled(s, m) {
      hide Inv, Moved, Enabled, RowsLast;
      if m.ClaimNext? { ClaimKeeps(c, s, m); } else if m.Publish? { PublishKeeps(c, s,
          m); } else if m.Commit? { CommitKeeps(c, s, m); } else { OtherKeeps(c, s, m); }
    } else {
      hide Inv, Enabled;
    }
  }

  lemma {:induction false} RunKeeps(c: Config, s: System, moves: seq<Move>)
    requires ValidConfig(c) && Inv(s)
    ensures Inv(Run(c, s, moves)) && RowsLast(s.rows, Run(c, s, moves).rows)
    decreases moves
  {
    hide Inv, Step, RowsLast;
    if moves != [] {
      StepKeeps(c, s, moves[0]);
      RunKeeps(c, Step(c, s, moves[0]), moves[1..]);
      LastTwice(s.rows, Step(c, s, moves[0]).rows, Run(c, s, moves).rows);
    } else {
      LastTwice(s.rows, s.rows, s.rows);
    }
  }

  lemma LastTwice(a: Rows, b: Rows, d: Rows)
    ensures RowsLast(a, a)
    ensures RowsLast(a, b) && RowsLast(b, d) ==> RowsLast(a, d)
  {
  }

  /** What a row can be in a reachable state. */
  ghost predicate OneState(s: System, a: Id)
    requires a in s.rows
  {
    var r := s.rows[a];
    && (if r.publishedAt.Some? then r.deadLetteredAt.None? &&
        !Open(r) else if r.deadLetteredAt.Some? then !Open(r) else Open(r))
    && (r.publishedAt.Some? ==> a in s.acked) && (r.deadLetteredAt.Some? ==> a !in s.produced)
  }

  /** In every run: each row is exactly one of pending, published or dead-lettered; published rows were
      acknowledged by the broker, dead-lettered ones never reached it; later moves change no such row; and
      no row is claimed twice at a time. */
  lemma OneStatePerRow(c: Config, moves: seq<Move>, later: seq<Move>, a: Id)
    requires ValidConfig(c)
    ensures var s := Run(c, EMPTY, moves);
            && OneEach(s.claims)
            && (a in s.rows ==> OneState(s, a) && a in Run(c, s, later).rows)
            && (a in s.rows && !Open(s.rows[a]) ==> Run(c, s, later).rows[a] == s.rows[a])
  {
    RunKeeps(c, EMPTY, moves);
    var s := Run(c, EMPTY, moves);
    RunKeeps(c, s, later);
    hide Run, Publishable;
    if a in s.rows { assert RowOk(s.rows[a], a, s.produced, s.acked); }
  }

  // ---------------------------------------------------------------- bounded waiting

  /** While a due row is free, a publisher claims it or a row ahead of it. */
  lemma ClaimIsAhead(s: System, w: nat, a: Id, r: Id)
    requires Enabled(s, ClaimNext(w, a)) && Due(s.rows, r, s.now) && r !in Locked(s.claims)
    ensures a == r || Before(s.rows, a, r)
  {
  }

  /** The row cannot be claimed ahead of one due at `due` any more. */
  ghost predicate Spent(rows: Rows, x: Id, due: int) {
    x in rows && (!Open(rows[x]) || rows[x].nextAttemptAt > due)
  }

  /** Row `r` has been due and unclaimed since serial `k`; the rows whose claims since then were committed
      are spent, all different, and not claimed again. */
  ghost predicate Waiting(s: System, r: Id, row: Row, k: nat) {
    && r in s.rows && s.rows[r] == row && Open(row) && row.nextAttemptAt <= s.now && k <= |s.log|
    && (forall w | w in s.claims :: s.claims[w].row != r)
    && (forall w | w in s.claims && s.claims[w].serial >= k && s.claims[w].phase.Deferred? ::
        s.claims[w].phase.next > row.nextAttemptAt)
    && (forall n | n in s.committed && k <= n < |s.log| :: Spent(s.rows, s.log[n], row.nextAttemptAt))
    && (forall n, w | n in s.committed && k <= n < |s.log| && w in s.claims :: s.claims[w].row != s.log[n])
    && (forall m, n | m in s.committed && n in s.committed && k <= m < n < |s.log| :: s.log[m] != s.log[n])
  }

  lemma WaitClaim(c: Config, s: System, m: Move, r: Id, row: Row, k: nat)
    requires ValidConfig(c) && Inv(s) && Waiting(s, r, row, k) && m.ClaimNext? && Enabled(s, m) && m.id != r
    ensures Waiting(Moved(c, s, m), r, row, k)
  {
    hide RowOk, Publishable;
    assert forall w | w in s.claims :: ClaimOk(s.rows, s.acked, s.log, s.committed, s.claims[w]);
    assert |s.log| !in s.committed;
    hide Inv, ClaimOk;
    assert r !in Locked(s.claims);
    ClaimIsAhead(s, m.w, m.id, r);
    assert !Spent(s.rows, m.id, row.nextAttemptAt);
  }

  lemma WaitCommit(c: Config, s: System, m: Move, r: Id, row: Row, k: nat)
    requires ValidConfig(c) && Inv(s) && Waiting(s, r, row, k) && m.Commit? && Enabled(s, m)
    ensures Waiting(Moved(c, s, m), r, row, k)
  {
    hide RowOk, Publishable;
    var a := s.claims[m.w].row;
    assert ClaimOk(s.rows, s.acked, s.log, s.committed, s.claims[m.w]);
    assert forall w | w in s.claims && w != m.w :: s.claims[w].row != a;
    hide Inv, ClaimOk;
  }

  lemma WaitOther(c: Config, s: System, m: Move, r: Id, row: Row, k: nat)
    requires ValidConfig(c) && Inv(s) && Waiting(s, r, row, k) && !m.ClaimNext? && !m.Commit? && Enabled(s, m)
    ensures Waiting(Moved(c, s, m), r, row, k)
  {
    hide RowOk, Publishable, Inv, PublishEvent;
  }

  lemma LogOnlyGrows(c: Config, s: System, m: Move)
    requires ValidConfig(c)
    ensures s.log <= Step(c, s, m).log
    ensures Enabled(s, m) && m.ClaimNext? ==> Step(c, s, m).log == s.log + [m.id]
  {
    hide Publishable, PublishEvent, Open, IsFirst;
  }

  lemma {:induction false} RunLogGrows(c: Config, s: System, moves: seq<Move>)
    requires ValidConfig(c)
    ensures s.log <= Run(c, s, moves).log
    decreases moves
  {
    hide Step;
    if moves != [] {
      LogOnlyGrows(c, s, moves[0]);
      RunLogGrows(c, Step(c, s, moves[0]), moves[1..]);
    }
  }

  ghost predicate ClaimedSince(s: System, r: Id, k: nat) { exists n | k <= n < |s.log| :: s.log[n] == r }

  lemma {:induction false} WaitRun(c: Config, s: System, moves: seq<Move>, r: Id, row: Row, k: nat)
    requires ValidConfig(c) && Inv(s) && Waiting(s, r, row, k) && !ClaimedSince(Run(c, s, moves), r, k)
    ensures Waiting(Run(c, s, moves), r, row, k)
    decreases moves
  {
    hide Inv, Waiting, Enabled, Moved;
    if moves != [] {
      var n := Step(c, s, moves[0]);
      LogOnlyGrows(c, s, moves[0]);
      RunLogGrows(c, n, moves[1..]);
      StepKeeps(c, s, moves[0]);
      WaitStep(c, s, moves[0], r, row, k, Run(c, s, moves).log);
      WaitRun(c, n, moves[1..], r, row, k);
    }
  }

  lemma WaitStep(c: Config, s: System, m: Move, r: Id, row: Row, k: nat, log: seq<Id>)
    requires ValidConfig(c) && Inv(s) && Waiting(s, r, row, k)
    requires Step(c, s, m).log <= log && !(exists n | k <= n < |log| :: log[n] == r)
    ensures Waiting(Step(c, s, m), r, row, k)
  {
    LogOnlyGrows(c, s, m);
    assert k <= |s.log| by { hide Inv; }
    hide Inv, Waiting, Enabled, Moved;
    if Enabled(s, m) {
      if m.ClaimNext? {
        assert log[|s.log|] == m.id;
        WaitClaim(c, s, m, r, row, k);
      } else if m.Commit? {
        WaitCommit(c, s, m, r, row, k);
      } else {
        WaitOther(c, s, m, r, row, k);
      }
    }
  }

  /** A row in flight was due when it was claimed, and its next attempt lies later than the last. */
  ghost predicate Timely(s: System) {
    forall w | w in s.claims ::
      && s.claims[w].row in s.rows && s.rows[s.claims[w].row].nextAttemptAt <= s.now
      && (s.claims[w].phase.Deferred? ==> s.claims[w].phase.next > s.rows[s.claims[w].row].nextAttemptAt)
  }

  lemma TimelyKeeps(c: Config, s: System, m: Move)
    requires ValidConfig(c) && Inv(s) && Timely(s)
    ensures Timely(Step(c, s, m))
  {
    hide Publishable, PublishEvent, RowOk, ClaimOk;
  }

  lemma {:induction false} TimelyRun(c: Config, s: System, moves: seq<Move>)
    requires ValidConfig(c) && Inv(s) && Timely(s)
    ensures Timely(Run(c, s, moves))
    decreases moves
  {
    hide Inv, Step, Timely;
    if moves != [] {
      StepKeeps(c, s, moves[0]);
      TimelyKeeps(c, s, moves[0]);
      TimelyRun(c, Step(c, s, moves[0]), moves[1..]);
    }
  }

  /** A new row with this time stamp comes before `r`. */
  predicate StampedAhead(stamp: int, x: Id, rows: Rows, r: Id)
    requires r in rows
  {
    var y := rows[r];
    stamp < y.nextAttemptAt
    || (stamp == y.nextAttemptAt && (stamp < y.createdAt || (stamp == y.createdAt && x < r)))
  }

  /** The rows that may be claimed before `r`: those ahead of it when it began to wait, and rows that became
      visible later with a time stamp that puts them ahead. */
  ghost predicate Rival(start: Rows, rows: Rows, r: Id, x: Id)
    requires r in start
  {
    if x in start then Before(start, x, r) else x in rows && StampedAhead(rows[x].createdAt, x, start, r)
  }

  /** A row that was not ahead of `r`: as it was, or spent. */
  ghost predicate Passed(start: Rows, rows: Rows, r: Id, x: Id)
    requires r in start && x in start
  {
    x in rows && (rows[x] == start[x] || Spent(rows, x, start[r].nextAttemptAt))
  }

  ghost predicate BeganFor(s0: System, x: Id, began: int) {
    began >= s0.now || (x in s0.creates && began == s0.creates[x])
  }

  /** A row inserted while `r` waits, by a transaction that was open when the waiting began or began later. */
  ghost predicate Newcomer(s0: System, rows: Rows, r: Id, x: Id)
    requires r in s0.rows && x in rows
  {
    && BeganFor(s0, x, rows[x].createdAt)
    && (Open(rows[x]) ==>
          rows[x].nextAttemptAt == rows[x].createdAt || rows[x].nextAttemptAt > s0.rows[r].nextAttemptAt)
  }

  /** Every claim since serial `k` was of a rival, and every commit of an older one was in flight then. */
  ghost predicate Ranked(s0: System, s: System, r: Id) {
    && r in s0.rows && s0.rows[r].nextAttemptAt <= s0.now <= s.now && s0.log <= s.log
    && (forall x | x in s0.rows && x != r && !Before(s0.rows, x, r) :: Passed(s0.rows, s.rows, r, x))
    && (forall x | x in s.rows && x !in s0.rows :: Newcomer(s0, s.rows, r, x))
    && (forall n | |s0.log| <= n < |s.log| :: Rival(s0.rows, s.rows, r, s.log[n]))
    && (forall w | w in s.claims && s.claims[w].serial < |s0.log| ::
        w in s0.claims && s0.claims[w].serial == s.claims[w].serial && s.claims[w].row in s0.rows)
    && (forall x | x in s.creates :: BeganFor(s0, x, s.creates[x]))
    && (forall n | n in s.committed && n !in s0.committed && n < |s0.log| ::
        exists w :: w in s0.claims && s0.claims[w].serial == n)
  }

  lemma FirstIsRival(s0: System, s: System, r: Id, a: Id)
    requires Ranked(s0, s, r) && r in s.rows && s.rows[r] == s0.rows[r] && a in s.rows && Open(s.rows[a])
    requires a != r && Before(s.rows, a, r)
    ensures Rival(s0.rows, s.rows, r, a)
  {
    if a in s0.rows {
      assert !Before(s0.rows, a, r) ==> Passed(s0.rows, s.rows, r, a);
    } else {
      assert Newcomer(s0, s.rows, r, a);
    }
  }

  lemma RankClaim(c: Config, s0: System, s: System, m: Move, r: Id, k: nat)
    requires ValidConfig(c) && Inv(s) && Ranked(s0, s, r) && k == |s0.log| && Waiting(s, r, s0.rows[r], k)
    requires m.ClaimNext? && Enabled(s, m) && m.id != r
    ensures Ranked(s0, Moved(c, s, m), r)
  {
    hide Inv, Passed, Newcomer, Spent;
    assert r !in Locked(s.claims);
    ClaimIsAhead(s, m.w, m.id, r);
    FirstIsRival(s0, s, r, m.id);
    hide Rival;
  }

  lemma RankCommit(c: Config, s0: System, s: System, m: Move, r: Id)
    requires ValidConfig(c) && Inv(s) && Timely(s) && Ranked(s0, s, r) && Waiting(s, r, s0.rows[r], |s0.log|)
    requires m.Commit? && Enabled(s, m)
    ensures Ranked(s0, Moved(c, s, m), r)
  {
    hide RowOk, Publishable, Inv;
    var n, a := Moved(c, s, m), s.claims[m.w].row;
    assert a != r;
    forall x | x in s0.rows && x != r && !Before(s0.rows, x, r) ensures Passed(s0.rows, n.rows, r, x) {
      assert Passed(s0.rows, s.rows, r, x);
    }
    forall x | x in n.rows && x !in s0.rows ensures Newcomer(s0, n.rows, r, x) {
      assert Newcomer(s0, s.rows, r, x);
    }
    hide Passed, Newcomer, Waiting, Timely, Spent;
    forall i | |s0.log| <= i < |n.log| ensures Rival(s0.rows, n.rows, r, n.log[i]) {
      assert Rival(s0.rows, s.rows, r, s.log[i]);
    }
  }

  lemma RankOther(c: Config, s0: System, s: System, m: Move, r: Id)
    requires ValidConfig(c) && Inv(s) && Ranked(s0, s, r) && !m.ClaimNext? && !m.Commit? && Enabled(s, m)
    ensures Ranked(s0, Moved(c, s, m), r)
  {
    hide RowOk, Publishable, Inv, PublishEvent;
    var n := Moved(c, s, m);
    forall x | x in s0.rows && x != r && !Before(s0.rows, x, r) ensures Passed(s0.rows, n.rows, r, x) {
      assert Passed(s0.rows, s.rows, r, x);
    }
    forall x | x in n.rows && x !in s0.rows ensures Newcomer(s0, n.rows, r, x) {
      if x in s.rows { assert Newcomer(s0, s.rows, r, x); }
    }
    hide Passed, Newcomer;
    forall i | |s0.log| <= i < |n.log| ensures Rival(s0.rows, n.rows, r, n.log[i]) {
      assert Rival(s0.rows, s.rows, r, s.log[i]);
    }
  }

  lemma RankStep(c: Config, s0: System, s: System, m: Move, r: Id, log: seq<Id>)
    requires ValidConfig(c) && Inv(s) && Timely(s) && Ranked(s0, s, r) && Waiting(s, r, s0.rows[r], |s0.log|)
    requires Step(c, s, m).log <= log && !(exists n | |s0.log| <= n < |log| :: log[n] == r)
    ensures Ranked(s0, Step(c, s, m), r)
  {
    LogOnlyGrows(c, s, m);
    assert |s0.log| <= |s.log| by { hide Inv, Timely, Waiting; }
    hide Inv, Timely, Waiting, Ranked, Enabled, Moved;
    if Enabled(s, m) {
      if m.ClaimNext? {
        assert log[|s.log|] == m.id;
        RankClaim(c, s0, s, m, r, |s0.log|);
      } else if m.Commit? {
        RankCommit(c, s0, s, m, r);
      } else {
        RankOther(c, s0, s, m, r);
      }
    }
  }

  lemma {:induction false} RankRun(c: Config, s0: System, s: System, moves: seq<Move>, r: Id)
    requires ValidConfig(c) && Inv(s) && Timely(s) && Ranked(s0, s, r) && Waiting(s, r, s0.rows[r], |s0.log|)
    requires !ClaimedSince(Run(c, s, moves), r, |s0.log|)
    ensures Ranked(s0, Run(c, s, moves), r) && Waiting(Run(c, s, moves), r, s0.rows[r], |s0.log|)
    decreases moves
  {
    assert r in s0.rows by { hide Inv, Timely, Waiting; }
    hide Inv, Timely, Waiting, Ranked, Enabled, Moved;
    if moves != [] {
      var n := Step(c, s, moves[0]);
      LogOnlyGrows(c, s, moves[0]);
      RunLogGrows(c, n, moves[1..]);
      StepKeeps(c, s, moves[0]);
      TimelyKeeps(c, s, moves[0]);
      WaitStep(c, s, moves[0], r, s0.rows[r], |s0.log|, Run(c, s, moves).log);
      RankStep(c, s0, s, moves[0], r, Run(c, s, moves).log);
      RankRun(c, s0, n, moves[1..], r);
    }
  }

  function AheadOf(rows: Rows, r: Id): set<Id>
    requires r in rows
  { set x | x in rows && Before(rows, x, r) }

  /** The open transactions whose rows will come before `r`. */
  function OpenAhead(s: System, r: Id): set<Id>
    requires r in s.rows
  { set x | x in s.creates && StampedAhead(s.creates[x], x, s.rows, r) }

  ghost function Rivals(start: Rows, rows: Rows, r: Id): set<Id>
    requires r in start
  { set x | x in start.Keys + rows.Keys && Rival(start, rows, r, x) }

  /** What waiting costs: every claim made meanwhile is of a rival, each rival has at most one of its new
      claims committed, and every other commit is of a claim that was in flight when the waiting began. Unless
      the waiting began at the very instant `r` fell due, the rivals were ahead of it then, or their inserting
      transaction was already open then with a time stamp that puts them ahead. */
  ghost predicate Bounded(s: System, n: System, r: Id)
    requires r in s.rows
  {
    && (forall i | |s.log| <= i < |n.log| :: Rival(s.rows, n.rows, r, n.log[i]))
    && (forall i, j | i in n.committed && j in n.committed && |s.log| <= i < j < |n.log| :: n.log[i] != n.log[j])
    && |n.committed - s.committed| <= |Rivals(s.rows, n.rows, r)| + |s.claims|
    && (s.rows[r].nextAttemptAt < s.now ==>
          && Rivals(s.rows, n.rows, r) <= AheadOf(s.rows, r) + OpenAhead(s, r)
          && |n.committed - s.committed| <= |AheadOf(s.rows, r)| + |OpenAhead(s, r)| + |s.claims|)
  }

  /** Bounded waiting: from any reachable state in which a row is due and free, until some publisher claims
      it, at most one new claim is committed per row that was ahead of it then and per transaction open then
      whose row will be ahead of it, besides the claims in flight. */
  lemma BoundedWaiting(c: Config, before: seq<Move>, after: seq<Move>, r: Id)
    requires ValidConfig(c)
    requires var s := Run(c, EMPTY, before); Due(s.rows, r, s.now) && r !in Locked(s.claims)
    ensures var s := Run(c, EMPTY, before);
            var n := Run(c, s, after);
            !ClaimedSince(n, r, |s.log|) ==> Bounded(s, n, r)
  {
    var s := Run(c, EMPTY, before);
    var n := Run(c, s, after);
    EmptyInv();
    assert r in s.rows;
    hide Run, Due, Inv, ClaimedSince, Timely, Ranked, Waiting, Bounded;
    RunKeeps(c, EMPTY, before);
    TimelyRun(c, EMPTY, before);
    if !ClaimedSince(n, r, |s.log|) {
      StartsWaiting(s, r);
      RankRun(c, s, s, after, r);
      RunKeeps(c, s, after);
      RankedIsBounded(s, n, r);
    }
  }

  lemma EmptyInv()
    ensures Inv(EMPTY) && Timely(EMPTY)
  {
    hide Publishable;
  }

  lemma StartsWaiting(s: System, r: Id)
    requires Inv(s) && Due(s.rows, r, s.now) && r !in Locked(s.claims)
    ensures Waiting(s, r, s.rows[r], |s.log|) && Ranked(s, s, r)
  {
    hide RowOk, Publishable;
    forall w | w in s.claims ensures s.claims[w].row != r && s.claims[w].serial < |s.log| {
      assert s.claims[w].row in Locked(s.claims);
      assert ClaimOk(s.rows, s.acked, s.log, s.committed, s.claims[w]);
    }
    hide ClaimOk;
  }

  /** A set whose members are numbered apart is no larger than the set of the numbers. */
  lemma NumberedApart<T>(m: map<nat, T>, s: set<T>)
    requires forall i, j | i in m && j in m && m[i] == m[j] :: i == j
    requires m.Values <= s
    ensures |m.Keys| <= |s|
  {
    InjectiveCount(m);
    SubsetCount(m.Values, s);
  }

  function FreshCommits(s: System, n: System): set<nat> { set i | i in n.committed && i >= |s.log| }
  function OldCommits(s: System, n: System): set<nat> { set i | i in n.committed && i !in s.committed && i < |s.log| }

  lemma NewCommits(s: System, n: System, r: Id)
    requires Ranked(s, n, r) && Inv(n) && Waiting(n, r, s.rows[r], |s.log|)
    ensures |FreshCommits(s, n)| <= |Rivals(s.rows, n.rows, r)|
  {
    hide RowOk, ClaimOk, Passed, Newcomer, Spent, Rival;
    var recent := map i | i in n.committed && i >= |s.log| :: n.log[i];
    forall i, j | i in recent && j in recent && i != j ensures recent[i] != recent[j] {
      if i < j { assert n.log[i] != n.log[j]; } else { assert n.log[j] != n.log[i]; }
    }
    forall x | x in recent.Values ensures x in Rivals(s.rows, n.rows, r) {
      var i :| i in recent && recent[i] == x;
      assert Rival(s.rows, n.rows, r, n.log[i]);
      RivalIsRow(s.rows, n.rows, r, x);
    }
    NumberedApart(recent, Rivals(s.rows, n.rows, r));
    assert recent.Keys == FreshCommits(s, n);
  }

  lemma RivalIsRow(start: Rows, rows: Rows, r: Id, x: Id)
    requires r in start && Rival(start, rows, r, x)
    ensures x in start.Keys + rows.Keys
  {
  }

  lemma OldInFlight(s: System, n: System, r: Id)
    requires Ranked(s, n, r)
    ensures |OldCommits(s, n)| <= |s.claims|
  {
    hide Passed, Newcomer, Rival;
    SubsetCount(OldCommits(s, n), set w | w in s.claims.Keys :: s.claims[w].serial);
    ImageCount(s.claims, s.claims.Keys);
  }

  lemma {:induction false} ImageCount(claims: map<nat, Claim>, keys: set<nat>)
    requires keys <= claims.Keys
    ensures |set w | w in keys :: claims[w].serial| <= |keys|
    decreases keys
  {
    var image := set w | w in keys :: claims[w].serial;
    if keys != {} {
      var k :| k in keys;
      ImageCount(claims, keys - {k});
      var rest := set w | w in keys - {k} :: claims[w].serial;
      assert image == rest + {claims[k].serial};
    }
  }

  lemma RankedIsBounded(s: System, n: System, r: Id)
    requires Ranked(s, n, r) && Inv(n) && Inv(s) && Waiting(n, r, s.rows[r], |s.log|)
    ensures Bounded(s, n, r)
  {
    NewCommits(s, n, r);
    OldInFlight(s, n, r);
    SplitCommits(s, n);
    if s.rows[r].nextAttemptAt < s.now { NoNewRivals(s, n, r); }
    hide Inv, Passed, Newcomer, Rival, Spent;
  }

  lemma SplitCommits(s: System, n: System)
    requires Inv(s)
    ensures |n.committed - s.committed| == |FreshCommits(s, n)| + |OldCommits(s, n)|
  {
    hide RowOk, ClaimOk;
    TwoParts(n.committed - s.committed, FreshCommits(s, n), OldCommits(s, n));
  }

  lemma NoNewRivals(s: System, n: System, r: Id)
    requires Ranked(s, n, r) && s.rows[r].nextAttemptAt < s.now
    ensures Rivals(s.rows, n.rows, r) <= AheadOf(s.rows, r) + OpenAhead(s, r)
    ensures |Rivals(s.rows, n.rows, r)| <= |AheadOf(s.rows, r)| + |OpenAhead(s, r)|
  {
    hide Passed;
    forall x | x in n.rows && x !in s.rows && Rival(s.rows, n.rows, r, x) ensures x in OpenAhead(s, r) {
      assert Newcomer(s, n.rows, r, x);
    }
    SubsetCount(Rivals(s.rows, n.rows, r), AheadOf(s.rows, r) + OpenAhead(s, r));
    TwoParts(AheadOf(s.rows, r) + OpenAhead(s, r), AheadOf(s.rows, r), OpenAhead(s, r) - AheadOf(s.rows, r));
    SubsetCount(OpenAhead(s, r) - AheadOf(s.rows, r), OpenAhead(s, r));
  }

  /** The open transactions do count: of two overlapping ones the later commits first, and the row of the
      earlier is claimed before it although nothing was ahead of it and no claim was in flight. */
  lemma OpenCreateOvertakes(c: Config, event: OutboxEvent, a: Id, b: Id)
    requires ValidConfig(c) && a != b
    ensures var s := Run(c, EMPTY, [Begin(a), Tick(1), Begin(b), Insert(b, event), Tick(2)]);
            && Due(s.rows, b, s.now) && s.rows[b].nextAttemptAt < s.now && s.claims == map[]
            && AheadOf(s.rows, b) == {} && OpenAhead(s, b) == {a}
            && Run(c, s, [Insert(a, event), ClaimNext(0, a)]).log == [a]
  {
    var row := Row(event, 1, 1, 0, None, None);
    var s := System(2, map[b := row], map[a := 0], map[], [], {}, {}, {});
    FirstMove(c, EMPTY, Begin(a), [Tick(1), Begin(b), Insert(b, event), Tick(2)]);
    FirstMove(c, System(0, map[], map[a := 0], map[], [], {}, {}, {}), Tick(1), [Begin(b), Insert(b, event), Tick(2)]);
    FirstMove(c, System(1, map[], map[a := 0], map[], [], {}, {}, {}), Begin(b), [Insert(b, event), Tick(2)]);
    FirstMove(c, System(1, map[], map[a := 0, b := 1], map[], [], {}, {}, {}), Insert(b, event), [Tick(2)]);
    FirstMove(c, System(1, map[b := row], map[a := 0], map[], [], {}, {}, {}), Tick(2), []);
    assert Run(c, EMPTY, [Begin(a), Tick(1), Begin(b), Insert(b, event), Tick(2)]) == s;
    FirstMove(c, s, Insert(a, event), [ClaimNext(0, a)]);
    FirstMove(c, s.(rows := s.rows[a := Row(event, 0, 0, 0, None, None)], creates := map[]), ClaimNext(0, a), []);
  }

  lemma FirstMove(c: Config, s: System, m: Move, rest: seq<Move>)
    requires ValidConfig(c)
    ensures Run(c, s, [m] + rest) == Run(c, Step(c, s, m), rest)
  {
    assert ([m] + rest)[1..] == rest;
    hide Step;
  }

  // ---------------------------------------------------------------- attempts

  /** The committed claims of a row, by serial. */
  ghost function CommitsOf(s: System, a: Id): set<nat> { set n | n in s.committed && n < |s.log| && s.log[n] == a }

  /** Every claim ever made was of a stored row, and a row's attempts count its committed claims. */
  ghost predicate Counted(s: System) {
    && (forall n | 0 <= n < |s.log| :: s.log[n] in s.rows)
    && (forall a | a in s.rows :: s.rows[a].attempts == |CommitsOf(s, a)|)
  }

  lemma CommitCounted(c: Config, s: System, m: Move)
    requires ValidConfig(c) && Inv(s) && Counted(s) && m.Commit? && Enabled(s, m)
    ensures Counted(Moved(c, s, m))
  {
    hide RowOk, Publishable;
    var n, x := Moved(c, s, m), s.claims[m.w].row;
    assert ClaimOk(s.rows, s.acked, s.log, s.committed, s.claims[m.w]);
    hide Inv, ClaimOk;
    forall a | a in n.rows ensures n.rows[a].attempts == |CommitsOf(n, a)| {
      if a == x {
        assert CommitsOf(n, a) == CommitsOf(s, a) + {s.claims[m.w].serial};
      } else {
        assert CommitsOf(n, a) == CommitsOf(s, a);
      }
    }
  }

  lemma OtherCounted(c: Config, s: System, m: Move)
    requires ValidConfig(c) && Inv(s) && Counted(s) && !m.Commit? && Enabled(s, m)
    ensures Counted(Moved(c, s, m))
  {
    hide RowOk, Publishable, PublishEvent, ClaimOk;
    var n := Moved(c, s, m);
    forall a | a in n.rows ensures n.rows[a].attempts == |CommitsOf(n, a)| {
      assert CommitsOf(n, a) == CommitsOf(s, a);
      if a !in s.rows { assert CommitsOf(s, a) == {}; }
    }
  }

  lemma {:induction false} CountedRun(c: Config, s: System, moves: seq<Move>)
    requires ValidConfig(c) && Inv(s) && Counted(s)
    ensures Inv(Run(c, s, moves)) && Counted(Run(c, s, moves))
    decreases moves
  {
    hide Inv, Moved, Enabled, Counted;
    if moves != [] {
      StepKeeps(c, s, moves[0]);
      if Enabled(s, moves[0]) {
        if moves[0].Commit? { CommitCounted(c, s, moves[0]); } else { OtherCounted(c, s, moves[0]); }
      }
      CountedRun(c, Step(c, s, moves[0]), moves[1..]);
    }
  }

  /** In every run a row's attempts are its committed claims. A failure that is recorded is the n-th of its row,
      counted over the whole run, and schedules the next attempt min * 2^(n-1) later, capped at max. */
  lemma AttemptsCount(c: Config, moves: seq<Move>, w: nat)
    requires ValidConfig(c)
    ensures var s := Run(c, EMPTY, moves);
            && (forall a | a in s.rows :: s.rows[a].attempts == |CommitsOf(s, a)|)
            && (Enabled(s, Fail(w)) ==> Scheduled(c, s, w, Step(c, Step(c, s, Fail(w)), Commit(w))))
  {
    EmptyInv();
    hide Run, Inv;
    CountedRun(c, EMPTY, moves);
    var s := Run(c, EMPTY, moves);
    if Enabled(s, Fail(w)) { FailureSchedules(c, s, w); }
  }

  ghost predicate Scheduled(c: Config, s: System, w: nat, n: System)
    requires ValidConfig(c) && w in s.claims
  {
    var a := s.claims[w].row;
    var k := |CommitsOf(s, a)| + 1;
    var delay := c.retryMin as int * Pow2(k - 1);
    && a in n.rows && n.rows[a].attempts == k
    && n.rows[a].nextAttemptAt == s.now + if delay < c.retryMax as int then delay else c.retryMax as int
  }

  lemma FailureSchedules(c: Config, s: System, w: nat)
    requires ValidConfig(c) && Inv(s) && Counted(s) && Enabled(s, Fail(w))
    ensures Scheduled(c, s, w, Step(c, Step(c, s, Fail(w)), Commit(w)))
  {
    hide RowOk, Publishable, PublishEvent;
    assert ClaimOk(s.rows, s.acked, s.log, s.committed, s.claims[w]);
    hide Inv;
  }
}
