/** The transactional outbox: which events may be sent, the store that claims one due row under a row lock,
    and any number of publishers working on it at once. */
module OutboxStore {
  import opened Text
  import opened Domain
  import opened Backoff

  // ---------------------------------------------------------------- events

  /** validateEvent; the id columns are UUIDs, so their texts are never blank. */
  predicate ValidEvent(e: OutboxEvent) {
    && (match e.eventType case PaymentsCreated => true case OtherType(name) => TrimSpace(name) != "")
    && e.schemaVersion >= 1 && e.occurredAt != 0 && !e.payload.NotAnObject?
  }

  /** What one publish call does: whether it produced to the broker, and whether its error is permanent. */
  datatype Publication = Acked | BrokerError(landed: bool) | PermanentError

  /** Worker.publish: type and envelope are checked before anything is produced. */
  function PublishEvent(e: OutboxEvent, broker: Publication): Publication
    requires !broker.PermanentError?
  {
    if e.eventType != PaymentsCreated then PermanentError
    else if !ValidEvent(e) then PermanentError
    else broker
  }

  /** The events the publisher can send. */
  predicate Publishable(e: OutboxEvent) {
    e.eventType.PaymentsCreated? && e.schemaVersion >= 1 && e.occurredAt != 0 && !e.payload.NotAnObject?
  }

  /** An error is permanent exactly for an event that can never be sent, and then nothing was produced. */
  lemma PermanentMeansUnsendable(e: OutboxEvent, broker: Publication)
    requires !broker.PermanentError?
    ensures PublishEvent(e, broker).PermanentError? <==> !Publishable(e)
    ensures Publishable(e) ==> PublishEvent(e, broker) == broker
  {
    hide TrimSpace;
  }

  // ---------------------------------------------------------------- rows and their order

  /** Row ids are UUIDs as 128-bit numbers, the way PostgreSQL orders them. */
  type Id = int

  datatype Row = Row(
    event: OutboxEvent, createdAt: int, nextAttemptAt: int, attempts: nat,
    publishedAt: Option<int>, deadLetteredAt: Option<int>)

  type Rows = map<Id, Row>

  predicate Open(r: Row) { r.publishedAt.None? && r.deadLetteredAt.None? }

  /** ORDER BY next_attempt_at, created_at, id. */
  predicate Before(rows: Rows, a: Id, b: Id)
    requires a in rows && b in rows
  {
    var x, y := rows[a], rows[b];
    x.nextAttemptAt < y.nextAttemptAt
    || (x.nextAttemptAt == y.nextAttemptAt && (x.createdAt < y.createdAt || (x.createdAt == y.createdAt && a < b)))
  }

  predicate Due(rows: Rows, a: Id, now: int) { a in rows && Open(rows[a]) && rows[a].nextAttemptAt <= now }

  /** The row FOR UPDATE SKIP LOCKED LIMIT 1 returns: the first due row nobody holds. */
  predicate IsFirst(rows: Rows, locked: set<Id>, now: int, a: Id) {
    && Due(rows, a, now) && a !in locked
    && forall b | b in rows && b != a && Due(rows, b, now) && b !in locked :: Before(rows, a, b)
  }

  /** Which row is claimed, spelled out: undelivered, not dead, due and free, and no other such row has an
      earlier attempt time, or the same and an earlier creation time, or both the same and a smaller id. */
  lemma FirstInOrder(rows: Rows, locked: set<Id>, now: int, a: Id)
    ensures IsFirst(rows, locked, now, a) <==>
              && Waits(rows, locked, now, a)
              && forall b | b in rows && b != a && Waits(rows, locked, now, b) ::
                && rows[a].nextAttemptAt <= rows[b].nextAttemptAt
                && (rows[a].nextAttemptAt == rows[b].nextAttemptAt ==> rows[a].createdAt <= rows[b].createdAt)
                && (rows[a].nextAttemptAt == rows[b].nextAttemptAt && rows[a].createdAt == rows[b].createdAt ==> a < b)
  {
  }

  predicate Waits(rows: Rows, locked: set<Id>, now: int, a: Id) {
    && a in rows && rows[a].publishedAt == None && rows[a].deadLetteredAt == None
    && rows[a].nextAttemptAt <= now && a !in locked
  }

  lemma {:induction false} FirstOf(rows: Rows, ids: set<Id>, x: Id) returns (a: Id)
    requires x in ids && forall y | y in ids :: y in rows
    ensures a in ids && forall b | b in ids && b != a :: Before(rows, a, b)
    decreases |ids|
  {
    a := x;
    if y :| y in ids && y != x {
      var b := FirstOf(rows, ids - {x}, y);
      if Before(rows, b, x) { a := b; }
      forall z | z in ids && z != a ensures Before(rows, a, z) {
        if z != x && z != b { assert z in ids - {x} && Before(rows, b, z); }
      }
    }
  }

  /** Exactly one row is first whenever some row is due and free. */
  lemma FirstExists(rows: Rows, locked: set<Id>, now: int)
    ensures (exists a :: IsFirst(rows, locked, now, a)) <==> exists a | a in rows :: Due(rows, a, now) && a !in locked
    ensures forall a, b | IsFirst(rows, locked, now, a) && IsFirst(rows, locked, now, b) :: a == b
  {
    if x :| x in rows && Due(rows, x, now) && x !in locked {
      var free := set a | a in rows && Due(rows, a, now) && a !in locked;
      assert x in free;
      var a := FirstOf(rows, free, x);
      assert IsFirst(rows, locked, now, a);
    }
  }

  // ---------------------------------------------------------------- the store

  function Marked(r: Row, now: int): Row { r.(publishedAt := Some(now), attempts := r.attempts + 1) }

  function Missed(r: Row, next: int, permanent: bool, now: int): Row {
    r.(attempts := r.attempts + 1, nextAttemptAt := next, deadLetteredAt := if permanent then Some(now) else None)
  }

  /** The row was delivered at `now`, by one more attempt. */
  ghost predicate Done(r: Row, n: Row, now: int) {
    n == Row(r.event, r.createdAt, r.nextAttemptAt, r.attempts + 1, Some(now), r.deadLetteredAt)
  }

  /** The row failed at `now`: one more attempt, the next one after the delay of that many failures, and dead
      when the failure is permanent. */
  ghost predicate Retried(r: Row, n: Row, now: int, permanent: bool, minimum: int64, maximum: int64)
    requires 0 < minimum <= maximum
  {
    n == Row(r.event, r.createdAt, now + Capped(r.attempts + 1, minimum, maximum), r.attempts + 1, r.publishedAt,
      if permanent then Some(now) else None)
  }

  /** A row after retriable failures at these times. */
  function AfterFailures(r: Row, times: seq<int>, minimum: int64, maximum: int64): Row
    requires 0 < minimum <= maximum
    decreases |times|
  {
    if times == [] then r
    else
      var n, now := AfterFailures(r, times[..|times| - 1], minimum, maximum), times[|times| - 1];
      Missed(n, now + Capped(n.attempts + 1, minimum, maximum), false, now)
  }

  /** Attempts count the failures, and the n-th failure in all waits min * 2^(n-1), capped at max. */
  lemma {:induction false} NthFailureWaits(r: Row, times: seq<int>, minimum: int64, maximum: int64)
    requires 0 < minimum <= maximum && Open(r)
    ensures var n, k := AfterFailures(r, times, minimum, maximum), r.attempts + |times|;
            && Open(n) && n.event == r.event && n.createdAt == r.createdAt && n.attempts == k
            && (times != [] ==>
                  var delay := minimum as int * Pow2(k - 1);
                  n.nextAttemptAt == times[|times| - 1] + if delay < maximum as int then delay else maximum as int)
    decreases |times|
  {
    if times != [] { NthFailureWaits(r, times[..|times| - 1], minimum, maximum); }
  }

  class PostgresStore {
    var rows: Rows
    const retryMin: int64
    const retryMax: int64

    constructor (retryMin: int64, retryMax: int64)
      requires 0 < retryMin <= retryMax
      ensures rows == map[] && this.retryMin == retryMin && this.retryMax == retryMax
    {
      this.retryMin, this.retryMax := retryMin, retryMax;
      rows := map[];
    }

    /** UPDATE ... WHERE id = $1 AND published_at IS NULL AND dead_lettered_at IS NULL. */
    method MarkPublished(id: Id, now: int) returns (affected: nat)
      modifies this
      ensures id in old(rows) && Open(old(rows)[id]) ==>
          affected == 1 && rows == old(rows)[id := Marked(old(rows)[id], now)] && Done(old(rows)[id], rows[id], now)
      ensures !(id in old(rows) && Open(old(rows)[id])) ==> affected == 0 && rows == old(rows)
    {
      if id !in rows || !Open(rows[id]) { return 0; }
      rows := rows[id := Marked(rows[id], now)];
      return 1;
    }

    method RecordFailure(id: Id, permanent: bool, now: int) returns (affected: nat)
      requires id in rows && rows[id].attempts < 0x7FFF_FFFF && 0 < retryMin <= retryMax
      modifies this
      ensures Open(old(rows)[id]) ==>
                affected == 1
                && rows == old(rows)[id := Missed(old(rows)[id],
                    now + Capped(old(rows)[id].attempts + 1, retryMin, retryMax), permanent, now)]
                && Retried(old(rows)[id], rows[id], now, permanent, retryMin, retryMax)
      ensures !Open(old(rows)[id]) ==> affected == 0 && rows == old(rows)
    {
      var failedAttempt := (rows[id].attempts + 1) as int64;
      var delay := DeliveryBackoff(failedAttempt, retryMin, retryMax);
      if !Open(rows[id]) { return 0; }
      rows := rows[id := Missed(rows[id], now + delay as int, permanent, now)];
      return 1;
    }

    /** ProcessNext with nobody else writing: the first due free row is claimed, published and completed.
        The out-parameter tells the claimed row and what its publish call came to. */
    method ProcessNext(locked: set<Id>, now: int, broker: Publication) returns (claimed: Option<Id>,
          result: Publication)
      requires !broker.PermanentError? && 0 < retryMin <= retryMax && forall a | a in rows ::
          rows[a].attempts < 0x7FFF_FFFF
      modifies this
      ensures claimed.None? <==> forall a | a in old(rows) :: !(Due(old(rows), a, now) && a !in locked)
      ensures claimed.None? ==> rows == old(rows)
      ensures claimed.Some? ==> IsFirst(old(rows), locked, now, claimed.value)
      ensures claimed.Some? ==> result == PublishEvent(old(rows)[claimed.value].event, broker)
      ensures claimed.Some? ==>
                var a := claimed.value;
                rows == old(rows)[a := if result.Acked? then Marked(old(rows)[a], now)
                  else Missed(old(rows)[a], now + Capped(old(rows)[a].attempts + 1, retryMin, retryMax),
                      result.PermanentError?, now)]
                && if result.Acked? then Done(old(rows)[a], rows[a], now)
                   else Retried(old(rows)[a], rows[a], now, result.PermanentError?, retryMin, retryMax)
    {
      FirstExists(rows, locked, now);
      if forall a | a in rows :: !(Due(rows, a, now) && a !in locked) { return None, Acked; }
      var a := Select(locked, now);
      result := PublishEvent(rows[a].event, broker);
      if result.Acked? {
        var affected := MarkPublished(a, now);
      } else {
        var affected := RecordFailure(a, result.PermanentError?, now);
      }
      return Some(a), result;
    }

    /** selectNextEventSQL. */
    method Select(locked: set<Id>, now: int) returns (a: Id)
      requires exists x | x in rows :: Due(rows, x, now) && x !in locked
      ensures IsFirst(rows, locked, now, a)
    {
      var candidates := set x | x in rows && Due(rows, x, now) && x !in locked;
      a :| a in rows && Due(rows, a, now) && a !in locked;
      var rest := candidates - {a};
      while rest != {}
        invariant rest <= candidates && a in candidates && a !in rest
        invariant forall b | b in candidates && b !in rest && b != a :: Before(rows, a, b)
        decreases |rest|
      {
        var b :| b in rest;
        if Before(rows, b, a) { a := b; }
        rest := rest - {b};
      }
    }
  }
}
