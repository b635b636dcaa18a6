/** The decision consumer: what handling one Kafka record does to the tables, what repeating it does,
    and the loop that advances the committed offset. */
module Deliveries {
  import opened Text
  import opened Domain
  import opened EventContract
  import opened Ledger
  import opened LedgerInvariant
  import opened Database

  /** applicationRejectionCode: the permanent errors. */
  function RejectionCodeFor(error: StoreError): Option<RejectionCode> {
    match error
    case NoPayment => Some(PaymentNotFound)
    case DecisionClash => Some(DecisionConflict)
    case StateClash => Some(PaymentStateConflict)
    case _ => None
  }

  /** Worker.handle; the flag tells whether the offset may be committed. */
  function Handle(db: Db, r: Record): (Db, bool) {
    match ParseEvent(r.value)
    case None => var (n, error) := RejectTx(db, r, InvalidEvent); (n, error.None?)
    case Some(e) =>
      var (n, result) := ApplyTx(db, e, r);
      if result.Accepted? then (n, true)
      else match RejectionCodeFor(result.error)
        case None => (n, false)
        case Some(code) => var (m, error) := RejectTx(n, r, code); (m, error.None?)
  }

  lemma ParsedCarries(r: Record)
    ensures ParseEvent(r.value).Some? ==> Carries(r, ParseEvent(r.value).value)
  {
  }

  lemma HandleKeeps(db: Db, r: Record)
    requires DbInv(db)
    ensures DbInv(Handle(db, r).0)
  {
    ParsedCarries(r);
    hide DbInv, ApplyTx, RejectTx, Carries, ParseEvent;
    match ParseEvent(r.value)
    case None => RejectKeeps(db, r, InvalidEvent);
    case Some(e) => {
      ApplyKeeps(db, e, r);
      var (n, result) := ApplyTx(db, e, r);
      if result.Refused? && RejectionCodeFor(result.error).Some? {
        RejectKeeps(n, r, RejectionCodeFor(result.error).value);
      }
    }
  }

  // ---------------------------------------------------------------- handling a record again

  /** The record's coordinate holds a REJECTED receipt for this very value. */
  predicate Quarantined(db: Db, r: Record) {
    ValidSource(r.at) && ExistingReceipt(db, r) == Found(Rejected)
  }

  lemma AppliedHasReceipt(db: Db, e: Event, r: Record)
    requires ApplyTx(db, e, r).1.Accepted?
    ensures var n := ApplyTx(db, e, r).0;
            ValidSource(r.at) && ExistingReceipt(n, r).Found? && ExistingReceipt(n, r) != Found(Rejected)
  {
    hide ValidSource, SourceTaken, RoomFor;
  }

  lemma RejectedHasReceipt(db: Db, r: Record, code: RejectionCode)
    requires RejectTx(db, r, code).1.None?
    ensures ValidSource(r.at) && ExistingReceipt(RejectTx(db, r, code).0, r) == Found(Rejected)
  {
    hide ValidSource;
  }

  /** Handling succeeds only by leaving a receipt. */
  lemma HandledHasReceipt(db: Db, r: Record)
    requires Handle(db, r).1
    ensures var n := Handle(db, r).0; ValidSource(r.at) && ExistingReceipt(n, r).Found?
    ensures var n := Handle(db, r).0; ExistingReceipt(n, r) != Found(Rejected) ==> ParseEvent(r.value).Some?
  {
    hide ValidSource, ContractOk, ApplyTx, RejectTx, ExistingReceipt;
    match ParseEvent(r.value)
    case None => RejectedHasReceipt(db, r, InvalidEvent);
    case Some(e) => {
      var (n, result) := ApplyTx(db, e, r);
      if result.Accepted? { AppliedHasReceipt(db, e, r); }
      else { RejectedHasReceipt(n, r, RejectionCodeFor(result.error).value); }
    }
  }

  /** After a success, handling the record again changes nothing; it succeeds again if and only if the
      record did not parse or was accepted. A parsed record that was rejected can never be handled. */
  lemma HandlingAgain(db: Db, r: Record)
    requires DbInv(db) && Handle(db, r).1
    ensures var n := Handle(db, r).0;
            && Handle(n, r).0 == n
            && (Handle(n, r).1 <==> ParseEvent(r.value).None? || !Quarantined(n, r))
  {
    HandledHasReceipt(db, r);
    assert ParseEvent(r.value).None? ==> ExistingReceipt(Handle(db, r).0, r) == Found(Rejected) by {
      assert Receipted(db.decisions, db.receipts);
      if ExistingReceipt(db, r).Found? { assert ReceiptOk(db.decisions, db.receipts[r.at]); }
    }
    var n := Handle(db, r).0;
    hide Handle, DbInv, ValidSource, ContractOk;
    SettledRecord(n, r);
  }

  lemma SettledRecord(n: Db, r: Record)
    requires ValidSource(r.at) && ExistingReceipt(n, r).Found?
    requires ExistingReceipt(n, r) != Found(Rejected) ==> ParseEvent(r.value).Some?
    ensures Handle(n, r) == (n, ParseEvent(r.value).None? || !Quarantined(n, r))
  {
    hide ValidSource, ContractOk;
  }

  /** A tombstone cannot be rejected, since a rejected receipt must hold the value: the consumer gets past
      one only if the coordinate already has a REJECTED receipt of an empty value. */
  lemma TombstoneBlocks(db: Db, at: Coord)
    ensures Handle(db, Record(at, Null)) == (db, Quarantined(db, Record(at, Null)))
  {
    hide ValidSource;
  }

  /** The record has no receipt, and its event names a payment by an id that PostgreSQL does not take. */
  predicate Uncastable(db: Db, r: Record)
    requires ParseEvent(r.value).Some?
  {
    var p := ParseEvent(r.value).value.payload.paymentId;
    r.at !in db.receipts && p.Uncast? && p !in db.payments
  }

  /** A record no attempt can handle: one that parsed and is quarantined or cannot be looked up, or a
      tombstone that is not quarantined. */
  predicate Hopeless(db: Db, r: Record) {
    if r.value.Null? then !Quarantined(db, r)
    else ParseEvent(r.value).Some? && (Quarantined(db, r) || Uncastable(db, r))
  }

  lemma HopelessFails(db: Db, r: Record)
    requires Hopeless(db, r)
    ensures Handle(db, r) == (db, false)
  {
    hide Handle, ValidSource, ContractOk;
    if r.value.Null? {
      TombstoneBlocks(db, r.at);
    } else if Quarantined(db, r) {
      SettledRecord(db, r);
    } else {
      LookupFails(db, r);
    }
  }

  /** The cast error is not one of the permanent refusals, so nothing is stored and nothing quarantined. */
  lemma LookupFails(db: Db, r: Record)
    requires ParseEvent(r.value).Some? && Uncastable(db, r)
    ensures Handle(db, r) == (db, false)
  {
    hide ValidSource, ContractOk, SourceTaken, RoomFor, RejectTx;
  }

  /** An event that takes the stalling route is a record no attempt can handle, first or later. */
  lemma StalledIsHopeless(db: Db, e: Event, text: Uuid -> string, at: Coord)
    requires RendersUuids(text, Ids(e)) && Stripped(e) && RouteOf(Encode(e, text)) == Stalled
    requires at !in db.receipts && e.payload.paymentId !in db.payments
    ensures Hopeless(db, Record(at, Json(e))) && Handle(db, Record(at, Json(e))) == (db, false)
  {
    hide *;
    EncodedEventStalls(e, text);
    UncastIsHopeless(db, e, at);
    HopelessFails(db, Record(at, Json(e)));
  }

  lemma UncastIsHopeless(db: Db, e: Event, at: Coord)
    requires ContractOk(e) && e.payload.paymentId.Uncast? && at !in db.receipts && e.payload.paymentId !in db.payments
    ensures Hopeless(db, Record(at, Json(e)))
  {
    hide ContractOk, Quarantined;
  }

  // ---------------------------------------------------------------- runs of committed transactions

  /** One committed transaction: an Apply or Reject attempt on a record, a review, a new payment. */
  datatype Op =
    | Applying(r: Record) | Rejecting(bad: Record, code: RejectionCode)
    | Reviewing(c: ResolveCommand) | Creating(candidate: Payment, event: OutboxEvent, now: int)

  function Perform(db: Db, op: Op): Db {
    match op
    case Applying(r) => (match ParseEvent(r.value) case None => db case Some(e) => ApplyTx(db, e, r).0)
    case Rejecting(r, code) => RejectTx(db, r, code).0
    case Reviewing(c) => ResolveTx(db, c).0
    case Creating(x, event, now) =>
      if KeyTaken(db.payments, x.idempotencyKey) || x.id in db.payments || event.id in db.outbox then db
      else db.(payments := db.payments[x.id := x], outbox := db.outbox[event.id := NewRow(event, now)])
  }

  function PerformAll(db: Db, ops: seq<Op>): Db
    decreases ops
  {
    if ops == [] then db else PerformAll(Perform(db, ops[0]), ops[1..])
  }

  lemma PerformCreates(db: Db, x: Payment, event: OutboxEvent, now: int)
    requires UniqueKeys(db.payments)
    ensures Perform(db, Creating(x, event, now)) == CreateTx(db, x, event, now).0
  {
    hide KeyTaken, UniqueKeys;
  }

  lemma {:induction false} ReceiptsStay(db: Db, ops: seq<Op>, at: Coord)
    requires at in db.receipts
    ensures at in PerformAll(db, ops).receipts && PerformAll(db, ops).receipts[at] == db.receipts[at]
    decreases ops
  {
    if ops != [] {
      ReceiptStays(db, ops[0], at);
      hide Perform;
      ReceiptsStay(Perform(db, ops[0]), ops[1..], at);
    }
  }

  lemma ReceiptStays(db: Db, op: Op, at: Coord)
    requires at in db.receipts
    ensures at in Perform(db, op).receipts && Perform(db, op).receipts[at] == db.receipts[at]
  {
    hide ValidSource, ContractOk, SourceTaken, RoomFor, KeyTaken, AuditTaken;
  }

  /** Whatever runs in between, a record that parsed but was rejected fails on every later attempt and
      changes nothing. */
  lemma RejectedForever(db: Db, r: Record, ops: seq<Op>)
    requires Quarantined(db, r) && ParseEvent(r.value).Some?
    ensures var n := PerformAll(db, ops); Handle(n, r) == (n, false)
  {
    ReceiptsStay(db, ops, r.at);
    hide PerformAll, ContractOk, Handle;
    assert Quarantined(PerformAll(db, ops), r);
    SettledRecord(PerformAll(db, ops), r);
  }

  // ---------------------------------------------------------------- duplicates only leave receipts

  /** Exactly this event is on record. */
  predicate OnRecord(decisions: Decisions, v: Value) {
    v.Json? && v.event.payload.decisionId in decisions && decisions[v.event.payload.decisionId] == v.event
  }

  /** A further delivery of an event that was applied before. */
  predicate Duplicate(db: Db, op: Op) {
    match op
    case Applying(r) => OnRecord(db.decisions, r.value)
    case Rejecting(r, _) => OnRecord(db.decisions, r.value)
    case _ => false
  }

  /** The run without the deliveries that come after an event's first application. */
  function WithoutDuplicates(db: Db, ops: seq<Op>): seq<Op>
    decreases ops
  {
    if ops == [] then []
    else (if Duplicate(db, ops[0]) then [] else [ops[0]]) + WithoutDuplicates(Perform(db, ops[0]), ops[1..])
  }

  predicate SameButReceipts(a: Db, b: Db) { a == b.(receipts := a.receipts) }

  /** Every op that carries a record carries the one value its coordinate has in the topic. */
  ghost predicate FromTopic(op: Op, topic: map<Coord, Value>) {
    match op
    case Applying(r) => r.at in topic && topic[r.at] == r.value
    case Rejecting(r, _) => r.at in topic && topic[r.at] == r.value
    case _ => true
  }

  ghost predicate SameReceipt(a: Receipts, b: Receipts, at: Coord) {
    (at in a <==> at in b) && (at in a ==> a[at] == b[at])
  }

  /** Two table states that differ only in receipts of records whose event is on record. */
  ghost predicate Alike(a: Db, b: Db, topic: map<Coord, Value>) {
    && SameButReceipts(a, b)
    && forall at | at in topic && !OnRecord(a.decisions, topic[at]) :: SameReceipt(a.receipts, b.receipts, at)
  }

  lemma DecisionsOnlyGrow(db: Db, op: Op, v: Value)
    requires OnRecord(db.decisions, v)
    ensures OnRecord(Perform(db, op).decisions, v)
  {
    hide ValidSource, ContractOk, SourceTaken, RoomFor, KeyTaken, AuditTaken;
  }

  lemma DuplicateWritesOneReceipt(db: Db, op: Op)
    requires Duplicate(db, op)
    ensures var r := if op.Applying? then op.r else op.bad;
            && SameButReceipts(Perform(db, op), db)
            && forall at | at != r.at :: SameReceipt(Perform(db, op).receipts, db.receipts, at)
  {
    hide ValidSource, ContractOk, SourceTaken, RoomFor;
  }

  lemma SameApply(a: Db, b: Db, e: Event, r: Record)
    requires SameButReceipts(a, b) && SameReceipt(a.receipts, b.receipts, r.at)
    ensures ApplyTx(a, e, r).1 == ApplyTx(b, e, r).1
    ensures SameButReceipts(ApplyTx(a, e, r).0, ApplyTx(b, e, r).0)
    ensures forall at | SameReceipt(a.receipts, b.receipts, at) ::
        SameReceipt(ApplyTx(a, e, r).0.receipts, ApplyTx(b, e, r).0.receipts, at)
  {
    hide *;
    SameApplyTables(a, b, e, r);
    SameApplyReceipts(a, b, e, r);
  }

  lemma SameApplyTables(a: Db, b: Db, e: Event, r: Record)
    requires SameButReceipts(a, b) && SameReceipt(a.receipts, b.receipts, r.at)
    ensures ApplyTx(a, e, r).1 == ApplyTx(b, e, r).1
    ensures SameButReceipts(ApplyTx(a, e, r).0, ApplyTx(b, e, r).0)
  {
    hide ValidSource, SourceTaken, AuditTaken, QueuedDecision;
    assert ExistingReceipt(a, r) == ExistingReceipt(b, r);
    assert RoomFor(a, e) == RoomFor(b, e);
    hide ExistingReceipt, RoomFor;
  }

  lemma SameApplyReceipts(a: Db, b: Db, e: Event, r: Record)
    requires SameButReceipts(a, b) && SameReceipt(a.receipts, b.receipts, r.at)
    ensures forall at | SameReceipt(a.receipts, b.receipts, at) ::
        SameReceipt(ApplyTx(a, e, r).0.receipts, ApplyTx(b, e, r).0.receipts, at)
  {
    hide ValidSource, SourceTaken, AuditTaken, QueuedDecision;
    assert ExistingReceipt(a, r) == ExistingReceipt(b, r);
    assert RoomFor(a, e) == RoomFor(b, e);
    hide ExistingReceipt, RoomFor, DecisionAudit, NewQueueRow;
  }

  /** What one op does depends on nothing but the domain tables and the receipt at its own coordinate. */
  lemma SameEffect(a: Db, b: Db, op: Op)
    requires SameButReceipts(a, b)
    requires op.Applying? ==> SameReceipt(a.receipts, b.receipts, op.r.at)
    requires op.Rejecting? ==> SameReceipt(a.receipts, b.receipts, op.bad.at)
    ensures SameButReceipts(Perform(a, op), Perform(b, op))
    ensures forall at | SameReceipt(a.receipts, b.receipts, at) ::
        SameReceipt(Perform(a, op).receipts, Perform(b, op).receipts, at)
  {
    if op.Applying? {
      hide ContractOk, ApplyTx;
      if ParseEvent(op.r.value).Some? { SameApply(a, b, ParseEvent(op.r.value).value, op.r); }
    } else if op.Rejecting? {
      hide *;
      SameReject(a, b, op);
    } else if op.Reviewing? {
      hide ResolveTx;
      SameResolve(a, b, op.c);
    } else {
      hide *;
      SameCreate(a, b, op);
    }
  }

  lemma SameReject(a: Db, b: Db, op: Op)
    requires op.Rejecting? && SameButReceipts(a, b) && SameReceipt(a.receipts, b.receipts, op.bad.at)
    ensures SameButReceipts(Perform(a, op), Perform(b, op))
    ensures forall at | SameReceipt(a.receipts, b.receipts, at) ::
        SameReceipt(Perform(a, op).receipts, Perform(b, op).receipts, at)
  {
    hide ValidSource;
  }

  lemma SameCreate(a: Db, b: Db, op: Op)
    requires op.Creating? && SameButReceipts(a, b)
    ensures SameButReceipts(Perform(a, op), Perform(b, op))
    ensures Perform(a, op).receipts == a.receipts && Perform(b, op).receipts == b.receipts
  {
    hide KeyTaken;
  }

  lemma SameResolve(a: Db, b: Db, c: ResolveCommand)
    requires SameButReceipts(a, b)
    ensures SameButReceipts(ResolveTx(a, c).0, ResolveTx(b, c).0)
    ensures ResolveTx(a, c).0.receipts == a.receipts && ResolveTx(b, c).0.receipts == b.receipts
  {
    hide AuditTaken;
  }

  lemma StaysAlike(a: Db, b: Db, op: Op, topic: map<Coord, Value>)
    requires Alike(a, b, topic) && FromTopic(op, topic)
    ensures Alike(Perform(a, op), if Duplicate(a, op) then b else Perform(b, op), topic)
  {
    if Duplicate(a, op) {
      DuplicateWritesOneReceipt(a, op);
    } else {
      hide OnRecord;
      SameEffect(a, b, op);
    }
    hide Perform, OnRecord;
    forall at | at in topic && !OnRecord(Perform(a, op).decisions, topic[at])
      ensures !OnRecord(a.decisions, topic[at])
    {
      if OnRecord(a.decisions, topic[at]) { DecisionsOnlyGrow(a, op, topic[at]); }
    }
  }

  lemma {:induction false} DroppedDuplicates(a: Db, b: Db, ops: seq<Op>, topic: map<Coord, Value>)
    requires Alike(a, b, topic) && forall i | 0 <= i < |ops| :: FromTopic(ops[i], topic)
    ensures SameButReceipts(PerformAll(a, ops), PerformAll(b, WithoutDuplicates(a, ops)))
    decreases ops
  {
    if ops != [] {
      var rest := WithoutDuplicates(Perform(a, ops[0]), ops[1..]);
      StaysAlike(a, b, ops[0], topic);
      var b' := if Duplicate(a, ops[0]) then b else Perform(b, ops[0]);
      DroppedDuplicates(Perform(a, ops[0]), b', ops[1..], topic);
      hide Perform, Duplicate, SameButReceipts;
      if Duplicate(a, ops[0]) {
        assert WithoutDuplicates(a, ops) == rest;
      } else {
        assert WithoutDuplicates(a, ops) == [ops[0]] + rest && ([ops[0]] + rest)[1..] == rest;
      }
    }
  }

  /** Deliveries after an event's first application leave payments, outbox, decisions, audits and the
      review queue as they would be without them. */
  lemma DuplicatesTouchOnlyReceipts(db: Db, ops: seq<Op>, topic: map<Coord, Value>)
    requires forall i | 0 <= i < |ops| :: FromTopic(ops[i], topic)
    ensures SameButReceipts(PerformAll(db, ops), PerformAll(db, WithoutDuplicates(db, ops)))
  {
    hide PerformAll, WithoutDuplicates;
    DroppedDuplicates(db, db, ops, topic);
  }

  // ---------------------------------------------------------------- the worker

  /** What the environment does to one attempt of the loop. */
  datatype Fault = Healthy | PollFails | DatabaseDown | CommitLost | CommitUnacknowledged | Cancelled

  /** What a run of the loop leaves. */
  datatype Looped = Looped(db: Db, committed: nat, failed: bool)

  /** The loop from `position` on: a record is polled, then attempted until it is handled, then committed. */
  function Looping(db: Db, topic: string, partition: int, log: seq<Value>, committed: nat, position: nat,
        script: seq<Fault>, polled: bool): Looped
    decreases script, 1
  {
    if script == [] || position >= |log| then Looped(db, committed, false)
    else if script[0] == PollFails && !polled then
      Looping(db, topic, partition, log, committed, position, script[1..], false)
    else if script[0] == Cancelled then Looped(db, committed, false)
    else if script[0] == DatabaseDown then
      Looping(db, topic, partition, log, committed, position, script[1..], true)
    else
      var (n, handled) := Handle(db, Record(Coord(topic, partition, position), log[position]));
      if handled then Committing(n, topic, partition, log, committed, position, script)
      else Looping(n, topic, partition, log, committed, position, script[1..], true)
  }

  /** The record is handled; a failed commit ends the run, whether or not it landed. */
  function Committing(db: Db, topic: string, partition: int, log: seq<Value>, committed: nat, position: nat,
        script: seq<Fault>): Looped
    requires script != []
    decreases script, 0
  {
    if script[0] == CommitLost then Looped(db, committed, true)
    else if script[0] == CommitUnacknowledged then Looped(db, position + 1, true)
    else Looping(db, topic, partition, log, position + 1, position + 1, script[1..], false)
  }

  /** Every record from the offset on is handled when its turn comes. */
  ghost predicate AllHandled(db: Db, topic: string, partition: int, log: seq<Value>, offset: nat)
    decreases |log| - offset
  {
    offset < |log| ==>
      var (n, handled) := Handle(db, Record(Coord(topic, partition, offset), log[offset]));
      handled && AllHandled(n, topic, partition, log, offset + 1)
  }

  /** Without faults, and with as many attempts as records, the whole log is committed if every record is handled
      in its turn; a record that is not handled stops the run there. */
  lemma {:induction false} HealthyRun(db: Db, topic: string, partition: int, log: seq<Value>, offset: nat,
        script: seq<Fault>)
    requires offset <= |log| <= offset + |script| && forall i | 0 <= i < |script| :: script[i] == Healthy
    ensures AllHandled(db, topic, partition, log, offset) <==>
              Looping(db, topic, partition, log, offset, offset, script, false).committed == |log|
    ensures !Looping(db, topic, partition, log, offset, offset, script, false).failed
    decreases |log| - offset
  {
    hide Handle;
    if offset < |log| {
      var r := Record(Coord(topic, partition, offset), log[offset]);
      if Handle(db, r).1 {
        HealthyRun(Handle(db, r).0, topic, partition, log, offset + 1, script[1..]);
      } else {
        Retrying(db, topic, partition, log, offset, script, false);
      }
    }
  }

  /** A record that is handled stays handled when its commit fails; the offset has moved exactly if the commit
      landed, and the run ends in error. */
  lemma CommitFaults(db: Db, topic: string, partition: int, log: seq<Value>, offset: nat, fault: Fault,
        script: seq<Fault>)
    requires offset < |log| && (fault == CommitLost || fault == CommitUnacknowledged)
    requires Handle(db, Record(Coord(topic, partition, offset), log[offset])).1
    ensures Looping(db, topic, partition, log, offset, offset, [fault] + script, false)
            == Looped(Handle(db, Record(Coord(topic, partition, offset), log[offset])).0,
                 if fault == CommitUnacknowledged then offset + 1 else offset, true)
  {
    hide Handle;
  }

  /** A failed attempt changes nothing, so that the next one, on the same tables, fails too. */
  lemma {:induction false} Retrying(db: Db, topic: string, partition: int, log: seq<Value>, offset: nat,
        script: seq<Fault>, polled: bool)
    requires offset < |log| && !Handle(db, Record(Coord(topic, partition, offset), log[offset])).1
    requires forall i | 0 <= i < |script| :: script[i] == Healthy
    ensures Looping(db, topic, partition, log, offset, offset, script, polled) == Looped(db, offset, false)
    decreases |script|
  {
    FailureLeaves(db, Record(Coord(topic, partition, offset), log[offset]));
    hide Handle;
    if script != [] { Retrying(db, topic, partition, log, offset, script[1..], true); }
  }

  lemma FailureLeaves(db: Db, r: Record)
    ensures !Handle(db, r).1 ==> Handle(db, r).0 == db
  {
    if ParseEvent(r.value).Some? { RefusalLeaves(db, ParseEvent(r.value).value, r); }
    hide ApplyTx, ContractOk, ValidSource;
  }

  lemma RefusalLeaves(db: Db, e: Event, r: Record)
    ensures ApplyTx(db, e, r).1.Refused? ==> ApplyTx(db, e, r).0 == db
  {
    hide ValidSource, SourceTaken, RoomFor;
  }

  /** The records of one partition, from offset 0. */
  class DecisionWorker {
    const store: Database
    const topic: string
    const partition: int
    var committed: nat

    constructor (store: Database, topic: string, partition: int)
      ensures this.store == store && this.topic == topic && this.partition == partition && committed == 0
    {
      this.store, this.topic, this.partition := store, topic, partition;
      committed := 0;
    }

    function At(offset: nat): Coord { Coord(topic, partition, offset) }

    /** The record at the offset is one no attempt can handle. */
    ghost predicate Stuck(log: seq<Value>, offset: nat)
      reads store
    {
      offset < |log| && Hopeless(store.View(), Record(At(offset), log[offset]))
    }

    /** Every record of the log below the offset has a receipt. */
    ghost predicate ReceiptedBelow(log: seq<Value>, offset: nat)
      reads store
    {
      && offset <= |log|
      && forall i | 0 <= i < offset :: ExistingReceipt(store.View(), Record(At(i), log[i])).Found?
    }

    method HandleRecord(r: Record) returns (ok: bool)
      modifies store
      ensures (store.View(), ok) == Handle(old(store.View()), r)
    {
      hide ContractOk, ValidSource, ApplyTx, RejectTx;
      var parsed := ParseEvent(r.value);
      if parsed.None? {
        var error := store.Reject(r, InvalidEvent);
        return error.None?;
      }
      var result := store.Apply(parsed.value, r);
      if result.Accepted? { return true; }
      var code := RejectionCodeFor(result.error);
      if code.None? { return false; }
      var error := store.Reject(r, code.value);
      return error.None?;
    }

    /** Worker.Run: poll, retry one record until it is handled, commit its offset, go on. The script
        supplies the environment's behaviour per attempt; the method returns when it is used up, when it
        is cancelled, or when an offset commit fails. A run that starts at a hopeless record stays there: one
        that rejected a parsed record and lost the offset commit, or one that meets an id it cannot look up. */
    method Run(log: seq<Value>, script: seq<Fault>) returns (failed: bool)
      requires DbInv(store.View()) && ReceiptedBelow(log, committed)
      modifies this`committed, store
      ensures DbInv(store.View()) && ReceiptedBelow(log, committed) && committed >= old(committed)
      ensures old(Stuck(log, committed)) ==> committed == old(committed) && store.View() == old(store.View())
      ensures Looped(store.View(), committed, failed)
              == Looping(old(store.View()), topic, partition, log, old(committed), old(committed), script, false)
    {
      hide DbInv, Handle, ExistingReceipt, Hopeless;
      ghost var whole := Looping(store.View(), topic, partition, log, committed, committed, script, false);
      var position: nat := committed;
      var k: nat := 0;
      failed := false;
      while k < |script| && position < |log|
        invariant DbInv(store.View())
        invariant ReceiptedBelow(log, position) && old(committed) <= committed <= position
        invariant old(Stuck(log, committed)) ==> position == old(committed) && store.View() == old(store.View())
        invariant k <= |script| && !failed
        invariant whole == Looping(store.View(), topic, partition, log, committed, position, script[k..], false)
        decreases |script| - k
      {
        if script[k] == PollFails { k := k + 1; continue; }
        var handled := false;
        while !handled && k < |script|
          invariant DbInv(store.View()) && ReceiptedBelow(log, position)
          invariant old(committed) <= committed <= position
          invariant handled ==> k < |script| && ReceiptedBelow(log, position + 1)
          invariant old(Stuck(log, committed)) ==> !handled && store.View() == old(store.View())
          invariant k <= |script|
          invariant handled ==>
              whole == Committing(store.View(), topic, partition, log, committed, position, script[k..])
          invariant !handled ==>
              whole == Looping(store.View(), topic, partition, log, committed, position, script[k..], true)
          decreases |script| - k, !handled
        {
          var fault := script[k];
          if fault == Cancelled { return; }
          if fault == DatabaseDown { k := k + 1; continue; }
          handled := Attempt(log, position);
          if !handled { k := k + 1; }
        }
        if !handled { return; }
        if script[k] == CommitLost { return true; }
        committed := position + 1;
        if script[k] == CommitUnacknowledged { return true; }
        position := position + 1;
        k := k + 1;
      }
    }

    /** One attempt on the record at `position`; receipts below stay. */
    method Attempt(log: seq<Value>, position: nat) returns (handled: bool)
      requires DbInv(store.View()) && ReceiptedBelow(log, position) && position < |log|
      modifies store
      ensures DbInv(store.View()) && ReceiptedBelow(log, position)
      ensures handled ==> ReceiptedBelow(log, position + 1)
      ensures old(Stuck(log, position)) ==> !handled && store.View() == old(store.View())
      ensures (store.View(), handled) == Handle(old(store.View()), Record(At(position), log[position]))
    {
      hide DbInv, Handle, ExistingReceipt, ParseEvent, Hopeless;
      var r := Record(At(position), log[position]);
      ghost var before := store.View();
      if Hopeless(before, r) { HopelessFails(before, r); }
      HandleKeeps(before, r);
      handled := HandleRecord(r);
      forall i | 0 <= i < position
        ensures ExistingReceipt(store.View(), Record(At(i), log[i])).Found?
      {
        HandleKeepsReceipts(before, r, Record(At(i), log[i]));
      }
      if handled { HandledHasReceipt(before, r); }
    }
  }

  lemma HandleKeepsReceipts(db: Db, r: Record, other: Record)
    requires ExistingReceipt(db, other).Found?
    ensures ExistingReceipt(Handle(db, r).0, other) == ExistingReceipt(db, other)
  {
    hide ApplyTx, RejectTx, ContractOk;
    if ParseEvent(r.value).Some? { ApplyLeavesReceipt(db, ParseEvent(r.value).value, r, other.at); }
    forall n: Db, code | other.at in n.receipts && n.receipts[other.at] == db.receipts[other.at]
      ensures other.at in RejectTx(n, r, code).0.receipts &&
          RejectTx(n, r, code).0.receipts[other.at] == db.receipts[other.at]
    {
      RejectLeavesReceipt(n, r, code, other.at);
    }
  }

  lemma ApplyLeavesReceipt(db: Db, e: Event, r: Record, at: Coord)
    requires at in db.receipts
    ensures at in ApplyTx(db, e, r).0.receipts && ApplyTx(db, e, r).0.receipts[at] == db.receipts[at]
  {
    hide ValidSource, SourceTaken, RoomFor;
  }

  lemma RejectLeavesReceipt(db: Db, r: Record, code: RejectionCode, at: Coord)
    requires at in db.receipts
    ensures at in RejectTx(db, r, code).0.receipts && RejectTx(db, r, code).0.receipts[at] == db.receipts[at]
  {
    hide ValidSource;
  }
}
