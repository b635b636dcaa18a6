/** Decision records the consumer group cannot get past: the partition's committed offset stays at or below
    them in every further run. */
module PipelineStuck {
  import opened Domain
  import opened EventContract
  import opened Ledger
  import opened LedgerInvariant
  import opened Features
  import opened Scoring
  import opened Kafka
  import opened Pipeline
  import opened PipelineInvariant
  import opened PipelineSafety
  import Deliveries

  // ---------------------------------------------------------------- a parsed record that was rejected

  /** The record at `c` parsed and holds a REJECTED receipt. */
  ghost predicate Condemned(s: State, c: Coord) {
    && c.offset >= 0 && c == At(s.dec.name, c.partition, c.offset)
    && c in s.dec.records && ParseEvent(s.dec.records[c]).Some?
    && ExistingReceipt(s.db, Record(c, s.dec.records[c])) == Found(Rejected)
  }

  /** The session stands at or before `c`, and at `c` only polling. */
  predicate Behind(w: ConsumerSession, c: Coord) {
    w.partition == c.partition ==> w.position <= c.offset && (w.position == c.offset ==> w.phase.Polling?)
  }

  /** Nobody is past the record, or in the middle of handling it. */
  ghost predicate Held(s: State, c: Coord) {
    Committed(s.decOffsets, c.partition) <= c.offset && forall k | k in s.consumers :: Behind(s.consumers[k], c)
  }

  /** Receipts, offsets and sessions of the decision consumers are untouched; the topic may have grown. */
  ghost predicate ConsumersUntouched(s: State, n: State) {
    && n.consumers == s.consumers && n.decOffsets == s.decOffsets && n.db.receipts == s.db.receipts
    && n.dec.name == s.dec.name && forall c | c in s.dec.records ::
        c in n.dec.records && n.dec.records[c] == s.dec.records[c]
  }

  lemma UntouchedHeld(s: State, n: State, c: Coord)
    requires Condemned(s, c) && Held(s, c) && ConsumersUntouched(s, n)
    ensures Condemned(n, c) && Held(n, c)
  {
    hide ParseEvent, Committed;
  }

  lemma RiskUntouched(cfg: Config, s: State, k: nat, m: RiskMove)
    requires TopicOk(s.dec)
    ensures ConsumersUntouched(s, RiskStep(cfg, s, k, m))
  {
    hide Committed, LoadStep, ObserveStep, ScoreStep, SaveStep, PublishStep;
    if k in s.risk {
      if m.Publish? { PublishUntouched(s, k, m.target, m.lands, m.acked); } else { LookingUntouched(cfg, s, k, m); }
    }
  }

  lemma PublishUntouched(s: State, k: nat, target: int, lands: bool, acked: bool)
    requires TopicOk(s.dec) && k in s.risk
    ensures ConsumersUntouched(s, PublishStep(s, k, target, lands, acked))
  {
    if target >= 0 && s.risk[k].phase.Saved? { AppendGrows(s.dec, target, Json(s.risk[k].phase.d)); }
    hide Append, TopicOk;
  }

  lemma LookingUntouched(cfg: Config, s: State, k: nat, m: RiskMove)
    requires k in s.risk
    ensures m.Load? ==> ConsumersUntouched(s, LoadStep(s, k))
    ensures m.Observing? ==> ConsumersUntouched(s, ObserveStep(cfg, s, k, m.now))
    ensures m.Score? ==> ConsumersUntouched(s, ScoreStep(cfg, s, k, m.model))
    ensures m.Save? ==> ConsumersUntouched(s, SaveStep(s, k))
  {
    hide LoadDecision, ParsePayment, Observe, Observation, Decision, ValidModel, LabelOk, SaveDecision;
  }

  /** A transaction on another record leaves the receipt at `c`. */
  lemma OtherTransaction(s: State, n: State, k: nat, c: Coord)
    requires Condemned(s, c) && Held(s, c) && k in s.consumers && k in n.consumers
    requires n == s.(db := n.db, consumers := s.consumers[k := n.consumers[k]])
    requires Behind(n.consumers[k], c)
    requires c in n.db.receipts && n.db.receipts[c] == s.db.receipts[c]
    ensures Condemned(n, c) && Held(n, c)
  {
    hide ParseEvent, Committed;
  }

  lemma ReadHeld(s: State, k: nat, c: Coord)
    requires Condemned(s, c) && Held(s, c) && k in s.consumers
    ensures Condemned(ReadStep(s, k), c) && Held(ReadStep(s, k), c)
  {
    hide ParseEvent, Committed, ValidSource, ExistingReceipt;
    assert Behind(s.consumers[k], c);
    var n := ReadStep(s, k);
    if n != s {
      assert n.consumers[k].partition == s.consumers[k].partition && n.consumers[k].position == s.consumers[k].position;
      assert Behind(n.consumers[k], c);
    }
  }

  lemma ApplyHeld(s: State, k: nat, acked: bool, said: StoreError, c: Coord)
    requires Condemned(s, c) && Held(s, c) && k in s.consumers
    ensures Condemned(ApplyStep(s, k, acked, said), c) && Held(ApplyStep(s, k, acked, said), c)
  {
    hide ParseEvent, Committed, ApplyTx, AfterApply;
    assert Behind(s.consumers[k], c);
    var n := ApplyStep(s, k, acked, said);
    var x := At(s.dec.name, s.consumers[k].partition, s.consumers[k].position);
    if s.consumers[k].phase.Applying? && x in s.dec.records && ParseEvent(s.dec.records[x]).Some? {
      Deliveries.ApplyLeavesReceipt(s.db, ParseEvent(s.dec.records[x]).value, Record(x, s.dec.records[x]), c);
      OtherTransaction(s, n, k, c);
    }
  }

  lemma RejectHeld(s: State, k: nat, acked: bool, c: Coord)
    requires Condemned(s, c) && Held(s, c) && k in s.consumers
    ensures Condemned(RejectStep(s, k, acked), c) && Held(RejectStep(s, k, acked), c)
  {
    hide ParseEvent, Committed, RejectTx;
    assert Behind(s.consumers[k], c);
    var n := RejectStep(s, k, acked);
    var x := At(s.dec.name, s.consumers[k].partition, s.consumers[k].position);
    if s.consumers[k].phase.Refusing? && x in s.dec.records {
      Deliveries.RejectLeavesReceipt(s.db, Record(x, s.dec.records[x]), s.consumers[k].phase.code, c);
      OtherTransaction(s, n, k, c);
    }
  }

  lemma MovingHeld(s: State, k: nat, m: ConsumerMove, c: Coord)
    requires Condemned(s, c) && Held(s, c) && (k !in s.consumers || m.Join? || m.Leave? || m.Advance?)
    ensures Condemned(ConsumerStep(s, k, m), c) && Held(ConsumerStep(s, k, m), c)
  {
    hide ParseEvent;
    if k in s.consumers { assert Behind(s.consumers[k], c); }
  }

  lemma ConsumerHeld(s: State, k: nat, m: ConsumerMove, c: Coord)
    requires Condemned(s, c) && Held(s, c)
    ensures Condemned(ConsumerStep(s, k, m), c) && Held(ConsumerStep(s, k, m), c)
  {
    hide Condemned, Held, ReadStep, ApplyStep, RejectStep, AdvanceStep;
    if k in s.consumers && m.Read? { ReadHeld(s, k, c); }
    else if k in s.consumers && m.Apply? { ApplyHeld(s, k, m.acked, m.said, c); }
    else if k in s.consumers && m.Reject? { RejectHeld(s, k, m.acked, c); }
    else { MovingHeld(s, k, m, c); }
  }

  lemma DecTopicOk(cfg: Config, s: State)
    requires Inv(cfg, s)
    ensures TopicOk(s.dec)
  {
    hide TablesOk, PaymentsOk, CacheOk, Receives, WorkersOk, ConsumersOk, TopicOk, SentOk, ParseEvent;
  }

  lemma NoiseUntouched(cfg: Config, s: State, a: Move)
    requires TopicOk(s.dec) && a.DecNoise?
    ensures ConsumersUntouched(s, Step(cfg, s, a))
  {
    hide ParseEvent;
    if a.target >= 0 { AppendGrows(s.dec, a.target, a.value); }
    hide Append, TopicOk;
  }

  lemma OtherUntouched(cfg: Config, s: State, a: Move)
    requires !a.Risk? && !a.Consumer? && !a.DecNoise?
    ensures ConsumersUntouched(s, Step(cfg, s, a))
  {
    if !a.ExpireDecision? { TablesKept(cfg, s, a); }
    hide CreateStep, SendStep, MarkStep, MissStep, ResolveStep, ParsePayment, Append;
  }

  lemma StepUntouched(cfg: Config, s: State, a: Move)
    requires TopicOk(s.dec) && !a.Consumer?
    ensures ConsumersUntouched(s, Step(cfg, s, a))
  {
    hide RiskStep, CreateStep, SendStep, MarkStep, MissStep, ResolveStep, ExpireStep;
    hide ParsePayment, ParseEvent, Append, TopicOk, ConsumersUntouched;
    if a.Risk? { RiskUntouched(cfg, s, a.k, a.move); }
    else if a.DecNoise? { NoiseUntouched(cfg, s, a); }
    else { OtherUntouched(cfg, s, a); }
  }

  lemma StepHeld(cfg: Config, s: State, a: Move, c: Coord)
    requires TopicOk(s.dec) && Condemned(s, c) && Held(s, c)
    ensures Condemned(Step(cfg, s, a), c) && Held(Step(cfg, s, a), c)
  {
    hide *;
    if a.Consumer? {
      StepOfConsumer(cfg, s, a);
      ConsumerHeld(s, a.k, a.step, c);
    } else {
      StepUntouched(cfg, s, a);
      UntouchedHeld(s, Step(cfg, s, a), c);
    }
  }

  lemma StepOfConsumer(cfg: Config, s: State, a: Move)
    requires a.Consumer?
    ensures Step(cfg, s, a) == ConsumerStep(s, a.k, a.step)
  {
    hide ConsumerStep;
  }

  lemma {:induction false} RunHeld(cfg: Config, s: State, moves: seq<Move>, c: Coord)
    requires ValidConfig(cfg) && Inv(cfg, s) && Condemned(s, c) && Held(s, c)
    ensures Condemned(Run(cfg, s, moves), c) && Held(Run(cfg, s, moves), c)
    decreases moves
  {
    hide ValidConfig, Inv, Step, Condemned, Held;
    if moves != [] {
      DecTopicOk(cfg, s);
      StepKeeps(cfg, s, moves[0]);
      StepHeld(cfg, s, moves[0], c);
      RunHeld(cfg, Step(cfg, s, moves[0]), moves[1..], c);
    }
  }

  /** Once a parsed record holds a REJECTED receipt while nobody is past it or in the middle of handling it,
      as after the loss of the offset commit that followed the rejection, no run whatever gets past it: the
      committed offset of its partition never moves beyond it and no session ever does. */
  lemma StuckForever(cfg: Config, s: State, moves: seq<Move>, c: Coord)
    requires ValidConfig(cfg) && Inv(cfg, s) && Condemned(s, c) && Held(s, c)
    ensures var n := Run(cfg, s, moves);
            && Committed(n.decOffsets, c.partition) <= c.offset
            && (forall k | k in n.consumers && n.consumers[k].partition == c.partition ::
                n.consumers[k].position <= c.offset)
            && c in n.dec.records && !Deliveries.Handle(n.db, Record(c, n.dec.records[c])).1
  {
    hide *;
    RunHeld(cfg, s, moves, c);
    CondemnedFails(Run(cfg, s, moves), c);
    HeldBehind(Run(cfg, s, moves), c);
  }

  lemma HeldBehind(s: State, c: Coord)
    requires Held(s, c)
    ensures Committed(s.decOffsets, c.partition) <= c.offset
    ensures forall k | k in s.consumers && s.consumers[k].partition == c.partition ::
        s.consumers[k].position <= c.offset
  {
    assert forall k | k in s.consumers :: Behind(s.consumers[k], c);
  }

  lemma CondemnedFails(s: State, c: Coord)
    requires Condemned(s, c)
    ensures c in s.dec.records && Deliveries.Handle(s.db, Record(c, s.dec.records[c])) == (s.db, false)
  {
    hide ParseEvent, ValidSource, RejectTx, SourceTaken, RoomFor;
  }

  /** A session that is already on its way to rejecting the record does get past it: its Reject finds the
      REJECTED receipt, which is a success. */
  lemma RefusingSessionPasses(s: State, k: nat, c: Coord)
    requires Condemned(s, c) && ValidSource(c) && k in s.consumers && s.consumers[k].phase.Refusing?
    requires s.consumers[k].partition == c.partition && s.consumers[k].position == c.offset
    ensures var n := AdvanceStep(RejectStep(s, k, true), k, true, true);
            Committed(n.decOffsets, c.partition) == c.offset + 1
  {
    hide ParseEvent, ValidSource;
  }

  // ---------------------------------------------------------------- tombstones

  /** No tombstone has a receipt. */
  ghost predicate TombstonesOpen(receipts: Receipts, records: map<Coord, Value>) {
    forall c | c in receipts && c in records :: !records[c].Null?
  }

  lemma TransactionOpen(s: State, db: Db, x: Coord)
    requires TombstonesOpen(s.db.receipts, s.dec.records) && x in s.dec.records && Grown(s.db, db, x, s.dec.records[x])
    requires s.dec.records[x].Null? ==> db.receipts == s.db.receipts
    ensures TombstonesOpen(db.receipts, s.dec.records)
  {
  }

  lemma ConsumerOpen(s: State, k: nat, m: ConsumerMove)
    requires TombstonesOpen(s.db.receipts, s.dec.records)
    ensures var n := ConsumerStep(s, k, m); TombstonesOpen(n.db.receipts, n.dec.records)
  {
    hide ApplyTx, ContractOk, Committed, TombstonesOpen, AfterApply, ValidSource;
    if k in s.consumers && (m.Apply? || m.Reject?) {
      var x := At(s.dec.name, s.consumers[k].partition, s.consumers[k].position);
      if x in s.dec.records {
        var r := Record(x, s.dec.records[x]);
        if m.Apply? && ParseEvent(r.value).Some? {
          ApplyGrows(s.db, ParseEvent(r.value).value, r);
          TransactionOpen(s, ApplyTx(s.db, ParseEvent(r.value).value, r).0, x);
        } else if m.Reject? && s.consumers[k].phase.Refusing? {
          RejectGrows(s.db, r, s.consumers[k].phase.code);
          TransactionOpen(s, RejectTx(s.db, r, s.consumers[k].phase.code).0, x);
        }
      }
      hide RejectTx, Grown, DecisionJoins;
    }
  }

  lemma UntouchedOpen(cfg: Config, s: State, n: State)
    requires Inv(cfg, s) && TombstonesOpen(s.db.receipts, s.dec.records) && ConsumersUntouched(s, n)
    ensures TombstonesOpen(n.db.receipts, n.dec.records)
  {
    hide TablesOk, PaymentsOk, CacheOk, DecisionsOk, WorkersOk, ConsumersOk;
  }

  lemma StepOpen(cfg: Config, s: State, a: Move)
    requires Inv(cfg, s) && TombstonesOpen(s.db.receipts, s.dec.records)
    ensures var n := Step(cfg, s, a); TombstonesOpen(n.db.receipts, n.dec.records)
  {
    hide *;
    if a.Consumer? {
      StepOfConsumer(cfg, s, a);
      ConsumerOpen(s, a.k, a.step);
    } else {
      DecTopicOk(cfg, s);
      StepUntouched(cfg, s, a);
      UntouchedOpen(cfg, s, Step(cfg, s, a));
    }
  }

  lemma {:induction false} RunOpen(cfg: Config, s: State, moves: seq<Move>)
    requires ValidConfig(cfg) && Inv(cfg, s) && TombstonesOpen(s.db.receipts, s.dec.records)
    ensures var n := Run(cfg, s, moves); TombstonesOpen(n.db.receipts, n.dec.records)
    decreases moves
  {
    hide ValidConfig, Inv, Step, TombstonesOpen;
    if moves != [] {
      StepKeeps(cfg, s, moves[0]);
      StepOpen(cfg, s, moves[0]);
      RunOpen(cfg, Step(cfg, s, moves[0]), moves[1..]);
    }
  }

  lemma HeldByMissingReceipt(cfg: Config, s: State, c: Coord)
    requires Inv(cfg, s) && c in s.dec.records && c !in s.db.receipts
    ensures Committed(s.decOffsets, c.partition) <= c.offset
    ensures forall k | k in s.consumers && s.consumers[k].partition == c.partition ::
              s.consumers[k].position <= c.offset &&
                  (s.consumers[k].position == c.offset ==> !s.consumers[k].phase.Handled?)
  {
    hide TablesOk, PaymentsOk, CacheOk, Receives, WorkersOk, SentOk, ParseEvent;
    forall k | k in s.consumers && s.consumers[k].partition == c.partition
      ensures s.consumers[k].position <= c.offset &&
          (s.consumers[k].position == c.offset ==> !s.consumers[k].phase.Handled?)
    {
      assert ConsumerOk(s.dec, s.db.receipts, s.consumers[k]);
    }
  }

  /** In every reachable state a tombstone on the decisions topic has no receipt, so neither the committed
      offset of its partition nor any session is past it: it blocks its partition for good. */
  lemma TombstonesBlock(cfg: Config, moves: seq<Move>, c: Coord)
    requires ValidConfig(cfg)
    ensures var s := Run(cfg, Init(cfg), moves);
            c in s.dec.records && s.dec.records[c].Null? ==>
              && c !in s.db.receipts && Committed(s.decOffsets, c.partition) <= c.offset
              && forall k | k in s.consumers && s.consumers[k].partition == c.partition ::
                  s.consumers[k].position <= c.offset
  {
    hide Run, Inv, Init, ValidConfig, Committed;
    ReachedInv(cfg, moves);
    InitInv(cfg);
    InitOpen(cfg);
    RunOpen(cfg, Init(cfg), moves);
    var s := Run(cfg, Init(cfg), moves);
    if c in s.dec.records && s.dec.records[c].Null? { HeldByMissingReceipt(cfg, s, c); }
  }

  lemma InitOpen(cfg: Config)
    ensures TombstonesOpen(Init(cfg).db.receipts, Init(cfg).dec.records)
  {
  }
}
