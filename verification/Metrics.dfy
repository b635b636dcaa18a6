/** Streaming metrics as a mergeable summary: observations, per-batch grouped aggregates, the overwrite of a
    retried batch, and the re-aggregation of everything that was stored. */
module Metrics {
  import opened Text

  // ---------------------------------------------------------------- observations

  datatype Key = Key(date: string, family: string, dimension: string, value: string, outcome: Option<string>,
      bucket: Option<string>)

  datatype Observation = Observation(key: Key, amount: Option<int>, score: Option<int>, latency: Option<int>)

  datatype PaymentRow = PaymentRow(date: string, merchant: string, country: string, amount: int, topic: string,
      ingestedMs: int, kafkaMs: int)
  datatype DecisionRow = DecisionRow(date: string, decision: string, score: int, topic: string, ingestedMs: int,
      kafkaMs: int)
  datatype QuarantineRow = QuarantineRow(date: string, topic: string, codes: seq<string>)
  datatype Frame = Frame(payments: seq<PaymentRow>, decisions: seq<DecisionRow>, quarantine: seq<QuarantineRow>)

  function PaymentVolume(p: PaymentRow): seq<Observation> {
    [Observation(Key(p.date, "payment_volume", "overall", "ALL", None, None), Some(p.amount), None, None),
     Observation(Key(p.date, "payment_volume", "merchant", p.merchant, None, None), Some(p.amount), None, None),
     Observation(Key(p.date, "payment_volume", "country", p.country, None, None), Some(p.amount), None, None)]
  }

  function DecisionRate(d: DecisionRow): seq<Observation> {
    [Observation(Key(d.date, "decision_rate", "overall", "ALL", Some(d.decision), None), None, None, None)]
  }

  /** floor(score / 10) * 10, at most 90. */
  function LowerBound(score: int): int { if score / 10 * 10 < 90 then score / 10 * 10 else 90 }
  function UpperBound(score: int): int { if LowerBound(score) == 90 then 100 else LowerBound(score) + 9 }

  function TwoDigits(n: int): string {
    if n < 0 || n > 99 then "100" else [(48 + n / 10) as char, (48 + n % 10) as char]
  }

  function Bucket(score: int): string { TwoDigits(LowerBound(score)) + "-" + TwoDigits(UpperBound(score)) }

  function ScoreDistribution(d: DecisionRow): seq<Observation> {
    [Observation(Key(d.date, "risk_score_distribution", "overall", "ALL", None, Some(Bucket(d.score))), None,
        Some(d.score), None),
     Observation(Key(d.date, "risk_score_distribution", "decision", d.decision, None, Some(Bucket(d.score))), None,
         Some(d.score), None)]
  }

  function Latency(date: string, topic: string, ingestedMs: int, kafkaMs: int): seq<Observation> {
    [Observation(Key(date, "ingestion_latency", "source_topic", topic, None, None), None, None,
                 Some(if ingestedMs > kafkaMs then ingestedMs - kafkaMs else 0))]
  }

  function QuarantineErrors(q: QuarantineRow, codes: seq<string>): seq<Observation> {
    if codes == [] then []
    else [Observation(Key(q.date, "quarantine_error", "source_topic", q.topic, None, Some(codes[0])), None, None,
        None)] + QuarantineErrors(q, codes[1..])
  }

  function FromPayments(ps: seq<PaymentRow>): seq<Observation> {
    if ps == [] then []
    else
      PaymentVolume(ps[0]) + Latency(ps[0].date, ps[0].topic, ps[0].ingestedMs, ps[0].kafkaMs)
      + FromPayments(ps[1..])
  }

  function FromDecisions(ds: seq<DecisionRow>): seq<Observation> {
    if ds == [] then []
    else DecisionRate(ds[0]) + ScoreDistribution(ds[0]) + Latency(ds[0].date, ds[0].topic, ds[0].ingestedMs,
        ds[0].kafkaMs) + FromDecisions(ds[1..])
  }

  function FromQuarantine(qs: seq<QuarantineRow>): seq<Observation> {
    if qs == [] then [] else QuarantineErrors(qs[0], qs[0].codes) + FromQuarantine(qs[1..])
  }

  /** build_operational_observations, in some order. */
  function Build(f: Frame): seq<Observation> {
    FromPayments(f.payments) + (FromDecisions(f.decisions) + FromQuarantine(f.quarantine))
  }

  // ---------------------------------------------------------------- summaries

  /** SUM, COUNT, MIN and MAX of a nullable column; all but COUNT are null when every value is. */
  datatype Column = Nulls | Stat(sum: int, count: nat, low: int, high: int)

  datatype Summary = Summary(events: nat, amount: Option<int>, score: Column, latency: Column)

  const NOTHING := Summary(0, None, Nulls, Nulls)

  function AddAmounts(a: Option<int>, b: Option<int>): Option<int> {
    if a.None? then b else if b.None? then a else Some(a.value + b.value)
  }

  function MergeColumns(a: Column, b: Column): Column {
    if a.Nulls? then b else if b.Nulls? then a
    else Stat(a.sum + b.sum, a.count + b.count, if a.low < b.low then a.low else b.low,
        if a.high > b.high then a.high else b.high)
  }

  function Merge(a: Summary, b: Summary): Summary {
    Summary(a.events + b.events, AddAmounts(a.amount, b.amount), MergeColumns(a.score, b.score),
        MergeColumns(a.latency, b.latency))
  }

  function OneColumn(v: Option<int>): Column { if v.None? then Nulls else Stat(v.value, 1, v.value, v.value) }
  function One(o: Observation): Summary { Summary(1, o.amount, OneColumn(o.score), OneColumn(o.latency)) }

  /** Merging is associative and commutative, and the empty summary is neutral. */
  lemma MergeLaws(a: Summary, b: Summary, c: Summary)
    ensures Merge(a, b) == Merge(b, a)
    ensures Merge(Merge(a, b), c) == Merge(a, Merge(b, c))
    ensures Merge(NOTHING, a) == a == Merge(a, NOTHING)
  {
    ColumnLaws(a.score, b.score, c.score);
    ColumnLaws(a.latency, b.latency, c.latency);
    hide MergeColumns;
  }

  lemma ColumnLaws(a: Column, b: Column, c: Column)
    ensures MergeColumns(a, b) == MergeColumns(b, a)
    ensures MergeColumns(MergeColumns(a, b), c) == MergeColumns(a, MergeColumns(b, c))
    ensures MergeColumns(Nulls, a) == a == MergeColumns(a, Nulls)
  {
  }

  // ---------------------------------------------------------------- tagged observations

  /** An observation as it was written, with the micro-batch that wrote it. */
  datatype Tagged = Tagged(batch: nat, o: Observation)
  datatype Cell = Cell(batch: nat, key: Key)

  function CellOf(t: Tagged): Cell { Cell(t.batch, t.o.key) }

  /** Aggregation of the observations whose cell is wanted. */
  function Total(ts: seq<Tagged>, wanted: Cell -> bool): Summary {
    if ts == [] then NOTHING
    else if wanted(CellOf(ts[0])) then Merge(One(ts[0].o), Total(ts[1..], wanted))
    else Total(ts[1..], wanted)
  }

  lemma {:induction false} TotalSplits(ts: seq<Tagged>, wanted: Cell -> bool, a: Cell -> bool, b: Cell -> bool)
    requires forall c :: wanted(c) <==> a(c) || b(c)
    requires forall c :: !(a(c) && b(c))
    ensures Total(ts, wanted) == Merge(Total(ts, a), Total(ts, b))
  {
    hide Merge, One;
    if ts == [] {
      MergeLaws(NOTHING, NOTHING, NOTHING);
    } else {
      var c := CellOf(ts[0]);
      assert (wanted(c) <==> a(c) || b(c)) && !(a(c) && b(c));
      TotalSplits(ts[1..], wanted, a, b);
      Regroup(One(ts[0].o), Total(ts[1..], a), Total(ts[1..], b));
    }
  }

  lemma Regroup(x: Summary, y: Summary, z: Summary)
    ensures Merge(x, Merge(y, z)) == Merge(Merge(x, y), z) == Merge(y, Merge(x, z))
  {
    hide Merge;
    MergeLaws(x, y, z);
    MergeLaws(y, x, z);
  }

  lemma {:induction false} TotalAgrees(ts: seq<Tagged>, a: Cell -> bool, b: Cell -> bool)
    requires forall t | t in ts :: a(CellOf(t)) == b(CellOf(t))
    ensures Total(ts, a) == Total(ts, b)
  {
    if ts != [] {
      assert ts[0] in ts;
      forall t | t in ts[1..] ensures t in ts { }
      TotalAgrees(ts[1..], a, b);
    }
  }

  lemma {:induction false} TotalConcat(xs: seq<Tagged>, ys: seq<Tagged>, wanted: Cell -> bool)
    ensures Total(xs + ys, wanted) == Merge(Total(xs, wanted), Total(ys, wanted))
  {
    if xs == [] {
      assert xs + ys == ys;
      MergeLaws(Total(ys, wanted), NOTHING, NOTHING);
    } else {
      assert (xs + ys)[0] == xs[0] && (xs + ys)[1..] == xs[1..] + ys;
      TotalConcat(xs[1..], ys, wanted);
      MergeLaws(One(xs[0].o), Total(xs[1..], wanted), Total(ys, wanted));
      hide Merge, One;
    }
  }

  lemma {:induction false} TotalNothing(ts: seq<Tagged>, wanted: Cell -> bool)
    requires forall t | t in ts :: !wanted(CellOf(t))
    ensures Total(ts, wanted) == NOTHING
  {
    if ts != [] {
      assert ts[0] in ts;
      forall t | t in ts[1..] ensures t in ts { }
      TotalNothing(ts[1..], wanted);
    }
  }

  // ---------------------------------------------------------------- grouped batches and their storage

  function Tag(batch: nat, os: seq<Observation>): seq<Tagged> { seq(|os|,
        i requires 0 <= i < |os| => Tagged(batch, os[i])) }

  type Grouped = map<Key, Summary>

  /** aggregate_operational_batch: one row per key that occurs. */
  function GroupBy(os: seq<Observation>): Grouped {
    map i | 0 <= i < |os| :: os[i].key := Total(Tag(0, os), (c: Cell) => c.key == os[i].key)
  }

  /** The metric files: one directory per micro-batch. */
  class MetricsSink {
    var stored: map<nat, Grouped>

    constructor ()
      ensures stored == map[]
    { stored := map[]; }

    /** write_operational_batch: a retry overwrites what the batch wrote before. */
    method WriteBatch(observations: seq<Observation>, batch: nat)
      modifies this
      ensures stored == Stored(old(stored), [Write(batch, observations)])
    {
      stored := stored[batch := GroupBy(observations)];
      assert [Write(batch, observations)][..0] == [];
    }

    /** A foreachBatch run with any retries and restarts. */
    method Process(writes: seq<Write>)
      modifies this
      ensures stored == Stored(old(stored), writes)
    {
      ghost var before := stored;
      for i := 0 to |writes|
        invariant stored == Stored(before, writes[..i])
      {
        assert writes[..i + 1][..i] == writes[..i];
        ghost var at := stored;
        WriteBatch(writes[i].observations, writes[i].batch);
        assert [writes[i]][..0] == [] &&
            Stored(at, [writes[i]]) == at[writes[i].batch := GroupBy(writes[i].observations)];
      }
      assert writes[..|writes|] == writes;
    }
  }

  datatype Write = Write(batch: nat, observations: seq<Observation>)

  function Stored(before: map<nat, Grouped>, writes: seq<Write>): map<nat, Grouped> {
    if writes == [] then before
    else
      var last := writes[|writes| - 1];
      Stored(before, writes[..|writes| - 1])[last.batch := GroupBy(last.observations)]
  }

  /** The observations of the last write of every batch. */
  function Survivors(writes: seq<Write>): seq<Tagged> {
    if writes == [] then []
    else
      var last := writes[|writes| - 1];
      Without(Survivors(writes[..|writes| - 1]), last.batch) + Tag(last.batch, last.observations)
  }

  function Without(ts: seq<Tagged>, batch: nat): seq<Tagged> {
    if ts == [] then [] else (if ts[0].batch == batch then [] else [ts[0]]) + Without(ts[1..], batch)
  }

  function IsCell(cell: Cell): Cell -> bool { (c: Cell) => c == cell }

  predicate InStore(stored: map<nat, Grouped>, cell: Cell) { cell.batch in stored && cell.key in stored[cell.batch] }

  lemma {:induction false} WithoutMembers(ts: seq<Tagged>, batch: nat)
    ensures forall t :: t in Without(ts, batch) <==> t in ts && t.batch != batch
  {
    if ts != [] {
      WithoutMembers(ts[1..], batch);
      forall t ensures t in Without(ts, batch) <==> t in ts && t.batch != batch {
        assert t in ts <==> t == ts[0] || t in ts[1..];
        assert t in Without(ts, batch) <==> (t == ts[0] && ts[0].batch != batch) || t in Without(ts[1..], batch);
      }
    }
  }

  lemma {:induction false} TotalWithout(ts: seq<Tagged>, batch: nat, cell: Cell)
    requires cell.batch != batch
    ensures Total(Without(ts, batch), IsCell(cell)) == Total(ts, IsCell(cell))
  {
    if ts != [] {
      TotalWithout(ts[1..], batch, cell);
      var rest := Without(ts[1..], batch);
      if ts[0].batch == batch {
        assert Without(ts, batch) == rest;
      } else {
        assert Without(ts, batch) == [ts[0]] + rest && ([ts[0]] + rest)[1..] == rest;
      }
    }
  }

  lemma {:induction false} TagTotal(batch: nat, os: seq<Observation>, key: Key)
    ensures Total(Tag(batch, os), IsCell(Cell(batch, key))) == Total(Tag(0, os), (c: Cell) => c.key == key)
  {
    if os != [] {
      TagTotal(batch, os[1..], key);
      assert Tag(batch, os)[1..] == Tag(batch, os[1..]) && Tag(0, os)[1..] == Tag(0, os[1..]);
      hide Merge, One;
    }
  }

  lemma GroupedBatch(batch: nat, os: seq<Observation>, key: Key)
    ensures key in GroupBy(os) <==> exists t | t in Tag(batch, os) :: t.o.key == key
    ensures key in GroupBy(os) ==> GroupBy(os)[key] == Total(Tag(batch, os), IsCell(Cell(batch, key)))
  {
    hide Total;
    if key in GroupBy(os) {
      var i :| 0 <= i < |os| && os[i].key == key;
      assert Tag(batch, os)[i] in Tag(batch, os);
      TagTotal(batch, os, key);
      SameKeyTotal(os, key);
    }
    if t :| t in Tag(batch, os) && t.o.key == key {
      var i :| 0 <= i < |os| && Tag(batch, os)[i] == t;
      assert os[i].key == key;
    }
  }

  lemma SameKeyTotal(os: seq<Observation>, key: Key)
    requires key in GroupBy(os)
    ensures GroupBy(os)[key] == Total(Tag(0, os), (c: Cell) => c.key == key)
  {
    var i :| 0 <= i < |os| && os[i].key == key &&
        GroupBy(os)[key] == Total(Tag(0, os), (c: Cell) => c.key == os[i].key);
    TotalAgrees(Tag(0, os), (c: Cell) => c.key == os[i].key, (c: Cell) => c.key == key);
  }

  ghost predicate Occurs(ts: seq<Tagged>, cell: Cell) { exists t | t in ts :: CellOf(t) == cell }

  lemma OneMoreWrite(init: seq<Write>, last: Write, cell: Cell)
    ensures var kept, added := Without(Survivors(init), last.batch), Tag(last.batch, last.observations);
            && (Occurs(kept + added, cell) <==>
                if cell.batch == last.batch then Occurs(added, cell) else Occurs(Survivors(init), cell))
            && Total(kept + added, IsCell(cell)) == if cell.batch == last.batch then Total(added,
                IsCell(cell)) else Total(Survivors(init), IsCell(cell))
  {
    var kept, added := Without(Survivors(init), last.batch), Tag(last.batch, last.observations);
    WithoutMembers(Survivors(init), last.batch);
    hide Total, Without, Merge, Survivors;
    TotalConcat(kept, added, IsCell(cell));
    MergeLaws(Total(kept, IsCell(cell)), NOTHING, NOTHING);
    MergeLaws(Total(added, IsCell(cell)), NOTHING, NOTHING);
    if cell.batch == last.batch {
      TotalNothing(kept, IsCell(cell));
    } else {
      TotalNothing(added, IsCell(cell));
      TotalWithout(Survivors(init), last.batch, cell);
    }
  }

  /** After any sequence of writes and retries a stored row is the aggregate of its cell's surviving
      observations, and exactly the cells that occur are stored. */
  lemma {:induction false} StoredIsSurvivors(writes: seq<Write>, cell: Cell)
    ensures InStore(Stored(map[], writes), cell) <==> Occurs(Survivors(writes), cell)
    ensures InStore(Stored(map[], writes), cell) ==>
        Stored(map[], writes)[cell.batch][cell.key] == Total(Survivors(writes), IsCell(cell))
  {
    hide Total, Without, Tag, GroupBy, Merge;
    if writes != [] {
      var init, last := writes[..|writes| - 1], writes[|writes| - 1];
      StoredIsSurvivors(init, cell);
      OneMoreWrite(init, last, cell);
      GroupedBatch(last.batch, last.observations, cell.key);
      if cell.batch == last.batch { TagOccurs(last.batch, last.observations, cell.key); }
    }
  }

  lemma TagOccurs(batch: nat, os: seq<Observation>, key: Key)
    ensures Occurs(Tag(batch, os), Cell(batch, key)) <==> exists t | t in Tag(batch, os) :: t.o.key == key
  {
  }

  // ---------------------------------------------------------------- re-aggregation

  /** The stored rows a query reads, in any order. */
  ghost predicate Lists(cells: seq<Cell>, stored: map<nat, Grouped>, wanted: Cell -> bool) {
    && (forall c :: c in cells <==> InStore(stored, c) && wanted(c))
    && forall i, j | 0 <= i < j < |cells| :: cells[i] != cells[j]
  }

  /** Merging the stored deltas of the rows read. */
  function Merged(stored: map<nat, Grouped>, cells: seq<Cell>): Summary
    requires forall c | c in cells :: InStore(stored, c)
  {
    if cells == [] then NOTHING
    else
      assert InStore(stored, cells[0]) && forall c | c in cells[1..] :: c in cells;
      Merge(stored[cells[0].batch][cells[0].key], Merged(stored, cells[1..]))
  }

  lemma {:induction false} MergedIsTotal(writes: seq<Write>, cells: seq<Cell>)
    requires forall c | c in cells :: InStore(Stored(map[], writes), c)
    requires forall i, j | 0 <= i < j < |cells| :: cells[i] != cells[j]
    ensures Merged(Stored(map[], writes), cells) == Total(Survivors(writes), (c: Cell) => c in cells)
  {
    hide Total, Merge, InStore, Stored, Survivors;
    if cells == [] {
      TotalNothing(Survivors(writes), (c: Cell) => c in cells);
    } else {
      var rest := cells[1..];
      assert cells[0] in cells && forall c | c in rest :: c in cells;
      MergedIsTotal(writes, rest);
      StoredIsSurvivors(writes, cells[0]);
      forall c: Cell ensures c in cells <==> c == cells[0] || c in rest { }
      assert cells[0] !in rest;
      TotalSplits(Survivors(writes), (c: Cell) => c in cells, IsCell(cells[0]), (c: Cell) => c in rest);
    }
  }

  /** For every split of the observations into micro-batches, every retry sequence and every selection of
      rows: merging the stored deltas, in whatever order they are read, equals one aggregation of the
      selected observations of the last write of each batch. */
  lemma ReaggregationIsOneShot(writes: seq<Write>, cells: seq<Cell>, wanted: Cell -> bool)
    requires Lists(cells, Stored(map[], writes), wanted)
    ensures Merged(Stored(map[], writes), cells) == Total(Survivors(writes), wanted)
  {
    hide Total, InStore, Stored, Survivors, Merged;
    MergedIsTotal(writes, cells);
    forall t | t in Survivors(writes) ensures (CellOf(t) in cells) == wanted(CellOf(t)) {
      StoredIsSurvivors(writes, CellOf(t));
      assert Occurs(Survivors(writes), CellOf(t));
    }
    TotalAgrees(Survivors(writes), (c: Cell) => c in cells, wanted);
  }

  /** Nothing depends on where the observations are split or in which order they arrived. */
  lemma {:induction false} TotalIgnoresOrder(xs: seq<Tagged>, ys: seq<Tagged>, wanted: Cell -> bool)
    requires multiset(xs) == multiset(ys)
    ensures Total(xs, wanted) == Total(ys, wanted)
  {
    hide Merge, One;
    if xs == [] {
      assert |multiset(ys)| == |multiset(xs)| == 0;
    } else {
      assert xs[0] in multiset(ys);
      var i :| 0 <= i < |ys| && ys[i] == xs[0];
      var rest := ys[..i] + ys[i + 1..];
      assert ys == ys[..i] + ([ys[i]] + ys[i + 1..]);
      TakeOut(xs, 0);
      TakeOut(ys, i);
      assert xs[..0] + xs[1..] == xs[1..];
      TotalIgnoresOrder(xs[1..], rest, wanted);
      TotalConcat(ys[..i], ys[i + 1..], wanted);
      TotalConcat(ys[..i], [ys[i]] + ys[i + 1..], wanted);
      TotalHead(ys[i], ys[i + 1..], wanted);
      Regroup(One(ys[i].o), Total(ys[..i], wanted), Total(ys[i + 1..], wanted));
    }
  }

  lemma TakeOut(ts: seq<Tagged>, i: nat)
    requires i < |ts|
    ensures multiset(ts[..i] + ts[i + 1..]) == multiset(ts) - multiset{ts[i]}
  {
    assert ts == ts[..i] + [ts[i]] + ts[i + 1..];
  }

  lemma TotalHead(t: Tagged, ts: seq<Tagged>, wanted: Cell -> bool)
    ensures Total([t] + ts, wanted) == if wanted(CellOf(t)) then Merge(One(t.o), Total(ts, wanted)) else Total(ts,
        wanted)
  {
    hide Merge, One;
    assert ([t] + ts)[1..] == ts;
  }

  // ---------------------------------------------------------------- what the reports add up to

  function InFamily(family: string, dimension: string): Observation -> bool {
    (o: Observation) => o.key.family == family && o.key.dimension == dimension
  }

  /** Aggregation of the observations of one family and dimension. */
  function Sum(os: seq<Observation>, f: Observation -> bool): Summary {
    if os == [] then NOTHING else if f(os[0]) then Merge(One(os[0]), Sum(os[1..], f)) else Sum(os[1..], f)
  }

  lemma {:induction false} SumConcat(xs: seq<Observation>, ys: seq<Observation>, f: Observation -> bool)
    ensures Sum(xs + ys, f) == Merge(Sum(xs, f), Sum(ys, f))
  {
    hide Merge, One;
    if xs == [] {
      assert xs + ys == ys;
      MergeLaws(Sum(ys, f), NOTHING, NOTHING);
    } else {
      assert (xs + ys)[0] == xs[0] && (xs + ys)[1..] == xs[1..] + ys;
      SumConcat(xs[1..], ys, f);
      MergeLaws(One(xs[0]), Sum(xs[1..], f), Sum(ys, f));
    }
  }

  lemma {:induction false} SumNothing(os: seq<Observation>, f: Observation -> bool)
    requires forall o | o in os :: !f(o)
    ensures Sum(os, f) == NOTHING
  {
    if os != [] {
      assert os[0] in os;
      forall o | o in os[1..] ensures o in os { }
      SumNothing(os[1..], f);
    }
  }

  /** Families that only decision rows feed. */
  predicate DecisionFamily(f: string) { f == "decision_rate" || f == "risk_score_distribution" }

  lemma {:induction false} PaymentsFeedOthers(ps: seq<PaymentRow>)
    ensures forall o | o in FromPayments(ps) :: !DecisionFamily(o.key.family)
  {
    if ps != [] {
      PaymentsFeedOthers(ps[1..]);
      PaymentFamilies(ps[0]);
      hide PaymentVolume, Latency, DecisionFamily;
    }
  }

  lemma FamilyNames()
    ensures !DecisionFamily("payment_volume") && !DecisionFamily("ingestion_latency") &&
        !DecisionFamily("quarantine_error")
    ensures DecisionFamily("decision_rate") && DecisionFamily("risk_score_distribution") &&
        "decision_rate" != "risk_score_distribution"
    ensures "overall" != "decision" && "overall" != "source_topic"
  {
    assert |"payment_volume"| == 14 && |"decision_rate"| == 13 && |"risk_score_distribution"| == 23 &&
        |"ingestion_latency"| == 17 && |"quarantine_error"| == 16;
    assert |"overall"| == 7 && |"decision"| == 8 && |"source_topic"| == 12;
  }

  lemma PaymentFamilies(p: PaymentRow)
    ensures forall o | o in PaymentVolume(p) :: !DecisionFamily(o.key.family)
    ensures forall o | o in Latency(p.date, p.topic, p.ingestedMs, p.kafkaMs) :: !DecisionFamily(o.key.family)
  {
    FamilyNames();
    hide DecisionFamily;
  }

  lemma {:induction false} CodesFeedOthers(q: QuarantineRow, codes: seq<string>)
    ensures forall o | o in QuarantineErrors(q, codes) :: !DecisionFamily(o.key.family)
  {
    FamilyNames();
    hide DecisionFamily;
    if codes != [] { CodesFeedOthers(q, codes[1..]); }
  }

  lemma {:induction false} QuarantineFeedsOthers(qs: seq<QuarantineRow>)
    ensures forall o | o in FromQuarantine(qs) :: !DecisionFamily(o.key.family)
  {
    hide DecisionFamily, QuarantineErrors;
    if qs != [] {
      QuarantineFeedsOthers(qs[1..]);
      CodesFeedOthers(qs[0], qs[0].codes);
    }
  }

  /** SUM, COUNT, MIN and MAX of the scores. */
  function ScoreColumn(ds: seq<DecisionRow>): Column {
    if ds == [] then Nulls else MergeColumns(OneColumn(Some(ds[0].score)), ScoreColumn(ds[1..]))
  }

  lemma OneDecision(d: DecisionRow)
    ensures var os := DecisionRate(d) + ScoreDistribution(d) + Latency(d.date, d.topic, d.ingestedMs, d.kafkaMs);
            && Sum(os, InFamily("decision_rate", "overall")) == Summary(1, None, Nulls, Nulls)
            && Sum(os, InFamily("risk_score_distribution", "overall")) == Summary(1, None, OneColumn(Some(d.score)),
                Nulls)
  {
    FamilyNames();
    var os := DecisionRate(d) + ScoreDistribution(d) + Latency(d.date, d.topic, d.ingestedMs, d.kafkaMs);
    assert os == [DecisionRate(d)[0], ScoreDistribution(d)[0], ScoreDistribution(d)[1],
        Latency(d.date, d.topic, d.ingestedMs, d.kafkaMs)[0]];
    hide Bucket;
    FourObservations(os, InFamily("decision_rate", "overall"));
    FourObservations(os, InFamily("risk_score_distribution", "overall"));
  }

  lemma FourObservations(os: seq<Observation>, f: Observation -> bool)
    requires |os| == 4 && !f(os[2]) && !f(os[3])
    ensures f(os[0]) && !f(os[1]) ==> Sum(os, f) == One(os[0])
    ensures !f(os[0]) && f(os[1]) ==> Sum(os, f) == One(os[1])
  {
    hide Merge, One;
    assert os[1..][1..] == os[2..] && os[2..][1..] == os[3..] && os[3..][1..] == [];
    assert Sum(os[3..], f) == NOTHING && Sum(os[2..], f) == NOTHING;
    MergeLaws(One(os[0]), NOTHING, NOTHING);
    MergeLaws(One(os[1]), NOTHING, NOTHING);
  }

  lemma {:induction false} DecisionSums(ds: seq<DecisionRow>)
    ensures Sum(FromDecisions(ds), InFamily("decision_rate", "overall")) == Summary(|ds|, None, Nulls, Nulls)
    ensures Sum(FromDecisions(ds), InFamily("risk_score_distribution", "overall")) == Summary(|ds|, None,
        ScoreColumn(ds), Nulls)
  {
    hide DecisionRate, ScoreDistribution, Latency, InFamily, Merge, MergeColumns, OneColumn, Sum;
    SumNothing([], InFamily("decision_rate", "overall"));
    SumNothing([], InFamily("risk_score_distribution", "overall"));
    if ds != [] {
      var d := ds[0];
      var os := DecisionRate(d) + ScoreDistribution(d) + Latency(d.date, d.topic, d.ingestedMs, d.kafkaMs);
      DecisionSums(ds[1..]);
      OneDecision(d);
      SumConcat(os, FromDecisions(ds[1..]), InFamily("decision_rate", "overall"));
      SumConcat(os, FromDecisions(ds[1..]), InFamily("risk_score_distribution", "overall"));
      CountedOnce(|ds| - 1, Nulls, Nulls);
      CountedOnce(|ds| - 1, OneColumn(Some(d.score)), ScoreColumn(ds[1..]));
      ColumnLaws(Nulls, Nulls, Nulls);
    }
  }

  lemma CountedOnce(n: nat, a: Column, b: Column)
    ensures Merge(Summary(1, None, a, Nulls), Summary(n, None, b, Nulls)) == Summary(n + 1, None, MergeColumns(a, b),
        Nulls)
  {
  }

  /** For every input, each decision is counted once by the rate family and once by the overall score
      buckets: both totals are the number of decisions, and the buckets carry every score. */
  lemma BucketsCountDecisions(f: Frame)
    ensures Sum(Build(f), InFamily("decision_rate", "overall")) == Summary(|f.decisions|, None, Nulls, Nulls)
    ensures Sum(Build(f), InFamily("risk_score_distribution", "overall")) == Summary(|f.decisions|, None,
        ScoreColumn(f.decisions), Nulls)
  {
    FamilyNames();
    PaymentsFeedOthers(f.payments);
    QuarantineFeedsOthers(f.quarantine);
    hide FromPayments, FromDecisions, FromQuarantine, Sum;
    DecisionSums(f.decisions);
    OnlyDecisionsCount(f, "decision_rate");
    OnlyDecisionsCount(f, "risk_score_distribution");
  }

  lemma OnlyDecisionsCount(f: Frame, family: string)
    requires DecisionFamily(family)
    requires forall o | o in FromPayments(f.payments) :: !DecisionFamily(o.key.family)
    requires forall o | o in FromQuarantine(f.quarantine) :: !DecisionFamily(o.key.family)
    ensures Sum(Build(f), InFamily(family, "overall")) == Sum(FromDecisions(f.decisions), InFamily(family, "overall"))
  {
    var wanted := InFamily(family, "overall");
    hide FromPayments, FromDecisions, FromQuarantine, Sum, DecisionFamily, Merge;
    SumConcat(FromPayments(f.payments), FromDecisions(f.decisions) + FromQuarantine(f.quarantine), wanted);
    SumConcat(FromDecisions(f.decisions), FromQuarantine(f.quarantine), wanted);
    SumNothing(FromPayments(f.payments), wanted);
    SumNothing(FromQuarantine(f.quarantine), wanted);
    MergeLaws(Sum(FromDecisions(f.decisions), wanted), NOTHING, NOTHING);
  }

  /** A micro-batch of input rows, possibly a retry of the batch. */
  datatype Batch = Batch(id: nat, frame: Frame)

  function Writes(bs: seq<Batch>): seq<Write> {
    if bs == [] then [] else Writes(bs[..|bs| - 1]) + [Write(bs[|bs| - 1].id, Build(bs[|bs| - 1].frame))]
  }

  /** The decisions in the last attempt of every batch, except for the batches in `replaced`. */
  function FinalDecisions(bs: seq<Batch>, replaced: set<nat>): nat {
    if bs == [] then 0
    else
      var last := bs[|bs| - 1];
      FinalDecisions(bs[..|bs| - 1], replaced + {last.id}) + if last.id in replaced then 0 else |last.frame.decisions|
  }

  function Of(family: string, replaced: set<nat>): Cell -> bool {
    (c: Cell) => c.batch !in replaced && c.key.family == family && c.key.dimension == "overall"
  }

  lemma {:induction false} TotalOfKept(ts: seq<Tagged>, batch: nat, family: string, replaced: set<nat>)
    ensures Total(Without(ts, batch), Of(family, replaced)) == Total(ts, Of(family, replaced + {batch}))
  {
    hide Merge, One;
    if ts != [] {
      TotalOfKept(ts[1..], batch, family, replaced);
      var rest := Without(ts[1..], batch);
      if ts[0].batch == batch {
        assert Without(ts, batch) == rest;
      } else {
        assert Without(ts, batch) == [ts[0]] + rest && ([ts[0]] + rest)[1..] == rest;
      }
    }
  }

  lemma {:induction false} TotalOfTag(batch: nat, os: seq<Observation>, family: string, replaced: set<nat>)
    ensures Total(Tag(batch, os), Of(family, replaced)) == if batch in replaced then NOTHING else Sum(os,
        InFamily(family, "overall"))
  {
    hide Merge, One;
    if os != [] {
      TotalOfTag(batch, os[1..], family, replaced);
      assert Tag(batch, os)[1..] == Tag(batch, os[1..]);
    }
  }

  lemma {:induction false} CountsSurvive(bs: seq<Batch>, family: string, replaced: set<nat>)
    requires family == "decision_rate" || family == "risk_score_distribution"
    ensures Total(Survivors(Writes(bs)), Of(family, replaced)).events == FinalDecisions(bs, replaced)
    decreases |bs|
  {
    hide Total, Without, Tag, Build, Sum, InFamily, Of;
    if bs == [] {
      TotalNothing([], Of(family, replaced));
    } else {
      var init, last := bs[..|bs| - 1], bs[|bs| - 1];
      var ws := Writes(bs);
      assert ws[|ws| - 1] == Write(last.id, Build(last.frame)) && ws[..|ws| - 1] == Writes(init);
      CountsSurvive(init, family, replaced + {last.id});
      var kept, added := Without(Survivors(Writes(init)), last.id), Tag(last.id, Build(last.frame));
      assert Survivors(ws) == kept + added;
      TotalConcat(kept, added, Of(family, replaced));
      TotalOfKept(Survivors(Writes(init)), last.id, family, replaced);
      TotalOfTag(last.id, Build(last.frame), family, replaced);
      BucketsCountDecisions(last.frame);
      hide Survivors, Writes, FinalDecisions, ScoreColumn;
    }
  }

  /** Whatever the batches and retries: the outcome counts of the report and the overall score buckets both
      sum to the number of decisions in the last attempt of every batch. */
  lemma ReportsAgree(bs: seq<Batch>, outcomes: seq<Cell>, buckets: seq<Cell>)
    requires Lists(outcomes, Stored(map[], Writes(bs)), Of("decision_rate", {}))
    requires Lists(buckets, Stored(map[], Writes(bs)), Of("risk_score_distribution", {}))
    ensures Merged(Stored(map[], Writes(bs)), outcomes).events == FinalDecisions(bs, {})
    ensures Merged(Stored(map[], Writes(bs)), buckets).events == FinalDecisions(bs, {})
  {
    hide Total, Stored, Writes, Survivors, Merged, Of, FinalDecisions, InStore;
    ReaggregationIsOneShot(Writes(bs), outcomes, Of("decision_rate", {}));
    ReaggregationIsOneShot(Writes(bs), buckets, Of("risk_score_distribution", {}));
    CountsSurvive(bs, "decision_rate", {});
    CountsSurvive(bs, "risk_score_distribution", {});
  }

  /** The buckets partition the scores 0-100, and each holds its own bounds. */
  lemma BucketHoldsScore(score: int, other: int)
    requires 0 <= score <= 100 && 0 <= other <= 100
    ensures LowerBound(score) <= score <= UpperBound(score)
    ensures Bucket(score) == Bucket(other) <==> LowerBound(score) <= other <= UpperBound(score)
  {
    hide Bucket, LowerBound, UpperBound;
    LabelsDiffer(score, other);
    TensBounds(score);
    TensBounds(other);
  }

  lemma TensBounds(score: int)
    requires 0 <= score <= 100
    ensures var low := LowerBound(score);
            && low <= score <= UpperBound(score) && low % 10 == 0 && 0 <= low <= 90
            && UpperBound(score) == (if low == 90 then 100 else low + 9)
  {
  }

  lemma LabelsDiffer(score: int, other: int)
    requires 0 <= score <= 100 && 0 <= other <= 100
    ensures Bucket(score) == Bucket(other) <==> LowerBound(score) == LowerBound(other)
  {
    var a, b := Bucket(score), Bucket(other);
    assert a[0] == TwoDigits(LowerBound(score))[0] && b[0] == TwoDigits(LowerBound(other))[0];
    assert LowerBound(score) % 10 == 0 && LowerBound(other) % 10 == 0;
  }

  // ---------------------------------------------------------------- rates

  /** One row of the outcome report. */
  datatype OutcomeRow = OutcomeRow(outcome: Option<string>, count: nat)

  function OfOutcome(outcome: Option<string>): Cell -> bool {
    (c: Cell) => Of("decision_rate", {})(c) && c.key.outcome == outcome
  }

  function OfOutcomes(outcomes: set<Option<string>>): Cell -> bool {
    (c: Cell) => Of("decision_rate", {})(c) && c.key.outcome in outcomes
  }

  /** SELECT outcome, sum(event_count) ... GROUP BY outcome on the stored deltas; `parts` holds the stored
      rows of each group. */
  ghost predicate OutcomeReport(bs: seq<Batch>, rows: seq<OutcomeRow>, parts: seq<seq<Cell>>) {
    var stored := Stored(map[], Writes(bs));
    && |parts| == |rows|
    && (forall i, j | 0 <= i < j < |rows| :: rows[i].outcome != rows[j].outcome)
    && (forall i | 0 <= i < |rows| ::
          && parts[i] != [] && Lists(parts[i], stored, OfOutcome(rows[i].outcome))
          && rows[i].count == Merged(stored, parts[i]).events)
    && (forall c | InStore(stored, c) && Of("decision_rate", {})(c) ::
          exists i | 0 <= i < |rows| :: rows[i].outcome == c.key.outcome)
  }

  function CountAll(rows: seq<OutcomeRow>): nat {
    if rows == [] then 0 else CountAll(rows[..|rows| - 1]) + rows[|rows| - 1].count
  }

  function SumReals(xs: seq<real>): real { if xs == [] then 0.0 else SumReals(xs[..|xs| - 1]) + xs[|xs| - 1] }

  /** The rate is the fraction count / total. */
  predicate IsRate(rate: real, count: nat, total: nat) { rate * total as real == count as real }

  /** decision_total of the inspection report. */
  method CountTotal(rows: seq<OutcomeRow>) returns (total: nat)
    ensures total == CountAll(rows)
  {
    total := 0;
    for i := 0 to |rows|
      invariant total == CountAll(rows[..i])
    {
      assert rows[..i + 1][..i] == rows[..i];
      total := total + rows[i].count;
    }
    assert rows[..|rows|] == rows;
  }

  lemma {:induction false} SomeEvents(ts: seq<Tagged>, wanted: Cell -> bool, t: Tagged)
    requires t in ts && wanted(CellOf(t))
    ensures Total(ts, wanted).events > 0
  {
    if ts[0] != t {
      assert t in ts[1..];
      SomeEvents(ts[1..], wanted, t);
    }
  }

  lemma RowCounts(bs: seq<Batch>, rows: seq<OutcomeRow>, parts: seq<seq<Cell>>, i: nat)
    requires OutcomeReport(bs, rows, parts) && i < |rows|
    ensures rows[i].count == Total(Survivors(Writes(bs)), OfOutcome(rows[i].outcome)).events > 0
  {
    hide Total, Stored, Writes, Survivors, Merged, OfOutcome, InStore, Of;
    var ws := Writes(bs);
    ReaggregationIsOneShot(ws, parts[i], OfOutcome(rows[i].outcome));
    var c := parts[i][0];
    assert c in parts[i] && InStore(Stored(map[], ws), c) && OfOutcome(rows[i].outcome)(c);
    StoredIsSurvivors(ws, c);
    var t :| t in Survivors(ws) && CellOf(t) == c;
    SomeEvents(Survivors(ws), OfOutcome(rows[i].outcome), t);
  }

  function OutcomesOf(rows: seq<OutcomeRow>): set<Option<string>> { set r | r in rows :: r.outcome }

  lemma {:induction false} CountsAdd(ts: seq<Tagged>, rows: seq<OutcomeRow>)
    requires forall i, j | 0 <= i < j < |rows| :: rows[i].outcome != rows[j].outcome
    requires forall i | 0 <= i < |rows| :: rows[i].count == Total(ts, OfOutcome(rows[i].outcome)).events
    ensures CountAll(rows) == Total(ts, OfOutcomes(OutcomesOf(rows))).events
    decreases |rows|
  {
    hide Total, Of;
    if rows == [] {
      TotalNothing(ts, OfOutcomes(OutcomesOf(rows)));
    } else {
      var init, last := rows[..|rows| - 1], rows[|rows| - 1];
      CountsAdd(ts, init);
      assert last.outcome !in OutcomesOf(init);
      assert OutcomesOf(rows) == OutcomesOf(init) + {last.outcome} by {
        assert rows == init + [last];
      }
      TotalSplits(ts, OfOutcomes(OutcomesOf(rows)), OfOutcomes(OutcomesOf(init)), OfOutcome(last.outcome));
    }
  }

  /** The counts of the outcome report sum to the decisions in the last attempt of every batch, and no count
      is 0, so the rates never divide by 0. */
  lemma OutcomesAddUp(bs: seq<Batch>, rows: seq<OutcomeRow>, parts: seq<seq<Cell>>)
    requires OutcomeReport(bs, rows, parts)
    ensures CountAll(rows) == FinalDecisions(bs, {}) && (rows != [] ==> CountAll(rows) > 0)
  {
    hide Total, Stored, Writes, Survivors, Merged, OfOutcome, InStore, FinalDecisions, Lists;
    var ts := Survivors(Writes(bs));
    forall i | 0 <= i < |rows| ensures rows[i].count == Total(ts, OfOutcome(rows[i].outcome)).events > 0 {
      RowCounts(bs, rows, parts, i);
    }
    CountsAdd(ts, rows);
    forall t | t in ts ensures OfOutcomes(OutcomesOf(rows))(CellOf(t)) == Of("decision_rate", {})(CellOf(t)) {
      StoredIsSurvivors(Writes(bs), CellOf(t));
      assert Occurs(ts, CellOf(t));
    }
    TotalAgrees(ts, OfOutcomes(OutcomesOf(rows)), Of("decision_rate", {}));
    CountsSurvive(bs, "decision_rate", {});
  }

  /** decision_rates of the inspection report over the stored deltas: each rate is its outcome's share of the
      decisions in the last attempt of every batch, and the rates sum to 1. */
  method Rates(ghost bs: seq<Batch>, ghost parts: seq<seq<Cell>>, rows: seq<OutcomeRow>)
    returns (total: nat, rates: seq<real>)
    requires OutcomeReport(bs, rows, parts)
    ensures total == FinalDecisions(bs, {}) && |rates| == |rows| && (rows == [] <==> total == 0)
    ensures forall i | 0 <= i < |rows| :: IsRate(rates[i], rows[i].count, total)
    ensures rows != [] ==> SumReals(rates) == 1.0
  {
    hide OutcomeReport, FinalDecisions, Share, IsRate;
    OutcomesAddUp(bs, rows, parts);
    total, rates := Shares(rows);
  }

  /** The division, outcome by outcome. */
  method Shares(rows: seq<OutcomeRow>) returns (total: nat, rates: seq<real>)
    requires rows != [] ==> CountAll(rows) > 0
    ensures total == CountAll(rows) && |rates| == |rows|
    ensures forall i | 0 <= i < |rows| :: IsRate(rates[i], rows[i].count, total)
    ensures rows != [] ==> SumReals(rates) == 1.0
  {
    hide Share, IsRate;
    total := CountTotal(rows);
    rates := [];
    if rows == [] { return; }
    AddShares(0, total, total);
    for i := 0 to |rows|
      invariant |rates| == i && forall k | 0 <= k < i :: IsRate(rates[k], rows[k].count, total)
      invariant SumReals(rates) == Share(CountAll(rows[..i]), total)
    {
      assert rows[..i + 1][..i] == rows[..i];
      var rate := Share(rows[i].count, total);
      AddShares(CountAll(rows[..i]), rows[i].count, total);
      assert (rates + [rate])[..i] == rates;
      rates := rates + [rate];
    }
    assert rows[..|rows|] == rows;
  }

  function Share(count: nat, total: nat): real
    requires total > 0
  { count as real / total as real }

  lemma AddShares(a: nat, b: nat, total: nat)
    requires total > 0
    ensures Share(a, total) + Share(b, total) == Share(a + b, total)
    ensures IsRate(Share(b, total), b, total)
    ensures Share(0, total) == 0.0 && Share(total, total) == 1.0
  {
  }
}
