/** What the stored metrics say, told from the input rows: the meaning of a summary's columns, and for each
    metric family which rows a key counts and with which values. */
module MetricContents {
  import opened Text
  import opened Metrics

  // ---------------------------------------------------------------- what a summary means

  /** The observations of a selection, in order. */
  function Picked(os: seq<Observation>, f: Observation -> bool): seq<Observation> {
    if os == [] then [] else (if f(os[0]) then [os[0]] else []) + Picked(os[1..], f)
  }

  function Present(xs: seq<Option<int>>): seq<int> {
    if xs == [] then [] else (if xs[0].Some? then [xs[0].value] else []) + Present(xs[1..])
  }

  function Added(xs: seq<int>): int { if xs == [] then 0 else xs[0] + Added(xs[1..]) }

  /** SUM of these amounts, null without any. */
  function SumOf(xs: seq<int>): Option<int> { if xs == [] then None else Some(Added(xs)) }

  /** SUM, COUNT, MIN and MAX of these values; all null without any. */
  ghost predicate Means(c: Column, xs: seq<int>) {
    if xs == [] then c.Nulls?
    else
      && c.Stat? && c.sum == Added(xs) && c.count == |xs| && c.low in xs && c.high in xs
      && forall x | x in xs :: c.low <= x <= c.high
  }

  function Amounts(os: seq<Observation>): seq<int> { Present(seq(|os|, i requires 0 <= i < |os| => os[i].amount)) }
  function ScoresOf(os: seq<Observation>): seq<int> { Present(seq(|os|, i requires 0 <= i < |os| => os[i].score)) }
  function Latencies(os: seq<Observation>): seq<int> { Present(seq(|os|, i requires 0 <= i < |os| => os[i].latency)) }

  /** The summary is the aggregate of these observations. */
  ghost predicate Summarizes(s: Summary, os: seq<Observation>) {
    && s.events == |os|
    && s.amount == SumOf(Amounts(os))
    && Means(s.score, ScoresOf(os)) && Means(s.latency, Latencies(os))
  }

  lemma ConsPresent(x: Option<int>, xs: seq<Option<int>>)
    ensures Present([x] + xs) == (if x.Some? then [x.value] else []) + Present(xs)
  {
    assert ([x] + xs)[1..] == xs;
  }

  lemma ConsColumn(c: Column, v: Option<int>, xs: seq<int>)
    requires Means(c, xs)
    ensures Means(MergeColumns(OneColumn(v), c), (if v.Some? then [v.value] else []) + xs)
  {
    if v.Some? {
      var ys := [v.value] + xs;
      assert ys[1..] == xs && ys[0] == v.value;
      forall x ensures x in ys <==> x == v.value || x in xs { }
      assert Added(ys) == v.value + Added(xs);
    } else {
      assert [] + xs == xs;
    }
  }

  lemma ConsLists(o: Observation, os: seq<Observation>)
    ensures Amounts([o] + os) == (if o.amount.Some? then [o.amount.value] else []) + Amounts(os)
    ensures ScoresOf([o] + os) == (if o.score.Some? then [o.score.value] else []) + ScoresOf(os)
    ensures Latencies([o] + os) == (if o.latency.Some? then [o.latency.value] else []) + Latencies(os)
  {
    var all := [o] + os;
    ConsPresent(o.amount, seq(|os|, i requires 0 <= i < |os| => os[i].amount));
    ConsPresent(o.score, seq(|os|, i requires 0 <= i < |os| => os[i].score));
    ConsPresent(o.latency, seq(|os|, i requires 0 <= i < |os| => os[i].latency));
    hide Present;
    assert seq(|all|, i requires 0 <= i < |all| => all[i].amount)
        == [o.amount] + seq(|os|, i requires 0 <= i < |os| => os[i].amount);
    assert seq(|all|, i requires 0 <= i < |all| => all[i].score)
        == [o.score] + seq(|os|, i requires 0 <= i < |os| => os[i].score);
    assert seq(|all|, i requires 0 <= i < |all| => all[i].latency)
        == [o.latency] + seq(|os|, i requires 0 <= i < |os| => os[i].latency);
  }

  lemma ConsSum(v: Option<int>, xs: seq<int>)
    ensures AddAmounts(v, SumOf(xs)) == SumOf((if v.Some? then [v.value] else []) + xs)
  {
    if v.Some? {
      var ys := [v.value] + xs;
      assert ys != [] && ys[0] == v.value && ys[1..] == xs;
      assert Added(ys) == v.value + Added(xs);
    } else {
      assert [] + xs == xs;
    }
  }

  lemma ConsSummary(s: Summary, o: Observation, os: seq<Observation>)
    requires Summarizes(s, os)
    ensures Summarizes(Merge(One(o), s), [o] + os)
  {
    hide Means, MergeColumns, OneColumn, Amounts, ScoresOf, Latencies, SumOf, AddAmounts;
    ConsLists(o, os);
    ConsColumn(s.score, o.score, ScoresOf(os));
    ConsColumn(s.latency, o.latency, Latencies(os));
    ConsSum(o.amount, Amounts(os));
    assert |[o] + os| == 1 + |os|;
  }

  /** Aggregation counts the selected observations and takes sum, count, minimum and maximum of their values. */
  lemma {:induction false} SumMeans(os: seq<Observation>, f: Observation -> bool)
    ensures Summarizes(Sum(os, f), Picked(os, f))
  {
    hide Summarizes, Merge, One;
    if os == [] {
      NothingMeans();
    } else {
      SumMeans(os[1..], f);
      if f(os[0]) { ConsSummary(Sum(os[1..], f), os[0], Picked(os[1..], f)); }
      else { assert [] + Picked(os[1..], f) == Picked(os[1..], f); }
    }
  }

  lemma NothingMeans()
    ensures Summarizes(NOTHING, [])
  {
  }

  // ---------------------------------------------------------------- which rows a key counts

  /** The observations of one key. */
  function IsKey(k: Key): Observation -> bool { (o: Observation) => o.key == k }

  function When(b: bool, o: Observation): seq<Observation> { if b then [o] else [] }

  lemma PickedOne(o: Observation, os: seq<Observation>, f: Observation -> bool)
    ensures Picked([o] + os, f) == When(f(o), o) + Picked(os, f)
  {
    assert ([o] + os)[1..] == os;
  }

  lemma {:induction false} PickedConcat(a: seq<Observation>, b: seq<Observation>, f: Observation -> bool)
    ensures Picked(a + b, f) == Picked(a, f) + Picked(b, f)
  {
    if a == [] {
      assert a + b == b;
      assert Picked(a, f) + Picked(b, f) == Picked(b, f);
    } else {
      PickedConcat(a[1..], b, f);
      assert a + b == [a[0]] + (a[1..] + b) && a == [a[0]] + a[1..];
      PickedOne(a[0], a[1..] + b, f);
      PickedOne(a[0], a[1..], f);
      hide Picked;
      assert When(f(a[0]), a[0]) + (Picked(a[1..], f) + Picked(b, f))
          == (When(f(a[0]), a[0]) + Picked(a[1..], f)) + Picked(b, f);
    }
  }

  lemma {:induction false} PickedNothing(os: seq<Observation>, f: Observation -> bool)
    requires forall o | o in os :: !f(o)
    ensures Picked(os, f) == []
  {
    if os != [] {
      assert os[0] in os && forall o | o in os[1..] :: o in os;
      PickedNothing(os[1..], f);
    }
  }

  lemma FamiliesDiffer()
    ensures "payment_volume" != "decision_rate" && "payment_volume" != "risk_score_distribution"
    ensures "payment_volume" != "ingestion_latency" && "payment_volume" != "quarantine_error"
    ensures "decision_rate" != "risk_score_distribution" && "decision_rate" != "ingestion_latency"
    ensures "decision_rate" != "quarantine_error" && "risk_score_distribution" != "ingestion_latency"
    ensures "risk_score_distribution" != "quarantine_error" && "ingestion_latency" != "quarantine_error"
    ensures "overall" != "merchant" && "overall" != "country" && "merchant" != "country" && "overall" != "decision"
  {
    assert |"payment_volume"| == 14 && |"decision_rate"| == 13 && |"risk_score_distribution"| == 23;
    assert |"ingestion_latency"| == 17 && |"quarantine_error"| == 16;
    assert |"overall"| == 7 && |"merchant"| == 8 && |"country"| == 7 && "overall"[0] != "country"[0];
    assert |"decision"| == 8;
  }

  /** The payments a volume key counts: all of the day, those of a merchant, or those of a country. */
  predicate VolumeOf(k: Key, p: PaymentRow) {
    && k.family == "payment_volume" && k.outcome.None? && k.bucket.None? && k.date == p.date
    && ((k.dimension == "overall" && k.value == "ALL") || (k.dimension == "merchant" && k.value == p.merchant)
        || (k.dimension == "country" && k.value == p.country))
  }

  /** The records a latency key measures: those of one topic and day. */
  predicate LatencyOf(k: Key, date: string, topic: string) {
    && k.family == "ingestion_latency" && k.outcome.None? && k.bucket.None? && k.date == date
    && k.dimension == "source_topic" && k.value == topic
  }

  /** The decisions a rate key counts: those of the day with its outcome. */
  predicate RateOf(k: Key, d: DecisionRow) {
    && k.family == "decision_rate" && k.outcome == Some(d.decision) && k.bucket.None? && k.date == d.date
    && k.dimension == "overall" && k.value == "ALL"
  }

  /** The decisions a score key counts: those of the day in its bucket, all of them or those of one outcome. */
  predicate ScoredIn(k: Key, d: DecisionRow) {
    && k.family == "risk_score_distribution" && k.outcome.None? && k.bucket == Some(Bucket(d.score))
    && k.date == d.date
    && ((k.dimension == "overall" && k.value == "ALL") || (k.dimension == "decision" && k.value == d.decision))
  }

  /** The quarantined records an error key counts: those of one topic and day, once for each time they name
      its code. */
  predicate ErrorOf(k: Key, q: QuarantineRow, code: string) {
    && k.family == "quarantine_error" && k.outcome.None? && k.bucket == Some(code) && k.date == q.date
    && k.dimension == "source_topic" && k.value == q.topic
  }

  /** A clock that runs behind gives no negative delay. */
  function Delay(ingestedMs: int, kafkaMs: int): int { if ingestedMs < kafkaMs then 0 else ingestedMs - kafkaMs }

  function ByPayments(k: Key, ps: seq<PaymentRow>): seq<Observation> {
    if ps == [] then []
    else
      When(VolumeOf(k, ps[0]), Observation(k, Some(ps[0].amount), None, None))
      + When(LatencyOf(k, ps[0].date, ps[0].topic),
             Observation(k, None, None, Some(Delay(ps[0].ingestedMs, ps[0].kafkaMs))))
      + ByPayments(k, ps[1..])
  }

  function ByDecisions(k: Key, ds: seq<DecisionRow>): seq<Observation> {
    if ds == [] then []
    else
      When(RateOf(k, ds[0]), Observation(k, None, None, None))
      + When(ScoredIn(k, ds[0]), Observation(k, None, Some(ds[0].score), None))
      + When(LatencyOf(k, ds[0].date, ds[0].topic),
             Observation(k, None, None, Some(Delay(ds[0].ingestedMs, ds[0].kafkaMs))))
      + ByDecisions(k, ds[1..])
  }

  function ByCodes(k: Key, q: QuarantineRow, codes: seq<string>): seq<Observation> {
    if codes == [] then []
    else When(ErrorOf(k, q, codes[0]), Observation(k, None, None, None)) + ByCodes(k, q, codes[1..])
  }

  function ByQuarantine(k: Key, qs: seq<QuarantineRow>): seq<Observation> {
    if qs == [] then [] else ByCodes(k, qs[0], qs[0].codes) + ByQuarantine(k, qs[1..])
  }

  /** What the input rows have to say to a key. */
  function Owed(f: Frame, k: Key): seq<Observation> {
    ByPayments(k, f.payments) + ByDecisions(k, f.decisions) + ByQuarantine(k, f.quarantine)
  }

  lemma OnePayment(k: Key, p: PaymentRow)
    ensures Picked(PaymentVolume(p), IsKey(k)) == When(VolumeOf(k, p), Observation(k, Some(p.amount), None, None))
  {
    FamiliesDiffer();
    var v := PaymentVolume(p);
    assert v == [v[0]] + ([v[1]] + ([v[2]] + []));
    PickedOne(v[2], [], IsKey(k));
    PickedOne(v[1], [v[2]] + [], IsKey(k));
    PickedOne(v[0], [v[1]] + ([v[2]] + []), IsKey(k));
    hide Picked;
  }

  lemma OneLatency(k: Key, date: string, topic: string, ingestedMs: int, kafkaMs: int)
    ensures Picked(Latency(date, topic, ingestedMs, kafkaMs), IsKey(k))
              == When(LatencyOf(k, date, topic), Observation(k, None, None, Some(Delay(ingestedMs, kafkaMs))))
  {
    var l := Latency(date, topic, ingestedMs, kafkaMs);
    assert l == [l[0]] + [];
    PickedOne(l[0], [], IsKey(k));
  }

  lemma OneDecision(k: Key, d: DecisionRow)
    ensures Picked(DecisionRate(d), IsKey(k)) == When(RateOf(k, d), Observation(k, None, None, None))
    ensures Picked(ScoreDistribution(d), IsKey(k)) == When(ScoredIn(k, d), Observation(k, None, Some(d.score), None))
  {
    hide Bucket;
    FamiliesDiffer();
    var r, s := DecisionRate(d), ScoreDistribution(d);
    assert r == [r[0]] + [] && s == [s[0]] + ([s[1]] + []);
    PickedOne(r[0], [], IsKey(k));
    PickedOne(s[1], [], IsKey(k));
    PickedOne(s[0], [s[1]] + [], IsKey(k));
    hide Picked;
  }

  lemma {:induction false} PaymentsTell(k: Key, ps: seq<PaymentRow>)
    ensures Picked(FromPayments(ps), IsKey(k)) == ByPayments(k, ps)
  {
    hide Picked, PaymentVolume, Latency, VolumeOf, LatencyOf, IsKey;
    if ps == [] {
      PickedNothing([], IsKey(k));
    } else {
      var p := ps[0];
      PaymentsTell(k, ps[1..]);
      OnePayment(k, p);
      OneLatency(k, p.date, p.topic, p.ingestedMs, p.kafkaMs);
      PickedConcat(PaymentVolume(p) + Latency(p.date, p.topic, p.ingestedMs, p.kafkaMs), FromPayments(ps[1..]),
        IsKey(k));
      PickedConcat(PaymentVolume(p), Latency(p.date, p.topic, p.ingestedMs, p.kafkaMs), IsKey(k));
    }
  }

  lemma {:induction false} DecisionsTell(k: Key, ds: seq<DecisionRow>)
    ensures Picked(FromDecisions(ds), IsKey(k)) == ByDecisions(k, ds)
  {
    hide Picked, DecisionRate, ScoreDistribution, Latency, RateOf, ScoredIn, LatencyOf, IsKey;
    if ds == [] {
      PickedNothing([], IsKey(k));
    } else {
      var d := ds[0];
      var l := Latency(d.date, d.topic, d.ingestedMs, d.kafkaMs);
      DecisionsTell(k, ds[1..]);
      OneDecision(k, d);
      OneLatency(k, d.date, d.topic, d.ingestedMs, d.kafkaMs);
      PickedConcat(DecisionRate(d) + ScoreDistribution(d) + l, FromDecisions(ds[1..]), IsKey(k));
      PickedConcat(DecisionRate(d) + ScoreDistribution(d), l, IsKey(k));
      PickedConcat(DecisionRate(d), ScoreDistribution(d), IsKey(k));
    }
  }

  lemma {:induction false} CodesTell(k: Key, q: QuarantineRow, codes: seq<string>)
    ensures Picked(QuarantineErrors(q, codes), IsKey(k)) == ByCodes(k, q, codes)
  {
    if codes != [] {
      CodesTell(k, q, codes[1..]);
      var o := QuarantineErrors(q, codes)[0];
      PickedOne(o, QuarantineErrors(q, codes[1..]), IsKey(k));
      hide Picked;
    }
  }

  lemma {:induction false} QuarantineTells(k: Key, qs: seq<QuarantineRow>)
    ensures Picked(FromQuarantine(qs), IsKey(k)) == ByQuarantine(k, qs)
  {
    hide Picked, QuarantineErrors, ByCodes;
    if qs == [] {
      PickedNothing([], IsKey(k));
    } else {
      QuarantineTells(k, qs[1..]);
      CodesTell(k, qs[0], qs[0].codes);
      PickedConcat(QuarantineErrors(qs[0], qs[0].codes), FromQuarantine(qs[1..]), IsKey(k));
    }
  }

  /** For every key, the built observations are what the rows have to say to it. */
  lemma KeyTold(f: Frame, k: Key)
    ensures Picked(Build(f), IsKey(k)) == Owed(f, k)
  {
    hide FromPayments, FromDecisions, FromQuarantine, Picked, ByPayments, ByDecisions, ByQuarantine;
    PickedConcat(FromPayments(f.payments), FromDecisions(f.decisions) + FromQuarantine(f.quarantine), IsKey(k));
    PickedConcat(FromDecisions(f.decisions), FromQuarantine(f.quarantine), IsKey(k));
    PaymentsTell(k, f.payments);
    DecisionsTell(k, f.decisions);
    QuarantineTells(k, f.quarantine);
  }

  lemma {:induction false} TaggedSum(os: seq<Observation>, k: Key)
    ensures Total(Tag(0, os), (c: Cell) => c.key == k) == Sum(os, IsKey(k))
    ensures Picked(os, IsKey(k)) == [] <==> forall o | o in os :: o.key != k
  {
    hide Merge, One;
    if os != [] {
      TaggedSum(os[1..], k);
      assert Tag(0, os)[1..] == Tag(0, os[1..]);
      assert forall o :: o in os <==> o == os[0] || o in os[1..];
    }
  }

  /** A batch stores a row for exactly the keys its input rows have something to say to, and the row holds
      their number and the sum, count, minimum and maximum of their values. */
  lemma StoredRowsTell(f: Frame, k: Key)
    ensures k in GroupBy(Build(f)) <==> Owed(f, k) != []
    ensures k in GroupBy(Build(f)) ==> Summarizes(GroupBy(Build(f))[k], Owed(f, k))
  {
    hide Total, Sum, Picked, Build, Owed, Summarizes;
    var os := Build(f);
    KeyTold(f, k);
    SumMeans(os, IsKey(k));
    TaggedSum(os, k);
    if k in GroupBy(os) { SameKeyTotal(os, k); }
    hide IsKey;
    if o :| o in os && o.key == k {
      var i :| 0 <= i < |os| && os[i] == o;
      assert os[i].key in GroupBy(os);
    }
  }

  predicate DigitChar(c: char) { '0' <= c <= '9' }
  function Value(c: char): int { c as int - 48 }

  /** A bucket is labelled with its bounds in decimal, two digits or 100. */
  lemma BucketLabel(score: int)
    requires 0 <= score <= 100
    ensures var text := Bucket(score);
            var low := if score < 90 then score - score % 10 else 90;
            && |text| >= 5 && text[2] == '-' && DigitChar(text[0]) && DigitChar(text[1])
            && 10 * Value(text[0]) + Value(text[1]) == low
            && if low == 90 then text[3..] == "100"
               else |text| == 5 && text[3] == text[0] && text[4] == '9'
  {
    var low := LowerBound(score);
    assert low == (if score < 90 then score - score % 10 else 90);
    assert Bucket(score)[3..] == TwoDigits(UpperBound(score));
    assert TwoDigits(low)[0] == (48 + low / 10) as char && TwoDigits(low)[1] == (48 + low % 10) as char;
  }
}
