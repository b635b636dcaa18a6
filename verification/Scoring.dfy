/** The risk service's policy: the rule engine, the combination of rules and model into one decision,
    the identity of that decision, and what the consumer's contract makes of it. */
module Scoring {
  import opened Text
  import opened Domain
  import opened Validation
  import opened EventContract
  import opened Features

  // ---------------------------------------------------------------- settings and model

  datatype Settings = Settings(
    highAmount: int, extremeAmount: int, reviewThreshold: int, blockThreshold: int,
    riskyMerchants: set<string>, highRiskCountries: set<string>)

  /** Settings.validate and the bounds of the environment readers. */
  predicate ValidSettings(c: Settings) {
    0 < c.highAmount < c.extremeAmount && 1 <= c.reviewThreshold < c.blockThreshold <= 100
  }

  /** RiskModel.score: a score, or ModelScoringError. */
  datatype Model = Unavailable | Scored(probability: real, score: int, threshold: real, version: string)

  /** What the loaded artifact guarantees: a threshold inside (0, 1), a score clamped to 0-100 and a version
      that is not blank. Nothing bounds the version's length. */
  predicate ValidModel(m: Model) {
    && (m.Scored? ==> 0.0 <= m.probability <= 1.0 && 0 <= m.score <= 100)
    && (m.Scored? ==> 0.0 < m.threshold < 1.0 && TrimSpace(m.version) != "")
  }

  // ---------------------------------------------------------------- the rules

  datatype Signal =
    | ExtremeAmount | HighAmount | HighVelocity | NewDevice | CrossBorder | RiskyMerchant | HighRiskCountry

  const SIGNALS := [ExtremeAmount, HighAmount, HighVelocity, NewDevice, CrossBorder, RiskyMerchant, HighRiskCountry]

  function Points(s: Signal): nat {
    match s
    case ExtremeAmount => 70 case HighAmount => 40 case HighVelocity => 40 case NewDevice => 15
    case CrossBorder => 25 case RiskyMerchant => 30 case HighRiskCountry => 30
  }

  function ReasonFor(s: Signal): string {
    match s
    case ExtremeAmount => "EXTREME_AMOUNT" case HighAmount => "HIGH_AMOUNT" case HighVelocity => "HIGH_VELOCITY_5M"
    case NewDevice => "NEW_DEVICE" case CrossBorder => "CROSS_BORDER" case RiskyMerchant => "RISKY_MERCHANT"
    case HighRiskCountry => "HIGH_RISK_COUNTRY"
  }

  predicate Raised(c: Settings, p: Request, f: Snapshot, s: Signal) {
    match s
    case ExtremeAmount => p.amountMinor >= c.extremeAmount
    case HighAmount => c.highAmount <= p.amountMinor < c.extremeAmount
    case HighVelocity => f.velocity >= 5
    case NewDevice => f.newDevice
    case CrossBorder => f.crossBorder
    case RiskyMerchant => p.merchantId in c.riskyMerchants
    case HighRiskCountry => p.country in c.highRiskCountries
  }

  /** Points and reasons of the raised ones among the first k signals. */
  function RaisedPoints(c: Settings, p: Request, f: Snapshot, k: nat): nat
    requires k <= |SIGNALS|
  {
    if k == 0 then 0 else RaisedPoints(c, p, f, k - 1) + if Raised(c, p, f,
        SIGNALS[k - 1]) then Points(SIGNALS[k - 1]) else 0
  }

  function RaisedReasons(c: Settings, p: Request, f: Snapshot, k: nat): seq<string>
    requires k <= |SIGNALS|
  {
    if k == 0 then [] else RaisedReasons(c, p, f, k - 1) + if Raised(c, p, f,
        SIGNALS[k - 1]) then [ReasonFor(SIGNALS[k - 1])] else []
  }

  function Min(a: int, b: int): int { if a < b then a else b }
  function Max(a: int, b: int): int { if a < b then b else a }

  function RuleScore(c: Settings, p: Request, f: Snapshot): int { Min(RaisedPoints(c, p, f, |SIGNALS|), 100) }

  function RuleVerdict(c: Settings, score: int): Verdict {
    if score >= c.blockThreshold then Block else if score >= c.reviewThreshold then Review else Allow
  }

  datatype RuleResult = RuleResult(verdict: Verdict, score: int, reasons: seq<string>)

  const NO_SIGNALS := "NO_RISK_SIGNALS"

  function Rules(c: Settings, p: Request, f: Snapshot): RuleResult {
    var reasons := RaisedReasons(c, p, f, |SIGNALS|);
    RuleResult(RuleVerdict(c, RuleScore(c, p, f)), RuleScore(c, p, f), if reasons == [] then [NO_SIGNALS] else reasons)
  }

  /** RuleEngine.evaluate: adds up points and reasons signal by signal. */
  method Evaluate(c: Settings, p: Request, f: Snapshot) returns (result: RuleResult)
    requires ValidSettings(c)
    ensures result == Rules(c, p, f)
  {
    hide Tally, ReasonFor, RaisedPoints, RaisedReasons;
    var score, reasons := 0, [];
    NextSignal(c, p, f, 0, score, reasons);
    if p.amountMinor >= c.extremeAmount {
      score, reasons := score + 70, reasons + [ReasonFor(ExtremeAmount)];
      NextSignal(c, p, f, 1, score, reasons);
    } else {
      NextSignal(c, p, f, 1, score, reasons);
      if p.amountMinor >= c.highAmount { score, reasons := score + 40, reasons + [ReasonFor(HighAmount)]; }
    }
    NextSignal(c, p, f, 2, score, reasons);
    if f.velocity >= 5 { score, reasons := score + 40, reasons + [ReasonFor(HighVelocity)]; }
    NextSignal(c, p, f, 3, score, reasons);
    if f.newDevice { score, reasons := score + 15, reasons + [ReasonFor(NewDevice)]; }
    NextSignal(c, p, f, 4, score, reasons);
    if f.crossBorder { score, reasons := score + 25, reasons + [ReasonFor(CrossBorder)]; }
    NextSignal(c, p, f, 5, score, reasons);
    if p.merchantId in c.riskyMerchants { score, reasons := score + 30, reasons + [ReasonFor(RiskyMerchant)]; }
    NextSignal(c, p, f, 6, score, reasons);
    if p.country in c.highRiskCountries { score, reasons := score + 30, reasons + [ReasonFor(HighRiskCountry)]; }
    TallyDecides(c, p, f, score, reasons);
    score := if score < 100 then score else 100;
    var verdict := Allow;
    if score >= c.blockThreshold { verdict := Block; } else if score >= c.reviewThreshold { verdict := Review; }
    if reasons == [] { reasons := [NO_SIGNALS]; }
    return RuleResult(verdict, score, reasons);
  }

  /** Score and reasons as they stand after the first k signals. */
  ghost predicate Tally(c: Settings, p: Request, f: Snapshot, k: nat, score: int, reasons: seq<string>)
    requires k <= |SIGNALS|
  {
    score == RaisedPoints(c, p, f, k) && reasons == RaisedReasons(c, p, f, k)
  }

  lemma NextSignal(c: Settings, p: Request, f: Snapshot, k: nat, score: int, reasons: seq<string>)
    requires k < |SIGNALS|
    requires if k == 0 then score == 0 && reasons == [] else Tally(c, p, f, k, score, reasons)
    ensures var s := SIGNALS[k];
            if Raised(c, p, f, s) then Tally(c, p, f, k + 1, score + Points(s), reasons + [ReasonFor(s)])
            else Tally(c, p, f, k + 1, score, reasons)
  {
    hide Raised, ReasonFor, Points;
    assert RaisedPoints(c, p, f, 0) == 0 && RaisedReasons(c, p, f, 0) == [];
  }

  lemma TallyDecides(c: Settings, p: Request, f: Snapshot, score: int, reasons: seq<string>)
    requires Tally(c, p, f, |SIGNALS|, score, reasons)
    ensures score == RaisedPoints(c, p, f, |SIGNALS|) && reasons == RaisedReasons(c, p, f, |SIGNALS|)
  {
  }

  // ---------------------------------------------------------------- what the rules promise

  predicate AsSevere(a: Verdict, b: Verdict) {
    match a case Allow => true case Review => !b.Allow? case Block => b.Block?
  }

  /** The second payment shows every sign of risk the first shows, at least as strongly. */
  predicate Riskier(c: Settings, p: Request, f: Snapshot, q: Request, g: Snapshot) {
    && p.amountMinor <= q.amountMinor && f.velocity <= g.velocity
    && (f.newDevice ==> g.newDevice) && (f.crossBorder ==> g.crossBorder)
    && (p.merchantId in c.riskyMerchants ==> q.merchantId in c.riskyMerchants)
    && (p.country in c.highRiskCountries ==> q.country in c.highRiskCountries)
  }

  lemma {:induction false} PointsGrow(c: Settings, p: Request, f: Snapshot, q: Request, g: Snapshot, k: nat)
    requires ValidSettings(c) && Riskier(c, p, f, q, g) && k <= |SIGNALS|
    ensures RaisedPoints(c, p, f, k) <= RaisedPoints(c, q, g, k)
    decreases k
  {
    if k > 2 {
      PointsGrow(c, p, f, q, g, k - 1);
    } else {
      assert RaisedPoints(c, p, f, 0) == RaisedPoints(c, q, g, 0);
      assert k >= 1 ==> RaisedPoints(c, p, f, 1) <= RaisedPoints(c, q, g, 1);
    }
  }

  /** More risk never lowers the score or softens the verdict. */
  lemma RulesMonotone(c: Settings, p: Request, f: Snapshot, q: Request, g: Snapshot)
    requires ValidSettings(c) && Riskier(c, p, f, q, g)
    ensures Rules(c, p, f).score <= Rules(c, q, g).score
    ensures AsSevere(Rules(c, p, f).verdict, Rules(c, q, g).verdict)
  {
    hide Rules, RaisedReasons, RaisedPoints;
    PointsGrow(c, p, f, q, g, |SIGNALS|);
    assert RuleScore(c, p, f) <= RuleScore(c, q, g);
    RulesShape(c, p, f);
    RulesShape(c, q, g);
  }

  lemma RulesShape(c: Settings, p: Request, f: Snapshot)
    ensures Rules(c, p, f).score == RuleScore(c, p, f) && Rules(c, p, f).verdict == RuleVerdict(c, RuleScore(c, p, f))
  {
  }

  ghost predicate Reported(c: Settings, p: Request, f: Snapshot, k: nat, r: string)
    requires k <= |SIGNALS|
  {
    exists i | 0 <= i < k :: Raised(c, p, f, SIGNALS[i]) && ReasonFor(SIGNALS[i]) == r
  }

  lemma {:induction false} ReasonsAreRaised(c: Settings, p: Request, f: Snapshot, k: nat)
    requires k <= |SIGNALS|
    ensures forall r :: r in RaisedReasons(c, p, f, k) <==> Reported(c, p, f, k, r)
    ensures RaisedReasons(c, p, f, k) == [] <==> RaisedPoints(c, p, f, k) == 0
    decreases k
  {
    if k > 0 {
      ReasonsAreRaised(c, p, f, k - 1);
      var s := SIGNALS[k - 1];
      forall r
        ensures Reported(c, p, f, k, r) <==> Reported(c, p, f, k - 1, r) || (Raised(c, p, f, s) && r == ReasonFor(s))
      {
        if Reported(c, p, f, k - 1, r) {
          var i :| 0 <= i < k - 1 && Raised(c, p, f, SIGNALS[i]) && ReasonFor(SIGNALS[i]) == r;
        }
      }
      hide Reported, Raised, ReasonFor;
      assert Points(s) > 0;
    }
  }

  /** The reasons name exactly the raised signals; the placeholder stands alone, exactly when the score is 0. */
  lemma ReasonsExplain(c: Settings, p: Request, f: Snapshot, s: Signal)
    ensures ReasonFor(s) in Rules(c, p, f).reasons <==> Raised(c, p, f, s)
    ensures Rules(c, p, f).score == 0 <==> Rules(c, p, f).reasons == [NO_SIGNALS]
  {
    ReasonsAreRaised(c, p, f, |SIGNALS|);
    hide RaisedReasons, RaisedPoints, Raised;
    assert exists i | 0 <= i < |SIGNALS| :: SIGNALS[i] == s by {
      assert SIGNALS[0] == ExtremeAmount && SIGNALS[1] == HighAmount && SIGNALS[2] == HighVelocity &&
          SIGNALS[3] == NewDevice
          && SIGNALS[4] == CrossBorder && SIGNALS[5] == RiskyMerchant && SIGNALS[6] == HighRiskCountry;
    }
    forall t: Signal | ReasonFor(t) == ReasonFor(s) ensures t == s { ReasonsDiffer(s, t); }
    ReasonsDiffer(s, s);
    var rs := RaisedReasons(c, p, f, |SIGNALS|);
    if rs == [NO_SIGNALS] {
      assert Reported(c, p, f, |SIGNALS|, NO_SIGNALS);
      var i :| 0 <= i < |SIGNALS| && ReasonFor(SIGNALS[i]) == NO_SIGNALS;
      ReasonsDiffer(SIGNALS[i], SIGNALS[i]);
    }
  }

  lemma ReasonsDiffer(s: Signal, t: Signal)
    requires ReasonFor(s) == ReasonFor(t)
    ensures s == t && ReasonFor(s) != NO_SIGNALS
  {
    var a, b := ReasonFor(s), ReasonFor(t);
    assert |a| == |b| && |a| > 4 && a[0] == b[0] && a[1] == b[1] && a[2] == b[2] && a[3] == b[3] && a[4] == b[4];
  }

  // ---------------------------------------------------------------- source events

  /** pydantic strips white space from every text of the payload. */
  function Strip(p: Request): Request {
    Request(TrimSpace(p.customerId), TrimSpace(p.merchantId), TrimSpace(p.deviceId), p.amountMinor,
        TrimSpace(p.currency), TrimSpace(p.country))
  }

  /** parse_payment_created on a record value. */
  function ParsePayment(v: PayValue): (r: Option<OutboxEvent>)
    ensures r.Some? ==> r.value.payload.Created?
  {
    if v.PayGarbage? then None
    else
      var e := v.created;
      if && e.eventType.PaymentsCreated? && e.schemaVersion == 1 && e.payload.Created?
         && e.aggregateId == e.payload.paymentId && ValidRequest(Strip(e.payload.request))
      then Some(e.(payload := e.payload.(request := Strip(e.payload.request))))
      else None
  }

  /** A parsed source event. */
  predicate Source(e: OutboxEvent) {
    && e.eventType.PaymentsCreated? && e.schemaVersion == 1 && e.payload.Created? &&
        e.aggregateId == e.payload.paymentId
    && ValidRequest(e.payload.request)
  }

  lemma ParsedIsSource(v: PayValue)
    ensures ParsePayment(v).Some? ==> Source(ParsePayment(v).value)
  {
    hide ValidRequest, TrimSpace;
  }

  /** The risk service reads an event announcing a normalized valid request exactly as it was written. */
  lemma AnnouncedEventParses(e: OutboxEvent)
    requires Source(e) && Normalize(e.payload.request) == e.payload.request
    ensures ParsePayment(PayEvent(e)) == Some(e)
  {
    var r := e.payload.request;
    TrimSpaceTrims(r.currency);
    TrimSpaceTrims(r.country);
    CodeIsTrimmed(r.currency, 3);
    CodeIsTrimmed(r.country, 2);
    hide ValidRequest, TrimSpace, ToUpper, Trimmed;
    assert Strip(r) == r;
  }

  lemma CodeIsTrimmed(s: string, n: nat)
    requires UpperAscii(s, n)
    ensures Trimmed(s)
  {
  }

  // ---------------------------------------------------------------- one decision

  const FALLBACK := Scored(0.0, 0, 0.5, "ml-unavailable-review-v1")
  const RULE_VERSION := "rules-v1"

  function Used(m: Model): Model { if m.Unavailable? then FALLBACK else m }

  predicate ModelFlags(m: Model) { Used(m).probability >= Used(m).threshold }

  function Combined(rules: Verdict, m: Model): Verdict {
    if rules.Block? then Block else if m.Unavailable? || rules.Review? || ModelFlags(m) then Review else Allow
  }

  function Signals(reasons: seq<string>): seq<string> {
    if reasons == [] then [] else (if reasons[0] == NO_SIGNALS then [] else [reasons[0]]) + Signals(reasons[1..])
  }

  function AllReasons(rules: seq<string>, m: Model): seq<string> {
    var flagged := if ModelFlags(m) then ["ML_HIGH_RISK"] else [];
    var missing := if m.Unavailable? then ["ML_UNAVAILABLE"] else [];
    var reasons := Signals(rules) + flagged + missing;
    if reasons == [] then [NO_SIGNALS] else reasons
  }

  /** round(x, 6): to the nearest millionth, ties to the even one. */
  function Round6(x: real): real {
    var scaled := x * 1000000.0;
    var low := scaled.Floor;
    var rest := scaled - low as real;
    (if rest < 0.5 || (rest == 0.5 && low % 2 == 0) then low else low + 1) as real / 1000000.0
  }

  /** The decision envelope. Its id is named after the source event and the model version as loaded; the
      version inside the payload is stripped. The fallback score is the review threshold. */
  function Decision(c: Settings, e: OutboxEvent, f: Snapshot, m: Model): Event
    requires e.payload.Created?
  {
    var rules, model, id := Rules(c, e.payload.request, f), Used(m), V5(Used(m).version, e.id);
    var score := Max(rules.score, model.score);
    Event(id, e.aggregateId, 2, f.decisionAt, e.traceId,
      Payload(id, e.payload.paymentId, e.id, Combined(rules.verdict, m),
        if m.Unavailable? then Max(score, c.reviewThreshold) else score, rules.score, model.score,
        Round6(model.probability), model.threshold, AllReasons(rules.reasons, m),
        RULE_VERSION, TrimSpace(model.version), f.decisionAt, f))
  }

  /** The producer's bound on the version label: 1-255 characters; a longer one raises. */
  predicate LabelOk(m: Model) { 1 <= |TrimSpace(Used(m).version)| <= 255 }

  /** Fail safe: the model can only raise a rules verdict to REVIEW, and without it nothing is allowed. */
  lemma Policy(c: Settings, e: OutboxEvent, f: Snapshot, m: Model)
    requires ValidSettings(c) && Source(e) && ValidModel(m)
    ensures var rules, p := Rules(c, e.payload.request, f), Decision(c, e, f, m).payload;
            && (p.verdict.Block? <==> rules.score >= c.blockThreshold)
            && (p.verdict.Allow? <==> rules.score < c.reviewThreshold && m.Scored? && m.probability < m.threshold)
            && AsSevere(rules.verdict, p.verdict)
            && p.riskScore >= rules.score && p.riskScore >= p.modelScore
            && (m.Unavailable? ==> p.riskScore >= c.reviewThreshold && "ML_UNAVAILABLE" in p.reasons)
  {
    hide RuleScore, AllReasons, Signals;
    RulesShape(c, e.payload.request, f);
    assert m.Unavailable? ==> "ML_UNAVAILABLE" in AllReasons(Rules(c, e.payload.request, f).reasons, m) by {
      UnavailableIsTold(Rules(c, e.payload.request, f).reasons);
    }
  }

  lemma UnavailableIsTold(rules: seq<string>)
    ensures "ML_UNAVAILABLE" in AllReasons(rules, Unavailable)
  {
    var pre := Signals(rules) + (if ModelFlags(Unavailable) then ["ML_HIGH_RISK"] else []);
    var all := pre + ["ML_UNAVAILABLE"];
    assert all[|pre|] == "ML_UNAVAILABLE";
    assert AllReasons(rules, Unavailable) == all;
  }

  // ---------------------------------------------------------------- producer output against the consumer's contract

  predicate SnapshotOk(f: Snapshot) { f.velocity >= 1 && ValidCountry(f.baselineCountry) && f.decisionAt != 0 }

  lemma RoundInUnit(x: real)
    requires 0.0 <= x <= 1.0
    ensures 0.0 <= Round6(x) <= 1.0
  {
  }

  lemma RuleScoreBounds(c: Settings, p: Request, f: Snapshot)
    ensures ValidScore(RuleScore(c, p, f))
  {
  }

  predicate Code(s: string) { s != "" && |s| <= 100 && forall i | 0 <= i < |s| :: ReasonChar(s[i]) }

  lemma CodesAreReasons(s: string)
    requires Code(s)
    ensures ValidReason(s) && Trimmed(s)
  {
    forall c | c in s ensures c as int < 128 { }
    Utf8Length(s);
    assert ReasonChar(s[0]) && ReasonChar(s[|s| - 1]);
  }

  lemma {:induction false} RaisedAreCodes(c: Settings, p: Request, f: Snapshot, k: nat)
    requires k <= |SIGNALS|
    ensures forall r | r in RaisedReasons(c, p, f, k) :: Code(r)
    decreases k
  {
    if k > 0 {
      RaisedAreCodes(c, p, f, k - 1);
      SignalIsCode(SIGNALS[k - 1]);
      hide ReasonFor, Raised, Code;
    }
  }

  lemma SignalIsCode(s: Signal)
    ensures Code(ReasonFor(s))
  {
  }

  lemma {:induction false} SignalsAreCodes(reasons: seq<string>)
    requires forall r | r in reasons :: Code(r)
    ensures forall r | r in Signals(reasons) :: Code(r)
  {
    hide Code;
    if reasons != [] {
      assert reasons[0] in reasons;
      forall r | r in reasons[1..] ensures Code(r) { assert r in reasons; }
      SignalsAreCodes(reasons[1..]);
    }
  }

  lemma FixedCodes()
    ensures Code(NO_SIGNALS) && Code("ML_HIGH_RISK") && Code("ML_UNAVAILABLE")
  {
  }

  lemma ReasonsAreCodes(c: Settings, p: Request, f: Snapshot, m: Model)
    ensures var rs := AllReasons(Rules(c, p, f).reasons, m); rs != [] && forall r | r in rs :: Code(r)
  {
    RaisedAreCodes(c, p, f, |SIGNALS|);
    FixedCodes();
    hide Code;
    SignalsAreCodes(Rules(c, p, f).reasons);
    hide RaisedReasons, RuleScore, Signals;
  }

  /** The texts of a decision, and the ids and numbers around them. */
  lemma DecisionParts(c: Settings, e: OutboxEvent, f: Snapshot, m: Model)
    requires ValidSettings(c) && Source(e) && SnapshotOk(f) && ValidModel(m)
    ensures var p := Decision(c, e, f, m).payload;
            && ValidScore(p.riskScore) && ValidScore(p.ruleScore) && ValidScore(p.modelScore)
            && 0.0 <= p.modelProbability <= 1.0 && 0.0 < p.reviewThreshold < 1.0
            && p.reasons != [] && forall i | 0 <= i < |p.reasons| :: Code(p.reasons[i])
  {
    ReasonsAreCodes(c, e.payload.request, f, m);
    RuleScoreBounds(c, e.payload.request, f);
    RoundInUnit(Used(m).probability);
    hide RuleScore, AllReasons, Round6, Code, ValidRequest, ValidCountry, TrimSpace, RaisedReasons;
  }

  /** Every decision the producer can build satisfies the consumer's contract, with one exception: the
      consumer bounds the version label by 255 bytes, the producer by 255 characters. */
  lemma ProducerMeetsContract(c: Settings, e: OutboxEvent, f: Snapshot, m: Model)
    requires ValidSettings(c) && Source(e) && SnapshotOk(f) && ValidModel(m)
    ensures ContractOk(Decision(c, e, f, m)) <==> |Utf8(TrimSpace(Used(m).version))| <= 255
    ensures Stripped(Decision(c, e, f, m)) && MadeFor(Decision(c, e, f, m), e)
  {
    hide Decision, SnapshotOk, Utf8, TrimSpace, ContractOk, ValidRequest;
    DecisionHeader(c, e, f, m);
    DecisionReasons(c, e, f, m);
    LabelNotBlank(m);
    TrimSpaceTrims(Used(m).version);
    RuleLabel();
    CountryTrimmed(f);
    HeaderAndReasons(Decision(c, e, f, m));
  }

  /** The contract without the clauses on reasons and model version. */
  predicate ContractHeader(e: Event) {
    var p := e.payload;
    && e.schemaVersion == 2
    && e.eventId == p.decisionId && e.aggregateId == p.paymentId
    && e.occurredAt != 0 && e.occurredAt == p.decisionAt && p.decisionAt == p.features.decisionAt
    && ValidScore(p.riskScore) && ValidScore(p.ruleScore) && ValidScore(p.modelScore)
    && 0.0 <= p.modelProbability <= 1.0 && 0.0 < p.reviewThreshold < 1.0
    && VersionFits(p.ruleVersion) && p.features.velocity >= 1 && ValidCountry(p.features.baselineCountry)
  }

  lemma HeaderAndReasons(d: Event)
    requires ContractHeader(d) && d.payload.reasons != [] && forall i | 0 <= i < |d.payload.reasons| ::
        ValidReason(d.payload.reasons[i])
    ensures ContractOk(d) <==> VersionFits(d.payload.modelVersion)
  {
    hide ValidReason, VersionFits, ValidCountry;
  }

  lemma DecisionHeader(c: Settings, e: OutboxEvent, f: Snapshot, m: Model)
    requires ValidSettings(c) && Source(e) && SnapshotOk(f) && ValidModel(m)
    ensures var d := Decision(c, e, f, m);
            && ContractHeader(d) && Identified(d, e) && d.payload.features == f
            && d.payload.modelVersion == TrimSpace(Used(m).version) && d.payload.ruleVersion == RULE_VERSION
  {
    DecisionParts(c, e, f, m);
    RuleLabel();
    hide Rules, AllReasons, Round6, ValidRequest, TrimSpace, Combined, ValidCountry, VersionFits, Code;
  }

  lemma DecisionReasons(c: Settings, e: OutboxEvent, f: Snapshot, m: Model)
    requires ValidSettings(c) && Source(e) && SnapshotOk(f) && ValidModel(m)
    ensures var rs := Decision(c, e, f, m).payload.reasons;
            rs != [] && forall i | 0 <= i < |rs| :: ValidReason(rs[i]) && Trimmed(rs[i])
  {
    DecisionParts(c, e, f, m);
    hide Decision, SnapshotOk, Source, Code, ValidReason, Trimmed;
    var rs := Decision(c, e, f, m).payload.reasons;
    forall i | 0 <= i < |rs| ensures ValidReason(rs[i]) && Trimmed(rs[i]) { CodesAreReasons(rs[i]); }
  }

  lemma CountryTrimmed(f: Snapshot)
    requires ValidCountry(f.baselineCountry)
    ensures Trimmed(f.baselineCountry)
  {
  }

  lemma LabelNotBlank(m: Model)
    requires ValidModel(m)
    ensures TrimSpace(Used(m).version) != ""
  {
    if m.Unavailable? {
      TrimSpaceTrims(FALLBACK.version);
      hide TrimSpace;
      assert Trimmed(FALLBACK.version);
    }
  }

  lemma RuleLabel()
    ensures VersionFits(RULE_VERSION) && Trimmed(RULE_VERSION)
  {
    Utf8Length(RULE_VERSION);
    hide Utf8;
  }

  /** The fallback's own label always fits. */
  lemma FallbackFits()
    ensures |Utf8(TrimSpace(Used(Unavailable).version))| <= 255 && LabelOk(Unavailable)
  {
    hide Utf8, TrimSpace;
    FallbackLabel();
    TrimSpaceTrims(FALLBACK.version);
  }

  lemma FallbackLabel()
    ensures Trimmed(FALLBACK.version) && |FALLBACK.version| == |Utf8(FALLBACK.version)| == 24
  {
    hide Utf8;
    var version := FALLBACK.version;
    assert |version| == 24 && forall i | 0 <= i < 24 :: version[i] as int < 128;
    Utf8Length(version);
  }

  /** The version label has at most 255 bytes. */
  predicate LabelFits(d: Event) { |Utf8(d.payload.modelVersion)| <= 255 }

  /** The decision is named and addressed after the source event. */
  predicate Identified(d: Event, e: OutboxEvent) {
    && d.eventId == d.payload.decisionId && d.payload.decisionId.V5? && d.payload.decisionId.source == e.id
    && d.payload.sourceEventId == e.id && d.payload.paymentId == e.aggregateId && d.aggregateId == e.aggregateId
  }

  /** A decision made for a source event; its label alone decides whether it meets the consumer's contract. */
  predicate MadeFor(d: Event, e: OutboxEvent) { Identified(d, e) && (ContractOk(d) <==> LabelFits(d)) }

  lemma DecisionSource(c: Settings, e: OutboxEvent, f: Snapshot, m: Model)
    requires e.payload.Created?
    ensures Decision(c, e, f, m).payload.sourceEventId == e.id
  {
    hide Rules, AllReasons, Round6, TrimSpace, Combined;
  }

  lemma DecisionMadeFor(c: Settings, e: OutboxEvent, f: Snapshot, m: Model)
    requires ValidSettings(c) && Source(e) && SnapshotOk(f) && ValidModel(m)
    ensures MadeFor(Decision(c, e, f, m), e)
  {
    hide Decision, Source, SnapshotOk, ValidModel, MadeFor, ContractOk, Stripped, Utf8, TrimSpace;
    ProducerMeetsContract(c, e, f, m);
  }

  /** The gap is real: 128 two-byte characters pass the producer and fail the consumer. */
  lemma {:induction false} WideLabel(n: nat)
    ensures var s := seq(n, _ => 0xE9 as char); |Utf8(s)| == 2 * n && Trimmed(s)
  {
    var s := seq(n, _ => 0xE9 as char);
    if n > 0 {
      WideLabel(n - 1);
      assert s[1..] == seq(n - 1, _ => 0xE9 as char);
      assert |EncodeChar(s[0])| == 2;
    }
  }

  lemma AcceptedByProducerOnly(c: Settings, e: OutboxEvent, f: Snapshot)
    requires ValidSettings(c) && Source(e) && SnapshotOk(f)
    ensures exists m :: ValidModel(m) && LabelOk(m) && ParseEvent(Json(Decision(c, e, f, m))).None?
  {
    var wide := seq(128, _ => 0xE9 as char);
    var m := Scored(0.5, 50, 0.5, wide);
    WideLabel(128);
    TrimSpaceTrims(wide);
    hide TrimSpace, Utf8, Source;
    assert ValidModel(m);
    hide Decision, ContractOk;
    ProducerMeetsContract(c, e, f, m);
  }

  // ---------------------------------------------------------------- decision identity

  const NAME_PREFIX := "riskflow:risk.decision.completed:v2:"

  /** The name uuid5 hashes. */
  function DecisionName(version: string, source: string): string { NAME_PREFIX + version + ":" + source }

  lemma NamePrefix(version: string, source: string)
    ensures DecisionName(version, source)[..36] == "riskflow:risk.decision.completed:v2:"
  {
    assert |NAME_PREFIX| == 36;
  }

  /** A decision name determines the model version and the source event, whatever the version contains. */
  lemma DecisionNameInjective(version: string, source: string, version': string, source': string)
    requires CanonicalUuid(source) && CanonicalUuid(source')
    requires DecisionName(version, source) == DecisionName(version', source')
    ensures version == version' && source == source'
    ensures DecisionName(version, source)[..36] == "riskflow:risk.decision.completed:v2:"
  {
    NamePrefix(version, source);
    hide NAME_PREFIX;
    var n, k := DecisionName(version, source), |NAME_PREFIX|;
    assert |source| == |source'| == 36;
    assert n[k..|n| - 37] == version && n[|n| - 36..] == source;
    assert n[k..|n| - 37] == version' && n[|n| - 36..] == source';
  }

  // ---------------------------------------------------------------- the processor

  /** Times are microseconds; scores in the sorted set are milliseconds. */
  function Observation(e: OutboxEvent, now: int): Obs
    requires e.payload.Created?
  {
    var p := e.payload.request;
    Obs(e.id, e.payload.paymentId, p.customerId, p.deviceId, p.country, e.occurredAt / 1000, now)
  }

  /** DecisionProcessor.process; None when the envelope does not validate, which raises before the save. */
  function Processed(r: Redis, window: int, c: Settings, e: OutboxEvent, now: int, m: Model): (Redis, Option<Event>)
    requires e.payload.Created?
  {
    if LoadDecision(r, e.id).Some? then (r, LoadDecision(r, e.id))
    else
      var (observed, f) := Observe(r, window, Observation(e, now));
      if !LabelOk(m) then (observed, None)
      else var (saved, d) := SaveDecision(observed, Decision(c, e, f, m)); (saved, Some(d))
  }

  method Process(store: FeatureStore, c: Settings, e: OutboxEvent, now: int, m: Model) returns (decision: Option<Event>)
    requires ValidSettings(c) && Source(e)
    modifies store
    ensures (store.View(), decision) == Processed(old(store.View()), store.window, c, e, now, m)
  {
    hide Rules, Round6, TrimSpace, ValidRequest, Observe, Signals;
    var cached := store.Load(e.id);
    if cached.Some? { return cached; }
    var f := store.ObserveEvent(Observation(e, now));
    var rules := Evaluate(c, e.payload.request, f);
    var model := Used(m);
    var modelUnavailable := m.Unavailable?;
    var modelRequiresReview := model.probability >= model.threshold;

    var verdict;
    if rules.verdict == Block { verdict := Block; }
    else if modelUnavailable || rules.verdict == Review || modelRequiresReview { verdict := Review; }
    else { verdict := Allow; }

    var reasons := ReasonList(rules.reasons, m);
    var id := V5(model.version, e.id);
    var riskScore := Max(rules.score, model.score);
    if modelUnavailable { riskScore := Max(riskScore, c.reviewThreshold); }
    if !LabelOk(m) { return None; }
    var payload := Payload(id, e.payload.paymentId, e.id, verdict, riskScore, rules.score, model.score,
      Round6(model.probability), model.threshold, reasons, RULE_VERSION, TrimSpace(model.version), f.decisionAt, f);
    var winner := store.Save(Event(id, e.aggregateId, 2, f.decisionAt, e.traceId, payload));
    return Some(winner);
  }

  /** The reasons list: the rules' signals, then the model's. */
  method ReasonList(rules: seq<string>, m: Model) returns (reasons: seq<string>)
    ensures reasons == AllReasons(rules, m)
  {
    hide AllReasons;
    reasons := [];
    for i := 0 to |rules|
      invariant reasons + Signals(rules[i..]) == Signals(rules)
    {
      NextReason(reasons, rules, i);
      if rules[i] != NO_SIGNALS { reasons := reasons + [rules[i]]; }
    }
    assert rules[|rules|..] == [];
    assert reasons == Signals(rules);
    hide Signals;
    if ModelFlags(m) { reasons := reasons + ["ML_HIGH_RISK"]; }
    if m.Unavailable? { reasons := reasons + ["ML_UNAVAILABLE"]; }
    if reasons == [] { reasons := [NO_SIGNALS]; }
    ReasonsCollected(rules, m);
  }

  lemma NextReason(before: seq<string>, rules: seq<string>, i: nat)
    requires i < |rules|
    ensures before + Signals(rules[i..])
              == (if rules[i] == NO_SIGNALS then before else before + [rules[i]]) + Signals(rules[i + 1..])
  {
    assert rules[i..][1..] == rules[i + 1..];
  }

  lemma ReasonsCollected(rules: seq<string>, m: Model)
    ensures var signals := Signals(rules);
            var flagged := if ModelFlags(m) then signals + ["ML_HIGH_RISK"] else signals;
            var told := if m.Unavailable? then flagged + ["ML_UNAVAILABLE"] else flagged;
            AllReasons(rules, m) == if told == [] then [NO_SIGNALS] else told
  {
    hide Signals;
    var signals := Signals(rules);
    assert signals + [] + [] == signals;
  }

  /** Once a source event has a cached decision, the clock, the model and the settings no longer matter:
      processing it again returns that decision and changes nothing. */
  lemma ProcessedTwice(r: Redis, window: int, c: Settings, e: OutboxEvent, now: int, m: Model, now': int, m': Model)
    requires e.payload.Created? && Processed(r, window, c, e, now, m).1.Some?
    requires forall s | s in r.decisions :: r.decisions[s].payload.sourceEventId == s
    ensures var (r', d) := Processed(r, window, c, e, now, m);
            Processed(r', window, c, e, now', m') == (r', d) && d.value.payload.sourceEventId == e.id
  {
    hide Rules, AllReasons, Round6, TrimSpace, Combined;
  }
}
