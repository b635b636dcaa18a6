/** What a decision says, told from the payment, the snapshot and the model alone: scores, verdict, reasons,
    identity and times. */
module DecisionContents {
  import opened Text
  import opened Domain
  import opened Validation
  import opened Features
  import opened Scoring

  // ---------------------------------------------------------------- scores

  function When(b: bool, points: int): int { if b then points else 0 }

  /** The points of a payment: one amount sign at most, five more that may each add theirs, 100 at the most. */
  lemma RulePoints(c: Settings, p: Request, f: Snapshot)
    requires ValidSettings(c)
    ensures var sum := When(p.amountMinor >= c.extremeAmount, 70)
                       + When(c.highAmount <= p.amountMinor < c.extremeAmount, 40) + When(f.velocity >= 5, 40)
                       + When(f.newDevice, 15) + When(f.crossBorder, 25)
                       + When(p.merchantId in c.riskyMerchants, 30) + When(p.country in c.highRiskCountries, 30);
            Rules(c, p, f).score == if sum < 100 then sum else 100
    ensures Rules(c, p, f).verdict ==
              if Rules(c, p, f).score >= c.blockThreshold then Block
              else if Rules(c, p, f).score >= c.reviewThreshold then Review else Allow
  {
    hide RaisedReasons, ReasonFor;
    assert RaisedPoints(c, p, f, 0) == 0;
    assert RaisedPoints(c, p, f, 1) == When(p.amountMinor >= c.extremeAmount, 70);
    assert RaisedPoints(c, p, f, 2) ==
        RaisedPoints(c, p, f, 1) + When(c.highAmount <= p.amountMinor < c.extremeAmount, 40);
    assert RaisedPoints(c, p, f, 3) == RaisedPoints(c, p, f, 2) + When(f.velocity >= 5, 40);
    assert RaisedPoints(c, p, f, 4) == RaisedPoints(c, p, f, 3) + When(f.newDevice, 15);
    assert RaisedPoints(c, p, f, 5) == RaisedPoints(c, p, f, 4) + When(f.crossBorder, 25);
    assert RaisedPoints(c, p, f, 6) == RaisedPoints(c, p, f, 5) + When(p.merchantId in c.riskyMerchants, 30);
    assert RaisedPoints(c, p, f, 7) == RaisedPoints(c, p, f, 6) + When(p.country in c.highRiskCountries, 30);
  }

  /** With a model the risk score is the larger of the two scores; without one it is the larger of the rule
      score and the review threshold. Both scores are reported as they were given. */
  lemma Scores(c: Settings, e: OutboxEvent, f: Snapshot, m: Model)
    requires ValidSettings(c) && Source(e) && ValidModel(m)
    ensures var p, rules := Decision(c, e, f, m).payload, Rules(c, e.payload.request, f).score;
            && p.ruleScore == rules && p.modelScore == (if m.Scored? then m.score else 0)
            && p.riskScore >= rules
            && (m.Scored? ==> p.riskScore >= m.score && (p.riskScore == rules || p.riskScore == m.score))
            && (m.Unavailable? ==>
                  p.riskScore >= c.reviewThreshold && (p.riskScore == rules || p.riskScore == c.reviewThreshold))
  {
    RuleScoreBounds(c, e.payload.request, f);
    RulesShape(c, e.payload.request, f);
    hide Rules, RuleScore, AllReasons, Round6, TrimSpace, Combined;
  }

  /** A probability is rounded to the nearest millionth, and to the even one of two that are equally near. */
  lemma RoundsToMillionths(x: real) returns (n: int)
    ensures Round6(x) == n as real / 1000000.0
    ensures -0.5 <= n as real - x * 1000000.0 <= 0.5
    ensures n as real - x * 1000000.0 == 0.5 || n as real - x * 1000000.0 == -0.5 ==> n % 2 == 0
  {
    var scaled := x * 1000000.0;
    var low := scaled.Floor;
    var rest := scaled - low as real;
    n := if rest < 0.5 || (rest == 0.5 && low % 2 == 0) then low else low + 1;
    assert (low + 1) as real == low as real + 1.0;
  }

  // ---------------------------------------------------------------- reasons

  /** The text is among the rules' or the model's reasons, wherever it stands in the list. */
  lemma {:induction false} SignalsKeep(reasons: seq<string>, r: string)
    requires r != NO_SIGNALS
    ensures r in Signals(reasons) <==> r in reasons
  {
    if reasons != [] {
      SignalsKeep(reasons[1..], r);
      assert r in reasons <==> r == reasons[0] || r in reasons[1..];
    }
  }

  lemma {:induction false} SignalsDrop(reasons: seq<string>)
    ensures NO_SIGNALS !in Signals(reasons)
    ensures Signals(reasons) == [] <==> forall r | r in reasons :: r == NO_SIGNALS
  {
    if reasons != [] {
      SignalsDrop(reasons[1..]);
      assert forall r | r in reasons :: r == reasons[0] || r in reasons[1..];
      assert reasons[0] in reasons && forall r | r in reasons[1..] :: r in reasons;
      if reasons[0] != NO_SIGNALS { assert reasons[0] in Signals(reasons); }
    }
  }

  /** The sign was seen on the payment. */
  predicate Seen(c: Settings, p: Request, f: Snapshot, reason: string) {
    || (reason == "EXTREME_AMOUNT" && p.amountMinor >= c.extremeAmount)
    || (reason == "HIGH_AMOUNT" && c.highAmount <= p.amountMinor < c.extremeAmount)
    || (reason == "HIGH_VELOCITY_5M" && f.velocity >= 5)
    || (reason == "NEW_DEVICE" && f.newDevice)
    || (reason == "CROSS_BORDER" && f.crossBorder)
    || (reason == "RISKY_MERCHANT" && p.merchantId in c.riskyMerchants)
    || (reason == "HIGH_RISK_COUNTRY" && p.country in c.highRiskCountries)
  }

  lemma SeenIsReported(c: Settings, p: Request, f: Snapshot, reason: string)
    ensures Seen(c, p, f, reason) <==> Reported(c, p, f, |SIGNALS|, reason)
  {
    if Seen(c, p, f, reason) { SeenHasSignal(c, p, f, reason); }
    if Reported(c, p, f, |SIGNALS|, reason) {
      var i :| 0 <= i < |SIGNALS| && Raised(c, p, f, SIGNALS[i]) && ReasonFor(SIGNALS[i]) == reason;
      RaisedIsSeen(c, p, f, SIGNALS[i]);
    }
  }

  lemma RaisedIsSeen(c: Settings, p: Request, f: Snapshot, s: Signal)
    requires Raised(c, p, f, s)
    ensures Seen(c, p, f, ReasonFor(s))
  {
  }

  lemma SeenHasSignal(c: Settings, p: Request, f: Snapshot, reason: string)
    requires Seen(c, p, f, reason)
    ensures Reported(c, p, f, |SIGNALS|, reason)
  {
    var s := if reason == "EXTREME_AMOUNT" then 0 else if reason == "HIGH_AMOUNT" then 1
             else if reason == "HIGH_VELOCITY_5M" then 2 else if reason == "NEW_DEVICE" then 3
             else if reason == "CROSS_BORDER" then 4 else if reason == "RISKY_MERCHANT" then 5 else 6;
    TextsDiffer();
    assert ReasonFor(SIGNALS[s]) == reason && Raised(c, p, f, SIGNALS[s]);
  }

  lemma TextsDiffer()
    ensures forall s, t: Signal | ReasonFor(s) == ReasonFor(t) :: s == t
  {
    forall s, t: Signal | ReasonFor(s) == ReasonFor(t) ensures s == t { ReasonsDiffer(s, t); }
  }

  /** The reasons of a decision: a rule's text exactly when its sign was seen, ML_HIGH_RISK exactly when the
      model's probability reaches its threshold, ML_UNAVAILABLE exactly without a model, and the placeholder
      exactly when there is nothing else to say. No other text occurs. */
  lemma ReasonsExactly(c: Settings, e: OutboxEvent, f: Snapshot, m: Model, reason: string)
    requires e.payload.Created?
    ensures var p := Decision(c, e, f, m).payload;
            reason in p.reasons <==>
              || Seen(c, e.payload.request, f, reason)
              || (reason == "ML_HIGH_RISK" && m.Scored? && m.probability >= m.threshold)
              || (reason == "ML_UNAVAILABLE" && m.Unavailable?)
              || (reason == "NO_RISK_SIGNALS" && p.reasons == ["NO_RISK_SIGNALS"])
  {
    var p := e.payload.request;
    var rules := Rules(c, p, f).reasons;
    RuleReasons(c, p, f, reason);
    SignalsDrop(rules);
    if reason != NO_SIGNALS { SignalsKeep(rules, reason); }
    hide Rules, RuleScore, Signals, Seen, Round6, TrimSpace, Combined;
    CollectedReasons(Signals(rules), m, reason);
  }

  lemma RuleReasons(c: Settings, p: Request, f: Snapshot, reason: string)
    ensures reason != NO_SIGNALS ==> (reason in Rules(c, p, f).reasons <==> Seen(c, p, f, reason))
    ensures !Seen(c, p, f, NO_SIGNALS)
  {
    ReasonsAreRaised(c, p, f, |SIGNALS|);
    SeenIsReported(c, p, f, reason);
    hide Reported, Seen, RaisedReasons;
    PlaceholderUnseen(c, p, f);
  }

  lemma PlaceholderUnseen(c: Settings, p: Request, f: Snapshot)
    ensures !Seen(c, p, f, NO_SIGNALS)
  {
  }

  lemma CollectedReasons(signals: seq<string>, m: Model, reason: string)
    ensures var flagged := if ModelFlags(m) then ["ML_HIGH_RISK"] else [];
            var missing := if m.Unavailable? then ["ML_UNAVAILABLE"] else [];
            reason in signals + flagged + missing <==>
              || reason in signals || (reason == "ML_HIGH_RISK" && m.Scored? && m.probability >= m.threshold)
              || (reason == "ML_UNAVAILABLE" && m.Unavailable?)
  {
  }

  function Said(b: bool, reason: string): seq<string> { if b then [reason] else [] }

  /** The whole list in its order: the rules' texts, then the model's; the placeholder alone when there is none. */
  lemma ReasonsInOrder(c: Settings, e: OutboxEvent, f: Snapshot, m: Model)
    requires e.payload.Created?
    ensures var p := e.payload.request;
            var told := Said(p.amountMinor >= c.extremeAmount, "EXTREME_AMOUNT")
                        + Said(c.highAmount <= p.amountMinor < c.extremeAmount, "HIGH_AMOUNT")
                        + Said(f.velocity >= 5, "HIGH_VELOCITY_5M") + Said(f.newDevice, "NEW_DEVICE")
                        + Said(f.crossBorder, "CROSS_BORDER")
                        + Said(p.merchantId in c.riskyMerchants, "RISKY_MERCHANT")
                        + Said(p.country in c.highRiskCountries, "HIGH_RISK_COUNTRY")
                        + Said(m.Scored? && m.probability >= m.threshold, "ML_HIGH_RISK")
                        + Said(m.Unavailable?, "ML_UNAVAILABLE");
            Decision(c, e, f, m).payload.reasons == if told == [] then ["NO_RISK_SIGNALS"] else told
  {
    var p := e.payload.request;
    RaisedInOrder(c, p, f);
    var raised := RaisedReasons(c, p, f, |SIGNALS|);
    RuleTexts(c, p, f);
    if raised != [] { NothingDropped(raised); }
    assert Signals(Rules(c, p, f).reasons) == raised;
    hide RaisedReasons, Signals, Said, RuleScore, Round6, TrimSpace, Combined;
    ModelTexts(m);
  }

  lemma ModelTexts(m: Model)
    ensures Said(m.Scored? && m.probability >= m.threshold, "ML_HIGH_RISK")
              == if ModelFlags(m) then ["ML_HIGH_RISK"] else []
    ensures Said(m.Unavailable?, "ML_UNAVAILABLE") == if m.Unavailable? then ["ML_UNAVAILABLE"] else []
  {
  }

  lemma RaisedInOrder(c: Settings, p: Request, f: Snapshot)
    ensures RaisedReasons(c, p, f, |SIGNALS|)
              == Said(p.amountMinor >= c.extremeAmount, "EXTREME_AMOUNT")
                 + Said(c.highAmount <= p.amountMinor < c.extremeAmount, "HIGH_AMOUNT")
                 + Said(f.velocity >= 5, "HIGH_VELOCITY_5M") + Said(f.newDevice, "NEW_DEVICE")
                 + Said(f.crossBorder, "CROSS_BORDER")
                 + Said(p.merchantId in c.riskyMerchants, "RISKY_MERCHANT")
                 + Said(p.country in c.highRiskCountries, "HIGH_RISK_COUNTRY")
  {
    assert RaisedReasons(c, p, f, 0) == [];
    assert RaisedReasons(c, p, f, 1) == Said(p.amountMinor >= c.extremeAmount, "EXTREME_AMOUNT");
    assert RaisedReasons(c, p, f, 2) ==
        RaisedReasons(c, p, f, 1) + Said(c.highAmount <= p.amountMinor < c.extremeAmount, "HIGH_AMOUNT");
    assert RaisedReasons(c, p, f, 3) == RaisedReasons(c, p, f, 2) + Said(f.velocity >= 5, "HIGH_VELOCITY_5M");
    assert RaisedReasons(c, p, f, 4) == RaisedReasons(c, p, f, 3) + Said(f.newDevice, "NEW_DEVICE");
    assert RaisedReasons(c, p, f, 5) == RaisedReasons(c, p, f, 4) + Said(f.crossBorder, "CROSS_BORDER");
    assert RaisedReasons(c, p, f, 6) ==
        RaisedReasons(c, p, f, 5) + Said(p.merchantId in c.riskyMerchants, "RISKY_MERCHANT");
    assert RaisedReasons(c, p, f, 7) ==
        RaisedReasons(c, p, f, 6) + Said(p.country in c.highRiskCountries, "HIGH_RISK_COUNTRY");
  }

  lemma RuleTexts(c: Settings, p: Request, f: Snapshot)
    ensures var raised := RaisedReasons(c, p, f, |SIGNALS|);
            && Rules(c, p, f).reasons == (if raised == [] then [NO_SIGNALS] else raised)
            && NO_SIGNALS !in raised && Signals([NO_SIGNALS]) == []
  {
    ReasonsAreRaised(c, p, f, |SIGNALS|);
    SeenIsReported(c, p, f, NO_SIGNALS);
    PlaceholderUnseen(c, p, f);
    hide RaisedReasons, Reported, Seen, RuleScore;
  }

  lemma {:induction false} NothingDropped(reasons: seq<string>)
    requires NO_SIGNALS !in reasons
    ensures Signals(reasons) == reasons
  {
    if reasons != [] { NothingDropped(reasons[1..]); }
  }

  // ---------------------------------------------------------------- what the risk service reads

  /** A payments record is read exactly when it is a version 1 payments.created event that names its payment
      twice alike, with valid fields once white space is cut off; only that white space is lost. */
  lemma ParsedExactly(v: PayValue)
    ensures ParsePayment(v).Some? <==>
              && v.PayEvent? && v.created.eventType == PaymentsCreated && v.created.schemaVersion == 1
              && v.created.payload.Created? && v.created.payload.paymentId == v.created.aggregateId
              && ReadAs(v.created.payload.request, Strip(v.created.payload.request))
              && ValidRequest(Strip(v.created.payload.request))
    ensures ParsePayment(v).Some? ==>
              var e, x := ParsePayment(v).value, v.created;
              && e == OutboxEvent(x.id, PaymentsCreated, x.aggregateId, 1, x.occurredAt, x.traceId, e.payload)
              && e.payload.Created? && e.payload.paymentId == x.aggregateId
              && e.payload.createdAt == x.payload.createdAt && ReadAs(x.payload.request, e.payload.request)
  {
    hide ValidRequest, TrimSpace;
  }

  ghost predicate ReadAs(p: Request, q: Request) {
    && q.customerId == TrimSpace(p.customerId) && q.merchantId == TrimSpace(p.merchantId)
    && q.deviceId == TrimSpace(p.deviceId) && q.amountMinor == p.amountMinor
    && q.currency == TrimSpace(p.currency) && q.country == TrimSpace(p.country)
  }

  // ---------------------------------------------------------------- identity and times

  /** Whose decision it is, what it was made with, and when. */
  lemma Identity(c: Settings, e: OutboxEvent, f: Snapshot, m: Model)
    requires Source(e)
    ensures var d := Decision(c, e, f, m);
            var version := if m.Scored? then m.version else "ml-unavailable-review-v1";
            && d.eventId == d.payload.decisionId == V5(version, e.id) && d.payload.sourceEventId == e.id
            && d.aggregateId == d.payload.paymentId == e.payload.paymentId == e.aggregateId
            && d.traceId == e.traceId && d.schemaVersion == 2
            && d.occurredAt == d.payload.decisionAt == f.decisionAt && d.payload.features == f
            && d.payload.ruleVersion == "rules-v1" && d.payload.modelVersion == TrimSpace(version)
            && d.payload.reviewThreshold == (if m.Scored? then m.threshold else 0.5)
            && d.payload.modelProbability == (if m.Scored? then Round6(m.probability) else 0.0)
  {
    hide Rules, AllReasons, TrimSpace, Combined;
  }

  /** An event seen for the first time is observed with its payment's customer, device and country and decided
      at the time of the call; the decision is the one the cache then holds. A model version that is blank or
      longer than 255 characters gives none. */
  lemma FreshDecision(r: Redis, window: int, c: Settings, e: OutboxEvent, now: int, m: Model)
    requires Source(e) && e.id !in r.decisions && e.id !in r.snapshots
    ensures var p := e.payload.request;
            var (seen, f) := Observe(r, window,
                Obs(e.id, e.payload.paymentId, p.customerId, p.deviceId, p.country, e.occurredAt / 1000, now));
            var (n, d) := Processed(r, window, c, e, now, m);
            && f.decisionAt == now
            && if m.Scored? && !(1 <= |TrimSpace(m.version)| <= 255) then n == seen && d == None
               else d == Some(Decision(c, e, f, m))
                    && n == seen.(decisions := seen.decisions[e.id := Decision(c, e, f, m)])
  {
    FallbackFits();
    hide Rules, AllReasons, Round6, TrimSpace, Combined, ZCount, ZRemRangeBelow, ValidRequest;
  }
}
