/** The decision event contract field by field: what each check of the consumer accepts, on typed events and
    on the wire, and what normalization overlooks. */
module ContractFields {
  import opened Text
  import opened Domain
  import opened EventContract

  const CODE_LETTERS := "ABCDEFGHIJKLMNOPQRSTUVWXYZ"
  const REASON_LETTERS := "ABCDEFGHIJKLMNOPQRSTUVWXYZ0123456789_"

  /** An event with other scores, thresholds and counts in place of its own. */
  function Numbers(e: Event, schema: int, risk: int, rule: int, model: int, probability: real, threshold: real,
        velocity: int): Event {
    e.(schemaVersion := schema, payload := e.payload.(riskScore := risk, ruleScore := rule, modelScore := model,
         modelProbability := probability, reviewThreshold := threshold,
         features := e.payload.features.(velocity := velocity)))
  }

  /** Schema 2, three scores from 0 to 100, a probability in [0, 1], a threshold strictly between 0 and 1, a
      velocity of at least 1. */
  lemma NumbersMatter(e: Event, schema: int, risk: int, rule: int, model: int, probability: real, threshold: real,
        velocity: int)
    requires ContractOk(e)
    ensures ContractOk(Numbers(e, schema, risk, rule, model, probability, threshold, velocity)) <==>
              && schema == 2 && 0 <= risk <= 100 && 0 <= rule <= 100 && 0 <= model <= 100
              && 0.0 <= probability <= 1.0 && 0.0 < threshold < 1.0 && velocity >= 1
  {
    hide VersionFits, ValidCountry, ValidReason;
  }

  /** An event with other ids and times. */
  function Addressed(e: Event, event: Uuid, decision: Uuid, aggregate: Uuid, payment: Uuid, occurred: int, decided: int,
        observed: int): Event {
    e.(eventId := event, aggregateId := aggregate, occurredAt := occurred,
       payload := e.payload.(decisionId := decision, paymentId := payment, decisionAt := decided,
         features := e.payload.features.(decisionAt := observed)))
  }

  /** The envelope's id is the decision's, its aggregate the payment, and the three times are one, not zero. */
  lemma AddressesMatter(e: Event, event: Uuid, decision: Uuid, aggregate: Uuid, payment: Uuid, occurred: int,
        decided: int, observed: int)
    requires ContractOk(e)
    ensures ContractOk(Addressed(e, event, decision, aggregate, payment, occurred, decided, observed)) <==>
              event == decision && aggregate == payment && occurred == decided == observed && occurred != 0
  {
    hide VersionFits, ValidCountry, ValidReason, ValidScore;
  }

  /** An event with other texts. */
  function Worded(e: Event, reasons: seq<string>, rules: string, model: string, country: string): Event {
    e.(payload := e.payload.(reasons := reasons, ruleVersion := rules, modelVersion := model,
         features := e.payload.features.(baselineCountry := country)))
  }

  predicate ReasonText(s: string) { 1 <= |s| <= 100 && forall c | c in s :: c in REASON_LETTERS }

  /** At least one reason of 1-100 letters, digits or underscores; two version labels of 1-255 bytes; a country
      of two letters. */
  lemma WordsMatter(e: Event, reasons: seq<string>, rules: string, model: string, country: string)
    requires ContractOk(e)
    ensures ContractOk(Worded(e, reasons, rules, model, country)) <==>
              && reasons != [] && (forall i | 0 <= i < |reasons| :: ReasonText(reasons[i]))
              && rules != "" && |Utf8(rules)| <= 255 && model != "" && |Utf8(model)| <= 255
              && |country| == 2 && country[0] in CODE_LETTERS && country[1] in CODE_LETTERS
  {
    CountryLetters(country);
    forall s ensures ValidReason(s) <==> ReasonText(s) { ReasonIsText(s); }
    hide ValidCountry, ValidReason, ReasonText, ValidScore, Utf8, CODE_LETTERS;
  }

  lemma LettersInOrder(i: nat)
    ensures i < 26 ==> CODE_LETTERS[i] as int == 65 + i
    ensures i < 26 ==> REASON_LETTERS[i] as int == 65 + i
    ensures 26 <= i < 36 ==> REASON_LETTERS[i] as int == 22 + i
    ensures REASON_LETTERS[36] == '_'
  {
  }

  lemma CountryLetters(s: string)
    ensures ValidCountry(s) <==> |s| == 2 && s[0] in CODE_LETTERS && s[1] in CODE_LETTERS
  {
    forall c: char ensures 'A' <= c <= 'Z' <==> c in CODE_LETTERS { CodeLetter(c); }
    hide CODE_LETTERS;
    Utf8Length(s);
    if |s| == 2 { assert forall c | c in s :: c == s[0] || c == s[1]; }
    hide Utf8;
  }

  lemma CodeLetter(c: char)
    ensures 'A' <= c <= 'Z' <==> c in CODE_LETTERS
  {
    if 'A' <= c <= 'Z' { LettersInOrder(c as int - 65); assert CODE_LETTERS[c as int - 65] == c; }
    if c in CODE_LETTERS { var i :| 0 <= i < 26 && CODE_LETTERS[i] == c; LettersInOrder(i); }
  }

  lemma ReasonLetter(c: char)
    ensures ReasonChar(c) <==> c in REASON_LETTERS
  {
    LettersInOrder(36);
    if 'A' <= c <= 'Z' { LettersInOrder(c as int - 65); assert REASON_LETTERS[c as int - 65] == c; }
    if '0' <= c <= '9' { LettersInOrder(c as int - 22); assert REASON_LETTERS[c as int - 22] == c; }
    if c in REASON_LETTERS { var i :| 0 <= i < 37 && REASON_LETTERS[i] == c; LettersInOrder(i); }
  }

  lemma ReasonIsText(s: string)
    ensures ValidReason(s) <==> ReasonText(s)
  {
    forall c: char ensures ReasonChar(c) <==> c in REASON_LETTERS { ReasonLetter(c); }
    hide REASON_LETTERS;
    Utf8Length(s);
    assert ReasonText(s) ==> forall c | c in s :: ReasonChar(c);
    hide Utf8;
  }

  // ---------------------------------------------------------------- on the wire

  /** The event type and the verdict, which typed events cannot get wrong. */
  lemma WireTexts(w: Wire, eventType: string, decision: string)
    requires WireOk(w)
    ensures WireOk(w.(eventType := eventType, decision := decision)) <==>
              && eventType == "risk.decision.completed"
              && (decision == "ALLOW" || decision == "REVIEW" || decision == "BLOCK")
  {
    hide VersionFits, ValidCountry, ValidReason, ValidScore;
  }

  /** An encoded event carries its verdict by name, and every number under its own name. */
  lemma EncodedUnderOwnName(e: Event, text: Uuid -> string)
    ensures var w, p := Encode(e, text), e.payload;
            && w.decision == (if p.verdict.Allow? then "ALLOW" else if p.verdict.Block? then "BLOCK" else "REVIEW")
            && w.eventType == "risk.decision.completed" && w.schemaVersion == e.schemaVersion
            && w.riskScore == p.riskScore && w.ruleScore == p.ruleScore && w.modelScore == p.modelScore
            && w.modelProbability == p.modelProbability && w.reviewThreshold == p.reviewThreshold
            && w.ruleVersion == p.ruleVersion && w.modelVersion == p.modelVersion && w.reasons == p.reasons
            && w.occurredAt == e.occurredAt && w.decisionAt == p.decisionAt && w.featuresAt == p.features.decisionAt
            && w.velocity == p.features.velocity && w.newDevice == p.features.newDevice
            && w.crossBorder == p.features.crossBorder && w.baselineCountry == p.features.baselineCountry
            && w.eventId == text(e.eventId) && w.aggregateId == text(e.aggregateId) && w.traceId == text(e.traceId)
            && w.decisionId == text(p.decisionId) && w.paymentId == text(p.paymentId)
            && w.sourceEventId == text(p.sourceEventId)
  {
  }

  /** Each character of an accepted id is kept, but that the letters A to F become a to f. */
  lemma IdLetters(raw: string, i: nat)
    requires NormalizeUuid(raw).Some? && i < 36
    ensures var n, t := NormalizeUuid(raw).value, TrimSpace(raw);
            && |n| == |t| == 36
            && (n[i] == t[i] || exists k | 0 <= k < 6 :: t[i] == "ABCDEF"[k] && n[i] == "abcdef"[k])
            && n[i] in "0123456789abcdef-"
  {
    UuidAcceptance(raw);
    var t := TrimSpace(raw);
    hide TrimSpace, Compact, Hyphens;
    assert IsHex(t[i]) || t[i] == '-';
    LoweredHex(t[i]);
  }

  lemma LoweredHex(c: char)
    requires IsHex(c) || c == '-'
    ensures Lower(c) == c || exists k | 0 <= k < 6 :: c == "ABCDEF"[k] && Lower(c) == "abcdef"[k]
    ensures Lower(c) in "0123456789abcdef-"
  {
    var digits := "0123456789abcdef-";
    assert digits[16] == '-';
    if '0' <= c <= '9' { assert digits[c as int - 48] == c; }
    else if 'a' <= c <= 'f' { assert digits[c as int - 87] == c; }
    else if 'A' <= c <= 'F' {
      assert c == "ABCDEF"[c as int - 65] && Lower(c) == "abcdef"[c as int - 65];
      assert digits[c as int - 55] == Lower(c);
    }
  }

  /** The two wire events differ in white space around texts and in the case of ids only. */
  ghost predicate SameButPadding(w: Wire, n: Wire) {
    && SameId(w.eventId, n.eventId) && SameId(w.aggregateId, n.aggregateId) && SameId(w.traceId, n.traceId)
    && SameId(w.decisionId, n.decisionId) && SameId(w.paymentId, n.paymentId)
    && SameId(w.sourceEventId, n.sourceEventId)
    && TrimSpace(w.eventType) == n.eventType && TrimSpace(w.decision) == n.decision
    && TrimSpace(w.ruleVersion) == n.ruleVersion && TrimSpace(w.modelVersion) == n.modelVersion
    && TrimSpace(w.baselineCountry) == n.baselineCountry && |w.reasons| == |n.reasons|
    && (forall i | 0 <= i < |w.reasons| :: TrimSpace(w.reasons[i]) == n.reasons[i])
    && w.schemaVersion == n.schemaVersion && w.occurredAt == n.occurredAt && w.riskScore == n.riskScore
    && w.ruleScore == n.ruleScore && w.modelScore == n.modelScore && w.modelProbability == n.modelProbability
    && w.reviewThreshold == n.reviewThreshold && w.decisionAt == n.decisionAt && w.velocity == n.velocity
    && w.newDevice == n.newDevice && w.crossBorder == n.crossBorder && w.featuresAt == n.featuresAt
  }

  predicate SameId(raw: string, n: string) { NormalizeUuid(raw) == Some(n) }

  /** Normalization overlooks exactly that: the event it accepts is the one without the padding. */
  lemma PaddingIsOverlooked(w: Wire, n: Wire)
    ensures SameButPadding(w, n) <==> UuidsAccepted(w) && Normal(w) == n
  {
    hide NormalizeUuid, TrimSpace;
    if UuidsAccepted(w) { TrimsEach(w.reasons); }
    if SameButPadding(w, n) { assert Trims(w.reasons) == n.reasons; }
  }

  lemma TrimsEach(xs: seq<string>)
    ensures |Trims(xs)| == |xs| && forall i | 0 <= i < |xs| :: Trims(xs)[i] == TrimSpace(xs[i])
  {
  }
}
