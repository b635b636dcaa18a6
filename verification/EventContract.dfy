/** The consumer's contract for decision events: parsing, normalization and validation of the wire
    form, and the typed predicate it amounts to for events that a producer encoded. */
module EventContract {
  import opened Text
  import opened Domain

  // ---------------------------------------------------------------- UUID text

  function Lower(c: char): char { if 'A' <= c <= 'Z' then (c as int + 32) as char else c }
  function ToLower(s: string): string { seq(|s|, i requires 0 <= i < |s| => Lower(s[i])) }
  predicate IsHex(c: char) { '0' <= c <= '9' || 'a' <= c <= 'f' || 'A' <= c <= 'F' }

  /** strings.NewReplacer("-", "").Replace. */
  function Compact(s: string): string {
    if s == [] then [] else (if s[0] == '-' then [] else [s[0]]) + Compact(s[1..])
  }

  function Hyphens(s: string): nat {
    if s == [] then 0 else (if s[0] == '-' then 1 else 0) + Hyphens(s[1..])
  }

  /** hex.DecodeString succeeds. */
  predicate HexDecodes(s: string) { |s| % 2 == 0 && forall c | c in s :: IsHex(c) }

  predicate UuidFrame(s: string) {
    |s| == 36 && s[8] == '-' && s[13] == '-' && s[18] == '-' && s[23] == '-'
  }

  /** decision.normalizeUUID. */
  function NormalizeUuid(raw: string): Option<string> {
    var s := TrimSpace(raw);
    if !UuidFrame(s) || !HexDecodes(Compact(s)) then None else Some(ToLower(s))
  }

  /** payment.NormalizeID. */
  function NormalizeId(raw: string): Option<string> {
    if !UuidFrame(raw) || |Compact(raw)| != 32 || !HexDecodes(Compact(raw)) then None else Some(ToLower(raw))
  }

  /** The 8-4-4-4-12 form, lower case. */
  predicate CanonicalUuid(s: string) {
    && UuidFrame(s)
    && forall i | 0 <= i < 36 && i !in {8, 13, 18, 23} :: IsHex(s[i]) && s[i] == Lower(s[i])
  }

  lemma {:induction false} CompactShape(s: string)
    ensures |Compact(s)| + Hyphens(s) == |s|
    ensures (forall c | c in Compact(s) :: IsHex(c)) <==> (forall i | 0 <= i < |s| :: IsHex(s[i]) || s[i] == '-')
  {
    if s != [] {
      CompactShape(s[1..]);
      var rest := Compact(s[1..]);
      assert Compact(s) == (if s[0] == '-' then [] else [s[0]]) + rest;
      if forall c | c in Compact(s) :: IsHex(c) {
        forall c | c in rest ensures IsHex(c) { assert c in Compact(s); }
        forall i | 0 <= i < |s| ensures IsHex(s[i]) || s[i] == '-' {
          if i == 0 { assert s[0] != '-' ==> s[0] in Compact(s); } else { assert s[i] == s[1..][i - 1]; }
        }
      } else {
        var c :| c in Compact(s) && !IsHex(c);
        if c in rest {
          var i :| 0 <= i < |s[1..]| && !(IsHex(s[1..][i]) || s[1..][i] == '-');
          assert s[i + 1] == s[1..][i];
        }
      }
    }
  }

  /** Characters other than the four fixed hyphens add to the count. */
  lemma {:induction false} HyphensUpTo(s: string, n: nat)
    requires n <= |s|
    ensures Hyphens(s) == Hyphens(s[..n]) + Hyphens(s[n..])
    ensures (forall i | 0 <= i < n :: s[i] != '-') ==> Hyphens(s[..n]) == 0
    ensures Hyphens(s[..n]) == 0 ==> forall i | 0 <= i < n :: s[i] != '-'
    decreases n
  {
    if n == 0 {
      assert s[..0] == [] && s[0..] == s;
    } else {
      HyphensUpTo(s[1..], n - 1);
      assert s[1..][..n - 1] == s[1..n] && s[1..][n - 1..] == s[n..];
      assert s[..n][1..] == s[1..n];
      if Hyphens(s[..n]) == 0 {
        forall i | 0 <= i < n ensures s[i] != '-' { if i > 0 { assert s[1..][i - 1] == s[i]; } }
      }
      if forall i | 0 <= i < n :: s[i] != '-' {
        forall i | 0 <= i < n - 1 ensures s[1..][i] != '-' { assert s[1..][i] == s[i + 1]; }
      }
    }
  }

  lemma FrameHyphens(s: string)
    requires UuidFrame(s)
    ensures Hyphens(s)
              == 4 + Hyphens(s[..8]) + Hyphens(s[9..13]) + Hyphens(s[14..18]) + Hyphens(s[19..23]) + Hyphens(s[24..])
  {
    HyphensUpTo(s, 8);
    assert s[8..][1..] == s[9..];
    HyphensUpTo(s[9..], 4);
    assert s[9..][..4] == s[9..13] && s[9..][4..] == s[13..];
    assert s[13..][1..] == s[14..];
    HyphensUpTo(s[14..], 4);
    assert s[14..][..4] == s[14..18] && s[14..][4..] == s[18..];
    assert s[18..][1..] == s[19..];
    HyphensUpTo(s[19..], 4);
    assert s[19..][..4] == s[19..23] && s[19..][4..] == s[23..];
    assert s[23..][1..] == s[24..];
  }

  lemma NoHyphens(s: string)
    ensures Hyphens(s) == 0 <==> forall i | 0 <= i < |s| :: s[i] != '-'
  {
    HyphensUpTo(s, |s|);
    assert s[..|s|] == s;
  }

  lemma FourHyphens(s: string)
    requires UuidFrame(s)
    ensures Hyphens(s) == 4 <==> forall i | 0 <= i < 36 && i !in {8, 13, 18, 23} :: s[i] != '-'
  {
    FrameHyphens(s);
    NoHyphens(s[..8]);
    NoHyphens(s[9..13]);
    NoHyphens(s[14..18]);
    NoHyphens(s[19..23]);
    NoHyphens(s[24..]);
    assert forall i | 9 <= i < 13 :: s[i] == s[9..13][i - 9];
    assert forall i | 14 <= i < 18 :: s[i] == s[14..18][i - 14];
    assert forall i | 19 <= i < 23 :: s[i] == s[19..23][i - 19];
    assert forall i | 24 <= i < 36 :: s[i] == s[24..][i - 24];
    assert forall i | 0 <= i < 8 :: s[i] == s[..8][i];
  }

  /** The consumer accepts exactly the framed texts of hex digits and hyphens with an even number of
      hyphens; the payment API accepts exactly those with the four framing ones. */
  lemma UuidAcceptance(raw: string)
    ensures NormalizeUuid(raw).Some? <==>
              var s := TrimSpace(raw);
              UuidFrame(s) && (forall i | 0 <= i < 36 :: IsHex(s[i]) || s[i] == '-') && Hyphens(s) % 2 == 0
    ensures NormalizeId(raw).Some? <==> UuidFrame(raw) && CanonicalUuid(ToLower(raw))
  {
    CompactShape(TrimSpace(raw));
    CompactShape(raw);
    if UuidFrame(raw) {
      FourHyphens(raw);
      var low := ToLower(raw);
      assert forall i | 0 <= i < 36 :: IsHex(low[i]) <==> IsHex(raw[i]);
    }
  }

  /** So the consumer's normal form is a canonical UUID if and only if no surplus hyphen is present. */
  lemma UuidNormalForm(raw: string)
    requires NormalizeUuid(raw).Some?
    ensures CanonicalUuid(NormalizeUuid(raw).value) <==> Hyphens(TrimSpace(raw)) == 4
  {
    var s := TrimSpace(raw);
    UuidAcceptance(raw);
    FourHyphens(s);
    assert forall i | 0 <= i < 36 :: IsHex(ToLower(s)[i]) <==> IsHex(s[i]);
  }

  ghost predicate Surplus(s: string) {
    && UuidFrame(s) && s[34] == '-' && s[35] == '-'
    && forall i | 0 <= i < 34 && i !in {8, 13, 18, 23} :: s[i] == '0'
  }

  lemma SurplusCount(s: string)
    requires Surplus(s)
    ensures Hyphens(s) == 6
  {
    FrameHyphens(s);
    NoHyphens(s[..8]);
    NoHyphens(s[9..13]);
    NoHyphens(s[14..18]);
    NoHyphens(s[19..23]);
    var tail := s[24..];
    assert forall i | 0 <= i < 12 :: tail[i] == s[24 + i];
    NoHyphens(tail[..10]);
    HyphensUpTo(tail, 10);
    var end := tail[10..];
    assert end[0] == '-' && end[1..] == ['-'] && ['-'][1..] == [];
    assert Hyphens(['-']) == 1;
  }

  /** Such a surplus is accepted: the text below has six hyphens. */
  lemma SurplusHyphensAccepted(s: string)
    requires Surplus(s)
    ensures NormalizeUuid(s).Some? && !CanonicalUuid(NormalizeUuid(s).value)
  {
    SurplusCount(s);
    TrimSpaceTrims(s);
    assert Trimmed(s);
    hide Hyphens, NormalizeUuid, TrimSpace, CanonicalUuid;
    UuidAcceptance(s);
    UuidNormalForm(s);
  }

  lemma CanonicalIsNormal(s: string)
    requires CanonicalUuid(s)
    ensures NormalizeUuid(s) == Some(s)
  {
    assert IsHex(s[0]) && IsHex(s[35]);
    TrimSpaceTrims(s);
    FourHyphens(s);
    UuidAcceptance(s);
    assert ToLower(s) == s;
  }

  // ---------------------------------------------------------------- the contract on typed events

  predicate ValidScore(n: int) { 0 <= n <= 100 }

  predicate ValidCountry(s: string) {
    |Utf8(s)| == 2 && |s| == 2 && 'A' <= s[0] <= 'Z' && 'A' <= s[1] <= 'Z'
  }

  predicate ReasonChar(c: char) { 'A' <= c <= 'Z' || '0' <= c <= '9' || c == '_' }

  predicate ValidReason(s: string) {
    s != "" && |Utf8(s)| <= 100 && forall i | 0 <= i < |s| :: ReasonChar(s[i])
  }

  /** A version label the consumer takes: 1-255 bytes. */
  predicate VersionFits(s: string) { s != "" && |Utf8(s)| <= 255 }

  /** What normalizeAndValidate checks, on an event whose texts are already normal. */
  predicate ContractOk(e: Event) {
    var p := e.payload;
    && e.schemaVersion == 2
    && e.eventId == p.decisionId && e.aggregateId == p.paymentId
    && e.occurredAt != 0 && e.occurredAt == p.decisionAt && p.decisionAt == p.features.decisionAt
    && ValidScore(p.riskScore) && ValidScore(p.ruleScore) && ValidScore(p.modelScore)
    && 0.0 <= p.modelProbability <= 1.0 && 0.0 < p.reviewThreshold < 1.0
    && p.reasons != [] && VersionFits(p.ruleVersion) && VersionFits(p.modelVersion)
    && p.features.velocity >= 1 && ValidCountry(p.features.baselineCountry)
    && forall i | 0 <= i < |p.reasons| :: ValidReason(p.reasons[i])
  }

  /** ParseEvent on a record value. */
  function ParseEvent(v: Value): Option<Event> {
    if v.Json? && ContractOk(v.event) then Some(v.event) else None
  }

  // ---------------------------------------------------------------- the wire form

  /** decision.Event right after JSON decoding: every text is whatever the producer sent. */
  datatype Wire = Wire(
    eventId: string, eventType: string, aggregateId: string, schemaVersion: int, occurredAt: int, traceId: string,
    decisionId: string, paymentId: string, sourceEventId: string, decision: string,
    riskScore: int, ruleScore: int, modelScore: int, modelProbability: real, reviewThreshold: real,
    reasons: seq<string>, ruleVersion: string, modelVersion: string, decisionAt: int,
    velocity: int, newDevice: bool, crossBorder: bool, baselineCountry: string, featuresAt: int)

  const EVENT_TYPE := "risk.decision.completed"

  predicate UuidsAccepted(w: Wire) {
    && NormalizeUuid(w.eventId).Some? && NormalizeUuid(w.aggregateId).Some? && NormalizeUuid(w.traceId).Some?
    && NormalizeUuid(w.decisionId).Some? && NormalizeUuid(w.paymentId).Some? && NormalizeUuid(w.sourceEventId).Some?
  }

  function Trims(xs: seq<string>): seq<string> {
    seq(|xs|, i requires 0 <= i < |xs| => TrimSpace(xs[i]))
  }

  function Normal(w: Wire): Wire
    requires UuidsAccepted(w)
  {
    w.(eventId := NormalizeUuid(w.eventId).value, aggregateId := NormalizeUuid(w.aggregateId).value,
       traceId := NormalizeUuid(w.traceId).value, decisionId := NormalizeUuid(w.decisionId).value,
       paymentId := NormalizeUuid(w.paymentId).value, sourceEventId := NormalizeUuid(w.sourceEventId).value,
       eventType := TrimSpace(w.eventType), decision := TrimSpace(w.decision),
       ruleVersion := TrimSpace(w.ruleVersion), modelVersion := TrimSpace(w.modelVersion),
       baselineCountry := TrimSpace(w.baselineCountry), reasons := Trims(w.reasons))
  }

  predicate HeaderOk(w: Wire) {
    && w.eventType == EVENT_TYPE && w.schemaVersion == 2
    && w.eventId == w.decisionId && w.aggregateId == w.paymentId
    && w.occurredAt != 0 && w.decisionAt != 0 && w.featuresAt != 0
    && w.occurredAt == w.decisionAt && w.decisionAt == w.featuresAt
    && w.decision in {"ALLOW", "REVIEW", "BLOCK"}
    && ValidScore(w.riskScore) && ValidScore(w.ruleScore) && ValidScore(w.modelScore)
    && 0.0 <= w.modelProbability <= 1.0 && 0.0 < w.reviewThreshold < 1.0
    && w.reasons != [] && VersionFits(w.ruleVersion) && VersionFits(w.modelVersion)
    && w.velocity >= 1 && ValidCountry(w.baselineCountry)
  }

  predicate WireOk(w: Wire) {
    HeaderOk(w) && forall i | 0 <= i < |w.reasons| :: ValidReason(w.reasons[i])
  }

  /** normalizeAndValidate: rewrites the event field by field, then checks it. */
  method NormalizeAndValidate(event: Wire) returns (result: Option<Wire>)
    ensures result == if UuidsAccepted(event) && WireOk(Normal(event)) then Some(Normal(event)) else None
  {
    hide WireOk, HeaderOk, NormalizeUuid, TrimSpace, ValidReason;
    if !UuidsAccepted(event) { return None; }
    var w := event;
    w := w.(eventId := NormalizeUuid(w.eventId).value);
    w := w.(aggregateId := NormalizeUuid(w.aggregateId).value);
    w := w.(traceId := NormalizeUuid(w.traceId).value);
    w := w.(decisionId := NormalizeUuid(w.decisionId).value);
    w := w.(paymentId := NormalizeUuid(w.paymentId).value);
    w := w.(sourceEventId := NormalizeUuid(w.sourceEventId).value);
    w := w.(eventType := TrimSpace(w.eventType), decision := TrimSpace(w.decision));
    w := w.(ruleVersion := TrimSpace(w.ruleVersion), modelVersion := TrimSpace(w.modelVersion));
    w := w.(baselineCountry := TrimSpace(w.baselineCountry));
    var reasons := w.reasons;
    for i := 0 to |reasons|
      invariant |reasons| == |w.reasons|
      invariant forall k | 0 <= k < |reasons| :: reasons[k] == if k < i then TrimSpace(w.reasons[k]) else w.reasons[k]
    {
      reasons := reasons[i := TrimSpace(reasons[i])];
    }
    assert reasons == Trims(w.reasons);
    w := w.(reasons := reasons);
    result := Checked(w);
  }

  /** The validation half: the header switch, then the loop over the reason codes. */
  method Checked(w: Wire) returns (result: Option<Wire>)
    ensures result == if WireOk(w) then Some(w) else None
  {
    hide HeaderOk, ValidReason;
    if !HeaderOk(w) { return None; }
    for i := 0 to |w.reasons|
      invariant forall k | 0 <= k < i :: ValidReason(w.reasons[k])
    {
      if !ValidReason(w.reasons[i]) { return None; }
    }
    return Some(w);
  }

  // ---------------------------------------------------------------- ids on their way into the tables

  /** PostgreSQL's input of a UUID: groups of four hex digits, with at most one hyphen between two groups. */
  predicate Castable(s: string, groups: nat)
    decreases groups
  {
    if groups == 0 then s == ""
    else
      && |s| >= 4 && (forall i | 0 <= i < 4 :: IsHex(s[i]))
      && Castable(if groups > 1 && |s| > 4 && s[4] == '-' then s[5..] else s[4..], groups - 1)
  }

  lemma {:induction false} CastableDigits(s: string, groups: nat)
    requires Castable(s, groups)
    ensures |s| - Hyphens(s) == 4 * groups
    decreases groups
  {
    if groups > 0 {
      HyphensUpTo(s, 4);
      var hyphen := groups > 1 && |s| > 4 && s[4] == '-';
      CastableDigits(if hyphen then s[5..] else s[4..], groups - 1);
      assert hyphen ==> s[4..][0] == '-' && s[4..][1..] == s[5..];
    }
  }

  lemma CanonicalCasts(s: string)
    requires CanonicalUuid(s)
    ensures Castable(s, 8)
  {
    assert Castable(s[36..], 0);
    assert s[32..][4..] == s[36..] && Castable(s[32..], 1);
    assert s[28..][4..] == s[32..] && Castable(s[28..], 2);
    assert s[24..][4..] == s[28..] && Castable(s[24..], 3);
    assert s[19..][5..] == s[24..] && Castable(s[19..], 4);
    assert s[14..][5..] == s[19..] && Castable(s[14..], 5);
    assert s[9..][5..] == s[14..] && Castable(s[9..], 6);
    assert s[4..][5..] == s[9..] && Castable(s[4..], 7);
  }

  lemma CastIsCanonical(n: string)
    requires UuidFrame(n) && forall i | 0 <= i < 36 :: n[i] == '-' || (IsHex(n[i]) && n[i] == Lower(n[i]))
    ensures Castable(n, 8) <==> CanonicalUuid(n)
  {
    if CanonicalUuid(n) { CanonicalCasts(n); }
    if Castable(n, 8) {
      CastableDigits(n, 8);
      FourHyphens(n);
    }
    hide Castable, Hyphens;
  }

  /** PostgreSQL takes an id the consumer normalized exactly when it has no surplus hyphen. */
  lemma CastsExactly(raw: string)
    requires NormalizeUuid(raw).Some?
    ensures Castable(NormalizeUuid(raw).value, 8) <==> Hyphens(TrimSpace(raw)) == 4
  {
    hide Castable, Hyphens, TrimSpace, CanonicalUuid, Compact;
    var s := TrimSpace(raw);
    var n := ToLower(s);
    UuidAcceptance(raw);
    UuidNormalForm(raw);
    forall i | 0 <= i < 36
      ensures n[i] == '-' || (IsHex(n[i]) && n[i] == Lower(n[i]))
    {
      assert IsHex(s[i]) || s[i] == '-';
    }
    CastIsCanonical(n);
  }

  /** What becomes of a record: quarantined as invalid, handed to the lookups of Apply, or failed by the
      first of them with an error that is not permanent, so that it is retried without end. */
  datatype Route = Quarantined | LookedUp | Stalled

  /** Worker.handle up to Apply's first statement that takes an id of the event, its payment id. */
  function RouteOf(w: Wire): Route {
    if !UuidsAccepted(w) || !WireOk(Normal(w)) then Quarantined
    else if Castable(Normal(w).paymentId, 8) then LookedUp
    else Stalled
  }

  /** An event stalls its partition exactly when it meets the contract and its payment id has surplus
      hyphens: neither stored nor quarantined. */
  lemma StallsExactly(w: Wire)
    ensures RouteOf(w) == Stalled <==> UuidsAccepted(w) && WireOk(Normal(w)) && Hyphens(TrimSpace(w.paymentId)) != 4
  {
    if UuidsAccepted(w) { CastsExactly(w.paymentId); }
    hide WireOk, NormalizeUuid, TrimSpace, Castable, Hyphens;
  }

  const SURPLUS := "00000000-0000-0000-0000-0000000000--"
  const ZERO := "00000000-0000-0000-0000-000000000000"

  function StallingEvent(): Wire {
    Wire(ZERO, EVENT_TYPE, SURPLUS, 2, 1, ZERO, ZERO, SURPLUS, ZERO, "ALLOW", 0, 0, 0, 0.0, 0.5, ["A"], "v", "v", 1,
         1, false, false, "DE", 1)
  }

  /** Such an event exists. */
  lemma StallingEventStalls()
    ensures RouteOf(StallingEvent()) == Stalled
  {
    hide NormalizeUuid, TrimSpace, Hyphens, RouteOf, VersionFits, ValidReason, ValidCountry, Trims, SURPLUS;
    hide ZERO, EVENT_TYPE;
    StallingIds();
    StallingTexts();
    var w := StallingEvent();
    assert UuidsAccepted(w);
    assert HeaderOk(Normal(w));
    StallsExactly(w);
  }

  lemma StallingIds()
    ensures NormalizeUuid(ZERO) == Some(ZERO) && NormalizeUuid(SURPLUS).Some? && Hyphens(TrimSpace(SURPLUS)) == 6
  {
    hide *;
    IdShapes();
    CanonicalIsNormal(ZERO);
    SurplusIsTaken(SURPLUS);
  }

  lemma IdShapes()
    ensures Surplus(SURPLUS) && CanonicalUuid(ZERO)
  {
  }

  lemma SurplusIsTaken(s: string)
    requires Surplus(s)
    ensures NormalizeUuid(s).Some? && Hyphens(TrimSpace(s)) == 6
  {
    SurplusHyphensAccepted(s);
    assert Trimmed(s);
    TrimSpaceTrims(s);
    SurplusCount(s);
    hide NormalizeUuid, TrimSpace, Hyphens;
  }

  lemma StallingTexts()
    ensures TrimSpace(EVENT_TYPE) == EVENT_TYPE && TrimSpace("ALLOW") == "ALLOW" && TrimSpace("v") == "v"
    ensures TrimSpace("DE") == "DE" && Trims(["A"]) == ["A"]
    ensures VersionFits("v") && ValidCountry("DE") && ValidReason("A")
  {
    LabelsTrimmed(Allow);
    TrimSpaceTrims("v");
    TrimSpaceTrims("DE");
    TrimSpaceTrims("A");
    hide TrimSpace, Utf8;
    Utf8Length("v");
    Utf8Length("DE");
    Utf8Length("A");
  }

  // ---------------------------------------------------------------- producer and consumer agree

  function VerdictText(v: Verdict): string {
    match v case Allow => "ALLOW" case Review => "REVIEW" case Block => "BLOCK"
  }

  /** model_dump_json on the producer's side; `text` renders UUIDs. */
  function Encode(e: Event, text: Uuid -> string): Wire {
    var p, f := e.payload, e.payload.features;
    Wire(text(e.eventId), EVENT_TYPE, text(e.aggregateId), e.schemaVersion, e.occurredAt, text(e.traceId),
         text(p.decisionId), text(p.paymentId), text(p.sourceEventId), VerdictText(p.verdict),
         p.riskScore, p.ruleScore, p.modelScore, p.modelProbability, p.reviewThreshold,
         p.reasons, p.ruleVersion, p.modelVersion, p.decisionAt,
         f.velocity, f.newDevice, f.crossBorder, f.baselineCountry, f.decisionAt)
  }

  function Ids(e: Event): set<Uuid> {
    {e.eventId, e.aggregateId, e.traceId, e.payload.decisionId, e.payload.paymentId, e.payload.sourceEventId}
  }

  /** These ids are written in their normal form, which is the canonical one for UUIDs, and different ids
      differently. */
  ghost predicate RendersUuids(text: Uuid -> string, ids: set<Uuid>) {
    && (forall u | u in ids :: NormalizeUuid(text(u)) == Some(text(u)))
    && (forall u | u in ids :: CanonicalUuid(text(u)) <==> !u.Uncast?)
    && (forall u, v | u in ids && v in ids && text(u) == text(v) :: u == v)
  }

  /** The models strip white space from every text. */
  ghost predicate Stripped(e: Event) {
    && Trimmed(e.payload.ruleVersion) && Trimmed(e.payload.modelVersion) && Trimmed(e.payload.features.baselineCountry)
    && forall i | 0 <= i < |e.payload.reasons| :: Trimmed(e.payload.reasons[i])
  }

  lemma EncodedIsNormal(e: Event, text: Uuid -> string)
    requires RendersUuids(text, Ids(e)) && Stripped(e)
    ensures UuidsAccepted(Encode(e, text)) && Normal(Encode(e, text)) == Encode(e, text)
  {
    var w, p := Encode(e, text), e.payload;
    hide CanonicalUuid, NormalizeUuid, TrimSpace, Trimmed;
    TrimSpaceTrims(p.ruleVersion);
    TrimSpaceTrims(p.modelVersion);
    TrimSpaceTrims(p.features.baselineCountry);
    LabelsTrimmed(p.verdict);
    forall i | 0 <= i < |p.reasons| ensures TrimSpace(p.reasons[i]) == p.reasons[i] { TrimSpaceTrims(p.reasons[i]); }
    assert Trims(p.reasons) == p.reasons;
  }

  lemma LabelsTrimmed(v: Verdict)
    ensures TrimSpace(EVENT_TYPE) == EVENT_TYPE && TrimSpace(VerdictText(v)) == VerdictText(v)
  {
    hide TrimSpace, TrimLeft, TrimRight;
    TrimSpaceTrims(EVENT_TYPE);
    TrimSpaceTrims(VerdictText(v));
  }

  /** The consumer takes an encoded event exactly when the typed contract holds, and hands on the very
      event that was sent: normalization changes nothing, so repeats have equal fingerprints. */
  lemma EncodedEventsParse(e: Event, text: Uuid -> string)
    requires RendersUuids(text, Ids(e)) && Stripped(e)
    ensures var w := Encode(e, text);
            UuidsAccepted(w) && Normal(w) == w && (WireOk(Normal(w)) <==> ParseEvent(Json(e)) == Some(e))
  {
    hide CanonicalUuid, NormalizeUuid, TrimSpace, Trimmed, ValidReason, VersionFits, ValidCountry, UuidsAccepted;
    hide Normal;
    EncodedIsNormal(e, text);
  }

  /** An encoded event takes the stalling route exactly when it meets the contract and its payment id is no
      UUID. */
  lemma EncodedEventStalls(e: Event, text: Uuid -> string)
    requires RendersUuids(text, Ids(e)) && Stripped(e)
    ensures RouteOf(Encode(e, text)) == Stalled <==> ContractOk(e) && e.payload.paymentId.Uncast?
  {
    EncodedEventsParse(e, text);
    CastsExactly(text(e.payload.paymentId));
    UuidNormalForm(text(e.payload.paymentId));
    hide CanonicalUuid, NormalizeUuid, TrimSpace, Castable, Hyphens, ContractOk, WireOk, Stripped;
  }

  /** Fingerprints of encoded events agree exactly when the events do. */
  lemma EncodingInjective(e: Event, f: Event, text: Uuid -> string)
    requires RendersUuids(text, Ids(e) + Ids(f)) && Encode(e, text) == Encode(f, text)
    ensures e == f
  {
    hide CanonicalUuid, NormalizeUuid;
    var v, u := VerdictText(e.payload.verdict), VerdictText(f.payload.verdict);
    assert |v| == |u| && v[0] == u[0];
  }
}
