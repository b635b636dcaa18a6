/** Normalization and validation of payment requests and idempotency keys. */
module Validation {
  import opened Text
  import opened Domain

  /** unicode.ToUpper where it matters here: ASCII letters, and the two other runes whose upper case is
      an ASCII letter (dotless i and long s). Every remaining rune is left outside ASCII. */
  function UpperRune(c: char): char {
    if 'a' <= c <= 'z' then (c as int - 32) as char
    else if c as int == 0x131 then 'I'
    else if c as int == 0x17F then 'S'
    else c
  }

  function ToUpper(s: string): string { seq(|s|, i requires 0 <= i < |s| => UpperRune(s[i])) }

  function Normalize(r: Request): Request {
    Request(TrimSpace(r.customerId), TrimSpace(r.merchantId), TrimSpace(r.deviceId), r.amountMinor,
            ToUpper(TrimSpace(r.currency)), ToUpper(TrimSpace(r.country)))
  }

  predicate ValidIdentifier(s: string) { 1 <= |s| <= 255 }

  predicate AllUpper(s: string) { forall i | 0 <= i < |s| :: 'A' <= s[i] <= 'Z' }

  /** isUpperASCII; the length is in bytes. */
  predicate UpperAscii(s: string, length: nat) { |Utf8(s)| == length && AllUpper(s) }

  datatype Field = CustomerId | MerchantId | DeviceId | AmountMinor | Currency | Country
  datatype Problem = Required | TooLong | NotPositive | NotACode

  const FIELDS := {CustomerId, MerchantId, DeviceId, AmountMinor, Currency, Country}

  /** Every field with a problem, and its problem. */
  function Problems(r: Request): map<Field, Problem> {
    map f | f in FIELDS && FieldProblem(r, f).Some? :: FieldProblem(r, f).value
  }

  function IdentifierProblem(s: string): Option<Problem> {
    if s == "" then Some(Required) else if |s| > 255 then Some(TooLong) else None
  }

  function FieldProblem(r: Request, f: Field): Option<Problem> {
    match f
    case CustomerId => IdentifierProblem(r.customerId)
    case MerchantId => IdentifierProblem(r.merchantId)
    case DeviceId => IdentifierProblem(r.deviceId)
    case AmountMinor => if r.amountMinor <= 0 then Some(NotPositive) else None
    case Currency => if UpperAscii(r.currency, 3) then None else Some(NotACode)
    case Country => if UpperAscii(r.country, 2) then None else Some(NotACode)
  }

  predicate ValidRequest(r: Request) {
    && ValidIdentifier(r.customerId) && ValidIdentifier(r.merchantId) && ValidIdentifier(r.deviceId)
    && r.amountMinor > 0 && UpperAscii(r.currency, 3) && UpperAscii(r.country, 2)
  }

  datatype Checked = Normalized(request: Request) | Invalid(fields: map<Field, Problem>)

  function With(fields: map<Field, Problem>, f: Field, problem: Option<Problem>): map<Field, Problem> {
    if problem.Some? then fields[f := problem.value] else fields
  }

  method ValidateIdentifier(fields: map<Field, Problem>, f: Field, value: string) returns (out: map<Field, Problem>)
    ensures out == With(fields, f, IdentifierProblem(value))
  {
    out := fields;
    if value == "" { return out[f := Required]; }
    if |value| > 255 { out := out[f := TooLong]; }
  }

  method IsUpperAscii(value: string, length: nat) returns (ok: bool)
    ensures ok == UpperAscii(value, length)
  {
    if |Utf8(value)| != length { return false; }
    for i := 0 to |value|
      invariant forall k | 0 <= k < i :: 'A' <= value[k] <= 'Z'
    {
      if value[i] < 'A' || value[i] > 'Z' { return false; }
    }
    return true;
  }

  /** NormalizeAndValidate: a request comes back normalized exactly when it is valid; otherwise every
      offending field is named, with its problem, and no other. */
  method NormalizeAndValidate(r: Request) returns (result: Checked)
    ensures result == if ValidRequest(Normalize(r)) then Normalized(Normalize(r)) else Invalid(Problems(Normalize(r)))
    ensures result.Invalid? ==> result.fields != map[]
  {
    hide UpperAscii, Normalize, ValidRequest, Problems, IdentifierProblem;
    var n := Normalize(r);
    var fields: map<Field, Problem> := map[];
    fields := ValidateIdentifier(fields, CustomerId, n.customerId);
    fields := ValidateIdentifier(fields, MerchantId, n.merchantId);
    fields := ValidateIdentifier(fields, DeviceId, n.deviceId);
    if n.amountMinor <= 0 { fields := fields[AmountMinor := NotPositive]; }
    var currencyOk := IsUpperAscii(n.currency, 3);
    if !currencyOk { fields := fields[Currency := NotACode]; }
    var countryOk := IsUpperAscii(n.country, 2);
    if !countryOk { fields := fields[Country := NotACode]; }
    assert fields == Collected(n) by { hide With; }
    CollectedAreProblems(n);
    ProblemsDecide(n);
    hide Collected;
    if fields != map[] { return Invalid(fields); }
    return Normalized(n);
  }

  /** The field map as the validation fills it. */
  function Collected(r: Request): map<Field, Problem> {
    var ids := With(With(With(map[], CustomerId, FieldProblem(r, CustomerId)), MerchantId, FieldProblem(r, MerchantId)),
                    DeviceId, FieldProblem(r, DeviceId));
    With(With(With(ids, AmountMinor, FieldProblem(r, AmountMinor)), Currency, FieldProblem(r, Currency)),
         Country, FieldProblem(r, Country))
  }

  lemma CollectedAreProblems(r: Request)
    ensures Collected(r) == Problems(r)
  {
    hide FieldProblem;
  }

  /** No problem is found exactly in the valid requests. */
  lemma ProblemsDecide(r: Request)
    ensures Problems(r) == map[] <==> ValidRequest(r)
  {
    hide UpperAscii;
    assert Problems(r) == map[] ==> forall f | f in FIELDS :: FieldProblem(r, f).None? by {
      forall f | f in FIELDS ensures f in Problems(r) <==> FieldProblem(r, f).Some? { }
    }
    if Problems(r) != map[] {
      var f :| f in Problems(r);
      assert FieldProblem(r, f).Some?;
    }
  }

  const LOWER_LETTERS := "abcdefghijklmnopqrstuvwxyz"
  const UPPER_LETTERS := "ABCDEFGHIJKLMNOPQRSTUVWXYZ"

  /** Each lower-case letter becomes its own upper-case letter; other characters stay, but for the two further
      ones whose upper case is a letter. */
  lemma LettersRise(c: char, i: nat)
    requires i < 26
    ensures c == LOWER_LETTERS[i] ==> UpperRune(c) == UPPER_LETTERS[i]
    ensures c !in LOWER_LETTERS && c as int != 0x131 && c as int != 0x17F ==> UpperRune(c) == c
    ensures UpperRune(0x131 as char) == 'I' && UpperRune(0x17F as char) == 'S'
  {
    AlphabetsInOrder(i);
    if 'a' <= c <= 'z' {
      AlphabetsInOrder(c as int - 97);
      assert c == LOWER_LETTERS[c as int - 97];
    }
  }

  lemma AlphabetsInOrder(i: nat)
    requires i < 26
    ensures LOWER_LETTERS[i] as int == 97 + i && UPPER_LETTERS[i] as int == 65 + i
  {
  }

  /** A code is valid exactly when it consists of that many upper-case letters. */
  lemma CodeLetters(s: string, n: nat)
    ensures UpperAscii(s, n) <==> |s| == n && forall i | 0 <= i < |s| :: s[i] in UPPER_LETTERS
  {
    forall c: char ensures 'A' <= c <= 'Z' <==> c in UPPER_LETTERS {
      if 'A' <= c <= 'Z' { AlphabetsInOrder(c as int - 65); assert UPPER_LETTERS[c as int - 65] == c; }
      if c in UPPER_LETTERS { var i :| 0 <= i < 26 && UPPER_LETTERS[i] == c; AlphabetsInOrder(i); }
    }
    hide UPPER_LETTERS;
    Utf8Length(s);
  }

  /** What normalization does to a request: names are trimmed, codes trimmed and raised letter by letter, the
      amount stays. */
  lemma NormalizeFields(r: Request, i: nat)
    ensures var n := Normalize(r);
            && n.customerId == TrimSpace(r.customerId) && n.merchantId == TrimSpace(r.merchantId)
            && n.deviceId == TrimSpace(r.deviceId) && n.amountMinor == r.amountMinor
            && |n.currency| == |TrimSpace(r.currency)| && |n.country| == |TrimSpace(r.country)|
            && (i < |n.currency| ==> n.currency[i] == UpperRune(TrimSpace(r.currency)[i]))
            && (i < |n.country| ==> n.country[i] == UpperRune(TrimSpace(r.country)[i]))
  {
    hide TrimSpace, UpperRune;
  }

  /** The bounds a request must keep, field by field. */
  lemma RequestBounds(r: Request)
    ensures ValidRequest(r) <==>
              && 1 <= |r.customerId| <= 255 && 1 <= |r.merchantId| <= 255 && 1 <= |r.deviceId| <= 255
              && r.amountMinor >= 1
              && |r.currency| == 3 && (forall i | 0 <= i < 3 :: r.currency[i] in UPPER_LETTERS)
              && |r.country| == 2 && (forall i | 0 <= i < 2 :: r.country[i] in UPPER_LETTERS)
  {
    CodeLetters(r.currency, 3);
    CodeLetters(r.country, 2);
    hide UpperAscii, UPPER_LETTERS;
  }

  lemma UpperIsStable(s: string)
    ensures ToUpper(ToUpper(s)) == ToUpper(s)
    ensures Trimmed(s) ==> Trimmed(ToUpper(s))
  {
  }

  /** Normalizing twice is normalizing once, and a validated request is its own normal form. */
  lemma NormalizeIdempotent(r: Request)
    ensures Normalize(Normalize(r)) == Normalize(r)
  {
    TrimSpaceTrims(r.customerId);
    TrimSpaceTrims(TrimSpace(r.customerId));
    TrimSpaceTrims(r.merchantId);
    TrimSpaceTrims(TrimSpace(r.merchantId));
    TrimSpaceTrims(r.deviceId);
    TrimSpaceTrims(TrimSpace(r.deviceId));
    CodeIdempotent(r.currency);
    CodeIdempotent(r.country);
    hide TrimSpace, ToUpper, Trimmed;
  }

  lemma CodeIdempotent(s: string)
    ensures ToUpper(TrimSpace(ToUpper(TrimSpace(s)))) == ToUpper(TrimSpace(s))
  {
    TrimSpaceTrims(s);
    UpperIsStable(TrimSpace(s));
    TrimSpaceTrims(ToUpper(TrimSpace(s)));
    hide TrimSpace, ToUpper, Trimmed;
  }

  // ---------------------------------------------------------------- idempotency keys

  datatype KeyResult = Key(key: string) | KeyRequired | KeyInvalid

  /** unicode.IsControl. */
  predicate IsControl(c: char) { c as int < 32 || 127 <= c as int < 160 }

  /** normalizeIdempotencyKey. */
  method NormalizeKey(raw: string) returns (result: KeyResult)
    ensures var k := TrimSpace(raw);
            result == if k == "" then KeyRequired
                      else if |k| > 255 || exists c | c in k :: IsControl(c) then KeyInvalid
                      else Key(k)
  {
    hide TrimSpace;
    var k := TrimSpace(raw);
    if k == "" { return KeyRequired; }
    if |k| > 255 { return KeyInvalid; }
    for i := 0 to |k|
      invariant forall j | 0 <= j < i :: !IsControl(k[j])
    {
      if IsControl(k[i]) { return KeyInvalid; }
    }
    return Key(k);
  }
}
