/** The canonical fingerprint input of a payment request: length-prefixed fields in a fixed order, and a
    decoder that recovers them, so equal fingerprints mean equal requests. */
module Fingerprint {
  import opened Text
  import opened Domain
  import opened Validation

  const COLON: byte := 58
  const NEWLINE: byte := 10
  const MINUS: byte := 45

  /** One field as writeFingerprintField appends it. */
  function FieldBytes(name: string, value: Bytes): Bytes {
    Utf8(name) + [COLON] + Decimal(|value|) + [COLON] + value + [NEWLINE]
  }

  /** strconv.FormatInt in base 10. */
  function FormatInt(n: int): Bytes { if n < 0 then [MINUS] + Decimal(-n) else Decimal(n) }

  function Canonical(r: Request): Bytes {
    FieldBytes("fingerprint_version", Utf8("1"))
    + (FieldBytes("customer_id", Utf8(r.customerId))
    + (FieldBytes("merchant_id", Utf8(r.merchantId))
    + (FieldBytes("device_id", Utf8(r.deviceId))
    + (FieldBytes("amount_minor", FormatInt(r.amountMinor))
    + (FieldBytes("currency", Utf8(r.currency))
    + FieldBytes("country", Utf8(r.country)))))))
  }

  class Builder {
    var written: Bytes

    constructor ()
      ensures written == []
    { written := []; }

    method Write(b: Bytes)
      modifies this
      ensures written == old(written) + b
    { written := written + b; }

    /** writeFingerprintField. */
    method WriteField(name: string, value: Bytes)
      modifies this
      ensures written == old(written) + FieldBytes(name, value)
    {
      Write(Utf8(name));
      Write([COLON]);
      Write(Decimal(|value|));
      Write([COLON]);
      Write(value);
      Write([NEWLINE]);
    }
  }

  /** canonicalFingerprintInput. */
  method CanonicalInput(r: Request) returns (b: Bytes)
    ensures b == Canonical(r)
  {
    hide FieldBytes, FormatInt;
    var builder := new Builder();
    builder.WriteField("fingerprint_version", Utf8("1"));
    builder.WriteField("customer_id", Utf8(r.customerId));
    builder.WriteField("merchant_id", Utf8(r.merchantId));
    builder.WriteField("device_id", Utf8(r.deviceId));
    builder.WriteField("amount_minor", FormatInt(r.amountMinor));
    builder.WriteField("currency", Utf8(r.currency));
    builder.WriteField("country", Utf8(r.country));
    hide Utf8;
    b := builder.written;
  }

  // ---------------------------------------------------------------- the decoder

  function DigitRun(b: Bytes): (n: nat)
    ensures n <= |b| && forall i | 0 <= i < n :: IsDigit(b[i])
  {
    if b != [] && IsDigit(b[0]) then 1 + DigitRun(b[1..]) else 0
  }

  lemma {:induction false} DigitRunStops(d: Bytes, rest: Bytes)
    requires forall x | x in d :: IsDigit(x)
    requires rest != [] && !IsDigit(rest[0])
    ensures DigitRun(d + rest) == |d|
  {
    if d == [] {
      assert d + rest == rest;
    } else {
      assert d[0] in d;
      forall x | x in d[1..] ensures IsDigit(x) { assert x in d; }
      assert (d + rest)[1..] == d[1..] + rest;
      DigitRunStops(d[1..], rest);
    }
  }

  /** Reads a length, a colon, that many bytes and a line end: the bytes, and what follows. */
  function ReadSized(b: Bytes): Option<(Bytes, Bytes)> {
    var n := DigitRun(b);
    if n == |b| || b[n] != COLON then None
    else
      assert forall x | x in b[..n] :: IsDigit(x);
      var size := DecimalValue(b[..n]);
      var tail := b[n + 1..];
      if size >= |tail| || tail[size] != NEWLINE then None
      else Some((tail[..size], tail[size + 1..]))
  }

  /** Reads a field called `name`: its value and what follows it. */
  function ReadField(b: Bytes, name: string): Option<(Bytes, Bytes)> {
    var tag := Utf8(name) + [COLON];
    if tag <= b then ReadSized(b[|tag|..]) else None
  }

  /** Past the digits and the colon, the reader is left with the tail. */
  lemma ReadPastSize(digits: Bytes, tail: Bytes)
    requires (forall x | x in digits :: IsDigit(x)) && DigitRun(digits + ([COLON] + tail)) == |digits|
    ensures var size := DecimalValue(digits);
            ReadSized(digits + ([COLON] + tail)) ==
              if size >= |tail| || tail[size] != NEWLINE then None else Some((tail[..size], tail[size + 1..]))
  {
    hide DigitRun, DecimalValue;
    var b := digits + ([COLON] + tail);
    assert b[..|digits|] == digits && b[|digits| + 1..] == tail;
  }

  lemma ReadUndoesSize(value: Bytes, rest: Bytes)
    ensures ReadSized(Decimal(|value|) + ([COLON] + (value + ([NEWLINE] + rest)))) == Some((value, rest))
  {
    hide Decimal, DigitRun, DecimalValue, ReadSized;
    var size, tail := Decimal(|value|), value + ([NEWLINE] + rest);
    DecimalRoundTrip(|value|);
    DigitRunStops(size, [COLON] + tail);
    ReadPastSize(size, tail);
    SplitTail(value, rest);
  }

  lemma SplitTail(value: Bytes, rest: Bytes)
    ensures var tail := value + ([NEWLINE] + rest);
            |value| < |tail| && tail[|value|] == NEWLINE && tail[..|value|] == value && tail[|value| + 1..] == rest
  {
  }

  /** Reading undoes writing, whatever the field holds and whatever follows it. */
  lemma ReadUndoesWrite(name: string, value: Bytes, rest: Bytes)
    ensures ReadField(FieldBytes(name, value) + rest, name) == Some((value, rest))
  {
    hide Decimal, ReadSized, Utf8;
    var tag := Utf8(name) + [COLON];
    var body := Decimal(|value|) + ([COLON] + (value + ([NEWLINE] + rest)));
    ReadUndoesSize(value, rest);
    assert FieldBytes(name, value) + rest == tag + body;
    assert (tag + body)[|tag|..] == body;
  }

  datatype Fields = Fields(customer: Bytes, merchant: Bytes, device: Bytes, amount: Bytes, currency: Bytes,
      country: Bytes)

  /** The whole input: the version field, then the six request fields, then nothing. */
  function Decode(b: Bytes): Option<Fields> {
    match ReadField(b, "fingerprint_version") case None => None case Some(v) =>
    match ReadField(v.1, "customer_id") case None => None case Some(c) =>
    match ReadField(c.1, "merchant_id") case None => None case Some(m) =>
    match ReadField(m.1, "device_id") case None => None case Some(d) =>
    match ReadField(d.1, "amount_minor") case None => None case Some(a) =>
    match ReadField(a.1, "currency") case None => None case Some(u) =>
    match ReadField(u.1, "country") case None => None case Some(t) =>
    if v.0 != Utf8("1") || t.1 != [] then None else Some(Fields(c.0, m.0, d.0, a.0, u.0, t.0))
  }

  function FieldsOf(r: Request): Fields {
    Fields(Utf8(r.customerId), Utf8(r.merchantId), Utf8(r.deviceId), FormatInt(r.amountMinor), Utf8(r.currency),
        Utf8(r.country))
  }

  /** Decoding the canonical input of any request whatsoever gives back its fields. */
  lemma DecodeUndoesCanonical(r: Request)
    ensures Decode(Canonical(r)) == Some(FieldsOf(r))
  {
    hide FieldBytes, ReadField, Utf8, FormatInt;
    var t := FieldBytes("country", Utf8(r.country));
    assert t + [] == t;
    ReadUndoesWrite("country", Utf8(r.country), []);
    var u := FieldBytes("currency", Utf8(r.currency)) + t;
    ReadUndoesWrite("currency", Utf8(r.currency), t);
    var a := FieldBytes("amount_minor", FormatInt(r.amountMinor)) + u;
    ReadUndoesWrite("amount_minor", FormatInt(r.amountMinor), u);
    var d := FieldBytes("device_id", Utf8(r.deviceId)) + a;
    ReadUndoesWrite("device_id", Utf8(r.deviceId), a);
    var m := FieldBytes("merchant_id", Utf8(r.merchantId)) + d;
    ReadUndoesWrite("merchant_id", Utf8(r.merchantId), d);
    var c := FieldBytes("customer_id", Utf8(r.customerId)) + m;
    ReadUndoesWrite("customer_id", Utf8(r.customerId), m);
    ReadUndoesWrite("fingerprint_version", Utf8("1"), c);
  }

  lemma FormatIntInjective(m: int, n: int)
    requires FormatInt(m) == FormatInt(n)
    ensures m == n
  {
    assert IsDigit(Decimal(if m < 0 then -m else m)[0]) && IsDigit(Decimal(if n < 0 then -n else n)[0]);
    if m < 0 {
      assert FormatInt(m)[0] == MINUS;
      assert FormatInt(m)[1..] == Decimal(-m) && FormatInt(n)[1..] == Decimal(-n);
      DecimalRoundTrip(-m);
      DecimalRoundTrip(-n);
    } else {
      DecimalRoundTrip(m);
      DecimalRoundTrip(n);
    }
  }

  /** Two requests have the same canonical input exactly when they are equal. */
  lemma CanonicalInjective(r: Request, s: Request)
    ensures Canonical(r) == Canonical(s) <==> r == s
  {
    hide Canonical, Decode, Utf8, FormatInt;
    if Canonical(r) == Canonical(s) {
      DecodeUndoesCanonical(r);
      DecodeUndoesCanonical(s);
      Utf8Injective(r.customerId, s.customerId);
      Utf8Injective(r.merchantId, s.merchantId);
      Utf8Injective(r.deviceId, s.deviceId);
      FormatIntInjective(r.amountMinor, s.amountMinor);
      Utf8Injective(r.currency, s.currency);
      Utf8Injective(r.country, s.country);
    }
  }

  /** Fingerprints taken of raw requests after normalization agree exactly when the normal forms do, and
      sending an already normalized request again changes nothing. */
  lemma FingerprintsOfNormalForms(r: Request, s: Request)
    ensures Canonical(Normalize(r)) == Canonical(Normalize(s)) <==> Normalize(r) == Normalize(s)
    ensures Canonical(Normalize(Normalize(r))) == Canonical(Normalize(r))
  {
    hide Canonical, Normalize;
    CanonicalInjective(Normalize(r), Normalize(s));
    NormalizeIdempotent(r);
  }
}
