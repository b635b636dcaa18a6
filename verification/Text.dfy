/** Text primitives shared by the services: white space trimming as Go's strings.TrimSpace does it,
    UTF-8 encoding (Go measures strings in bytes, Python and PostgreSQL in characters) and decimal
    rendering. A Dafny `char` is one Unicode scalar value, i.e. one Go rune. */
module Text {
  newtype byte = x: int | 0 <= x < 256
  type Bytes = seq<byte>

  datatype Option<+T> = None | Some(value: T)

  // ---------------------------------------------------------------- white space

  /** unicode.IsSpace. */
  predicate IsSpace(c: char) {
    var n := c as int;
    || 9 <= n <= 13 || n == 32 || n == 0x85 || n == 0xA0 || n == 0x1680
    || 0x2000 <= n <= 0x200A || n == 0x2028 || n == 0x2029 || n == 0x202F || n == 0x205F || n == 0x3000
  }

  function TrimLeft(s: string): string {
    if s != [] && IsSpace(s[0]) then TrimLeft(s[1..]) else s
  }

  function TrimRight(s: string): string {
    if s != [] && IsSpace(s[|s| - 1]) then TrimRight(s[..|s| - 1]) else s
  }

  function TrimSpace(s: string): string { TrimRight(TrimLeft(s)) }

  /** No white space at either end. */
  predicate Trimmed(s: string) {
    s != [] ==> !IsSpace(s[0]) && !IsSpace(s[|s| - 1])
  }

  lemma {:induction false} TrimRightShape(s: string)
    ensures TrimRight(s) <= s
    ensures TrimRight(s) != [] ==> !IsSpace(TrimRight(s)[|TrimRight(s)| - 1])
  {
    if s != [] && IsSpace(s[|s| - 1]) { TrimRightShape(s[..|s| - 1]); }
  }

  lemma {:induction false} TrimLeftShape(s: string)
    ensures TrimLeft(s) != [] ==> !IsSpace(TrimLeft(s)[0])
  {
    if s != [] && IsSpace(s[0]) { TrimLeftShape(s[1..]); }
  }

  /** Trimming leaves trimmed text, and leaves trimmed text alone. */
  lemma TrimSpaceTrims(s: string)
    ensures Trimmed(TrimSpace(s))
    ensures Trimmed(s) ==> TrimSpace(s) == s
  {
    TrimLeftShape(s);
    TrimRightShape(TrimLeft(s));
    if TrimSpace(s) != [] {
      assert TrimSpace(s)[0] == TrimLeft(s)[0];
    }
  }

  /** What trimming keeps: a stretch of the text with nothing but white space around it. With TrimSpaceTrims
      this determines the result. */
  lemma TrimSpaceKeeps(s: string) returns (i: nat, j: nat)
    ensures i <= j <= |s| && TrimSpace(s) == s[i..j]
    ensures forall k | 0 <= k < i || j <= k < |s| :: IsSpace(s[k])
  {
    i := TrimLeftKeeps(s);
    var n := TrimRightKeeps(s[i..]);
    j := i + n;
    assert s[i..][..n] == s[i..j];
    forall k | j <= k < |s| ensures IsSpace(s[k]) { assert s[i..][k - i] == s[k]; }
  }

  lemma {:induction false} TrimLeftKeeps(s: string) returns (i: nat)
    ensures i <= |s| && TrimLeft(s) == s[i..] && forall k | 0 <= k < i :: IsSpace(s[k])
  {
    i := 0;
    if s != [] && IsSpace(s[0]) {
      var n := TrimLeftKeeps(s[1..]);
      i := n + 1;
      assert s[1..][n..] == s[i..];
      forall k | 0 <= k < i ensures IsSpace(s[k]) { if k > 0 { assert s[1..][k - 1] == s[k]; } }
    }
  }

  lemma {:induction false} TrimRightKeeps(s: string) returns (j: nat)
    ensures j <= |s| && TrimRight(s) == s[..j] && forall k | j <= k < |s| :: IsSpace(s[k])
  {
    j := |s|;
    if s != [] && IsSpace(s[|s| - 1]) {
      var n := TrimRightKeeps(s[..|s| - 1]);
      j := n;
      assert s[..|s| - 1][..j] == s[..j];
      forall k | j <= k < |s| ensures IsSpace(s[k]) { if k < |s| - 1 { assert s[..|s| - 1][k] == s[k]; } }
    }
  }

  /** The white space characters of Latin-1, and that no letter, digit or hyphen is among them. */
  lemma SpaceCharacters(c: char)
    ensures c as int < 256 ==> (IsSpace(c) <==> c as int in {9, 10, 11, 12, 13, 32, 0x85, 0xA0})
    ensures c as int >= 256 ==>
              (IsSpace(c) <==>
                c as int in {0x1680, 0x2000, 0x2001, 0x2002, 0x2003, 0x2004, 0x2005, 0x2006, 0x2007, 0x2008, 0x2009,
                             0x200A, 0x2028, 0x2029, 0x202F, 0x205F, 0x3000})
  {
  }

  // ---------------------------------------------------------------- UTF-8

  function EncodeChar(c: char): (b: Bytes)
    ensures 1 <= |b| <= 4
  {
    var n := c as int;
    if n < 0x80 then [n as byte]
    else if n < 0x800 then [(192 + n / 64) as byte, (128 + n % 64) as byte]
    else if n < 0x10000 then [(224 + n / 4096) as byte, (128 + n / 64 % 64) as byte, (128 + n % 64) as byte]
    else [(240 + n / 262144) as byte, (128 + n / 4096 % 64) as byte, (128 + n / 64 % 64) as byte,
        (128 + n % 64) as byte]
  }

  function Utf8(s: string): Bytes {
    if s == [] then [] else EncodeChar(s[0]) + Utf8(s[1..])
  }

  /** The scalar value the first bytes of `b` encode. */
  function FirstScalar(b: Bytes): int
    requires b != []
  {
    var h := b[0] as int;
    if h < 128 then h
    else if h < 224 then if |b| < 2 then -1 else (h - 192) * 64 + (b[1] as int - 128)
    else if h < 240 then
      if |b| < 3 then -1 else (h - 224) * 4096 + (b[1] as int - 128) * 64 + (b[2] as int - 128)
    else
      if |b| < 4 then -1
      else (h - 240) * 262144 + (b[1] as int - 128) * 4096 + (b[2] as int - 128) * 64 + (b[3] as int - 128)
  }

  lemma FirstScalarDecodes(c: char, rest: Bytes)
    ensures FirstScalar(EncodeChar(c) + rest) == c as int
  {
    var n, e := c as int, EncodeChar(c);
    var b := e + rest;
    assert b[0] == e[0];
    if 0x80 <= n { assert b[1] == e[1]; }
    if 0x800 <= n { assert b[2] == e[2]; }
    if 0x10000 <= n { assert b[3] == e[3]; }
    SixBitGroups(n);
  }

  lemma SixBitGroups(n: int)
    ensures n == n / 64 * 64 + n % 64
    ensures n / 64 == n / 4096 * 64 + n / 64 % 64
    ensures n / 4096 == n / 262144 * 64 + n / 4096 % 64
  {
  }

  /** UTF-8 is injective on whole strings. */
  lemma {:induction false} Utf8Injective(s: string, t: string)
    requires Utf8(s) == Utf8(t)
    ensures s == t
  {
    if s != [] && t != [] {
      FirstScalarDecodes(s[0], Utf8(s[1..]));
      FirstScalarDecodes(t[0], Utf8(t[1..]));
      assert s[0] == t[0];
      var n := |EncodeChar(s[0])|;
      assert Utf8(s)[n..] == Utf8(s[1..]);
      assert Utf8(t)[n..] == Utf8(t[1..]);
      Utf8Injective(s[1..], t[1..]);
      assert s == [s[0]] + s[1..] && t == [t[0]] + t[1..];
    }
  }

  /** A string never has fewer bytes than characters, and exactly as many when it is ASCII. */
  lemma {:induction false} Utf8Length(s: string)
    ensures |s| <= |Utf8(s)|
    ensures (forall c | c in s :: c as int < 128) ==> |Utf8(s)| == |s|
  {
    if s != [] {
      Utf8Length(s[1..]);
      assert s[0] in s;
      assert forall c | c in s[1..] :: c in s;
    }
  }

  // ---------------------------------------------------------------- decimal

  function Digit(n: int): byte
    requires 0 <= n < 10
  { (48 + n) as byte }

  predicate IsDigit(b: byte) { 48 <= b <= 57 }

  /** strconv.Itoa on a non-negative number. */
  function Decimal(n: nat): (b: Bytes)
    ensures b != [] && forall x | x in b :: IsDigit(x)
  {
    if n < 10 then [Digit(n)] else Decimal(n / 10) + [Digit(n % 10)]
  }

  function DecimalValue(b: Bytes): nat
    requires forall x | x in b :: IsDigit(x)
  {
    if b == [] then 0
    else
      assert IsDigit(b[|b| - 1]);
      DecimalValue(b[..|b| - 1]) * 10 + (b[|b| - 1] as int - 48)
  }

  lemma {:induction false} DecimalRoundTrip(n: nat)
    ensures DecimalValue(Decimal(n)) == n
  {
    if n >= 10 {
      DecimalRoundTrip(n / 10);
      var b := Decimal(n);
      assert b[..|b| - 1] == Decimal(n / 10);
    } else {
      assert Decimal(n)[..0] == [];
    }
  }
}
