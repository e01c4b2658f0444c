// append_utf8 and the "\u" escape against sections 3 and 4 of RFC 3629.

module Utf8Encoding {
  import opened Basics
  import opened JsonParser

  predicate Tail(c: byte) {
    0x80 <= c as int <= 0xBF
  }

  // UTF8-char of section 4: the only byte sequences that encode one code point.
  predicate WellFormed(b: bytes) {
    if |b| == 1 then b[0] as int <= 0x7F
    else if |b| == 2 then 0xC2 <= b[0] as int <= 0xDF && Tail(b[1])
    else if |b| == 3 then
      Tail(b[1]) && Tail(b[2]) && 0xE0 <= b[0] as int <= 0xEF &&
      (b[0] as int == 0xE0 ==> 0xA0 <= b[1] as int) && (b[0] as int == 0xED ==> b[1] as int <= 0x9F)
    else if |b| == 4 then
      Tail(b[1]) && Tail(b[2]) && Tail(b[3]) && 0xF0 <= b[0] as int <= 0xF4 &&
      (b[0] as int == 0xF0 ==> 0x90 <= b[1] as int) && (b[0] as int == 0xF4 ==> b[1] as int <= 0x8F)
    else false
  }

  // The bits of section 3: the free bits of the first byte, then six per tail byte.
  function CodePoint(b: bytes): int
    requires WellFormed(b)
  {
    if |b| == 1 then b[0] as int
    else if |b| == 2 then (b[0] as int - 0xC0) * 64 + Low(b[1])
    else if |b| == 3 then (b[0] as int - 0xE0) * 4096 + Low(b[1]) * 64 + Low(b[2])
    else (b[0] as int - 0xF0) * 262144 + Low(b[1]) * 4096 + Low(b[2]) * 64 + Low(b[3])
  }

  function Low(c: byte): int {
    c as int - 0x80
  }

  predicate IsScalar(cp: int) {
    0 <= cp < 0x11_0000 && !(0xD800 <= cp <= 0xDFFF)
  }

  // append_utf8 emits the well-formed encoding of every scalar value ...
  lemma {:induction false} EncodesScalar(cp: nat)
    requires IsScalar(cp)
    ensures WellFormed(Utf8(cp)) && CodePoint(Utf8(cp)) == cp
  {
    SixBits(cp);
    if cp > 0xFFFF { SixBits(cp / 64); }
    SixBits(cp / 64);
  }

  lemma {:induction false} SixBits(n: nat)
    ensures n == n / 64 * 64 + n % 64 && n / 64 / 64 == n / 4096 && n / 4096 / 64 == n / 262144
  {
  }

  // ... and there is no other encoding: the correspondence is one to one.
  lemma {:induction false} EncodingUnique(b: bytes)
    requires WellFormed(b)
    ensures IsScalar(CodePoint(b)) && Utf8(CodePoint(b)) == b
  {
    if |b| == 2 { UniqueTwo(b); }
    if |b| == 3 { UniqueThree(b); }
    if |b| == 4 { UniqueFour(b); }
  }

  lemma {:induction false} UniqueTwo(b: bytes)
    requires |b| == 2 && WellFormed(b)
    ensures IsScalar(CodePoint(b)) && Utf8(CodePoint(b)) == b
  {
    Split(b[0] as int - 0xC0, Low(b[1]));
  }

  lemma {:induction false} UniqueThree(b: bytes)
    requires |b| == 3 && WellFormed(b)
    ensures IsScalar(CodePoint(b)) && Utf8(CodePoint(b)) == b
  {
    var cp := CodePoint(b);
    Split((b[0] as int - 0xE0) * 64 + Low(b[1]), Low(b[2]));
    Split(b[0] as int - 0xE0, Low(b[1]));
    SixBits(cp);
    assert 0x800 <= cp <= 0xFFFF;
    assert Utf8(cp)[0] as int == b[0] as int;
    assert Utf8(cp)[1] as int == b[1] as int;
    assert Utf8(cp)[2] as int == b[2] as int;
  }

  lemma {:induction false} UniqueFour(b: bytes)
    requires |b| == 4 && WellFormed(b)
    ensures IsScalar(CodePoint(b)) && Utf8(CodePoint(b)) == b
  {
    var cp := CodePoint(b);
    Split((b[0] as int - 0xF0) * 4096 + Low(b[1]) * 64 + Low(b[2]), Low(b[3]));
    Split((b[0] as int - 0xF0) * 64 + Low(b[1]), Low(b[2]));
    Split(b[0] as int - 0xF0, Low(b[1]));
    SixBits(cp);
    SixBits(cp / 64);
    assert 0x1_0000 <= cp < 0x11_0000;
    assert Utf8(cp)[0] as int == b[0] as int;
    assert Utf8(cp)[1] as int == b[1] as int;
    assert Utf8(cp)[2] as int == b[2] as int;
    assert Utf8(cp)[3] as int == b[3] as int;
  }

  lemma {:induction false} Split(high: int, low: int)
    requires 0 <= low < 64
    ensures (high * 64 + low) / 64 == high && (high * 64 + low) % 64 == low
  {
  }

  // The number four hex digits spell, most significant first.
  function HexNumber(s: bytes): int
    requires |s| >= 4
  {
    HexValue(s[0]) * 4096 + HexValue(s[1]) * 256 + HexValue(s[2]) * 16 + HexValue(s[3])
  }

  predicate FourHexDigits(s: bytes) {
    |s| >= 4 && HexValue(s[0]) >= 0 && HexValue(s[1]) >= 0 && HexValue(s[2]) >= 0 && HexValue(s[3]) >= 0
  }

  lemma {:induction false} HexPrefixNumber(s: bytes)
    requires |s| >= 4
    ensures HexPrefix(s, 4) == if FourHexDigits(s) then Some(HexNumber(s)) else None
  {
    assert HexPrefix(s, 0) == Some(0);
    assert HexPrefix(s, 1) == if HexValue(s[0]) < 0 then None else Some(HexValue(s[0]));
    assert HexPrefix(s, 2).Some? ==> HexPrefix(s, 2).value == HexValue(s[0]) * 16 + HexValue(s[1]);
    assert HexPrefix(s, 3).Some? ==>
        HexPrefix(s, 3).value == HexValue(s[0]) * 256 + HexValue(s[1]) * 16 + HexValue(s[2]);
  }

  // A \u escape is accepted exactly when it spells a scalar value of the basic
  // plane in hex; it contributes that value's one well-formed encoding.
  lemma {:induction false} UnicodeEscapeDecodes(s: bytes)
    ensures UnicodeEscape(s).Got? <==> FourHexDigits(s) && IsScalar(HexNumber(s))
    ensures UnicodeEscape(s).Got? ==>
              var r := UnicodeEscape(s);
              WellFormed(r.value) && CodePoint(r.value) == HexNumber(s) && r.rest == s[4..]
  {
    if |s| >= 4 {
      HexPrefixNumber(s);
      if FourHexDigits(s) {
        HexPrefixBound(s, 4);
        if IsScalar(HexNumber(s)) { EncodesScalar(HexNumber(s)); }
      }
    }
  }
}
