/** The byte-level building blocks of the back end's hashing: `Encoding.UTF8.GetBytes`,
    `Convert.ToHexString` and `CryptographicOperations.FixedTimeEquals`. */
module Encoding {
  import opened Text

  type Byte = b: int | 0 <= b < 256

  /** The UTF-8 encoding of one Unicode scalar value: one to four bytes, the
      lead byte carrying the high bits and each continuation byte six more. */
  function EncodeChar(c: char): (r: seq<Byte>)
    ensures 1 <= |r| <= 4
    ensures |r| == LeadLength(r[0])
  {
    var cp := c as int;
    var c1 := cp / 64;
    var c2 := c1 / 64;
    var c3 := c2 / 64;
    if cp < 0x80 then
      [cp]
    else if cp < 0x800 then
      [0xC0 + c1, 0x80 + cp % 64]
    else if cp < 0x1_0000 then
      [0xE0 + c2, 0x80 + c1 % 64, 0x80 + cp % 64]
    else
      [0xF0 + c3, 0x80 + c2 % 64, 0x80 + c1 % 64, 0x80 + cp % 64]
  }

  /** The length of an encoded character, read off its lead byte. */
  function LeadLength(b: Byte): nat {
    if b < 0x80 then 1 else if b < 0xE0 then 2 else if b < 0xF0 then 3 else 4
  }

  /** The code point an encoded character stands for. */
  function DecodeChar(bs: seq<Byte>): int
    requires 1 <= |bs| <= 4
  {
    if |bs| == 1 then bs[0] as int
    else if |bs| == 2 then (bs[0] as int - 0xC0) * 64 + (bs[1] as int - 0x80)
    else if |bs| == 3 then ((bs[0] as int - 0xE0) * 64 + (bs[1] as int - 0x80)) * 64 + (bs[2] as int - 0x80)
    else (((bs[0] as int - 0xF0) * 64 + (bs[1] as int - 0x80)) * 64 + (bs[2] as int - 0x80)) * 64 + (bs[3] as int - 0x80)
  }

  lemma SplitBy64(x: int)
    ensures x == (x / 64) * 64 + x % 64
  {
  }

  /** Decoding undoes the encoding of a character. */
  lemma DecodeEncodeChar(c: char)
    ensures DecodeChar(EncodeChar(c)) == c as int
  {
    var cp := c as int;
    SplitBy64(cp);
    SplitBy64(cp / 64);
    SplitBy64(cp / 64 / 64);
  }

  /** Two characters with the same encoding are the same character. */
  lemma EncodeCharInjective(a: char, b: char)
    requires EncodeChar(a) == EncodeChar(b)
    ensures a == b
  {
    DecodeEncodeChar(a);
    DecodeEncodeChar(b);
  }

  /** `Encoding.UTF8.GetBytes(s)`. */
  function Utf8(s: string): (r: seq<Byte>)
    ensures |r| >= |s|
    ensures r == [] <==> s == []
  {
    if s == [] then [] else EncodeChar(s[0]) + Utf8(s[1..])
  }

  /** UTF-8 is injective: different strings never encode to the same bytes. */
  lemma {:induction false} Utf8Injective(a: string, b: string)
    requires Utf8(a) == Utf8(b)
    ensures a == b
    decreases |a|
  {
    if a != [] {
      var ea, eb := EncodeChar(a[0]), EncodeChar(b[0]);
      assert Utf8(a) == ea + Utf8(a[1..]) && Utf8(b) == eb + Utf8(b[1..]);
      assert ea[0] == Utf8(a)[0] == eb[0];
      assert |ea| == |eb|;
      assert ea == Utf8(a)[..|ea|] == eb;
      EncodeCharInjective(a[0], b[0]);
      assert Utf8(a[1..]) == Utf8(a)[|ea|..] == Utf8(b[1..]);
      Utf8Injective(a[1..], b[1..]);
      assert a == [a[0]] + a[1..];
      assert b == [b[0]] + b[1..];
    }
  }

  /** `CryptographicOperations.FixedTimeEquals`: equal lengths and equal bytes. */
  predicate FixedTimeEquals(left: seq<Byte>, right: seq<Byte>) {
    |left| == |right| && forall i :: 0 <= i < |left| ==> left[i] == right[i]
  }

  lemma FixedTimeEqualsIsEquality(left: seq<Byte>, right: seq<Byte>)
    ensures FixedTimeEquals(left, right) <==> left == right
  {
    if FixedTimeEquals(left, right) {
      assert left == right;
    }
  }

  const UpperDigits: string := "0123456789ABCDEF"
  const LowerDigits: string := "0123456789abcdef"

  /** `Convert.ToHexString`: two upper-case digits per byte, high nibble first. */
  function HexUpper(bs: seq<Byte>): (r: string)
    ensures |r| == 2 * |bs|
  {
    seq(2 * |bs|, i requires 0 <= i < 2 * |bs| =>
      UpperDigits[if i % 2 == 0 then bs[i / 2] / 16 else bs[i / 2] % 16])
  }

  /** No hexadecimal digit is white space. */
  lemma UpperDigitNotWhiteSpace(d: nat)
    requires d < 16
    ensures !IsWhiteSpace(UpperDigits[d])
  {
  }

  /** The rendering has no white space at either end. */
  lemma HexUpperIsTrimmed(bs: seq<Byte>)
    ensures IsTrimmed(HexUpper(bs))
  {
    if bs != [] {
      var r, last := HexUpper(bs), 2 * |bs| - 1;
      assert last % 2 == 1 && last / 2 == |bs| - 1;
      UpperDigitNotWhiteSpace(bs[0] / 16);
      UpperDigitNotWhiteSpace(bs[|bs| - 1] % 16);
      assert r[0] == UpperDigits[bs[0] / 16];
      assert r[last] == UpperDigits[bs[|bs| - 1] % 16];
    }
  }

  /** The lower-case hexadecimal rendering that GitHub's signature header carries. */
  function HexLower(bs: seq<Byte>): (r: string)
    ensures |r| == 2 * |bs|
  {
    seq(2 * |bs|, i requires 0 <= i < 2 * |bs| =>
      LowerDigits[if i % 2 == 0 then bs[i / 2] / 16 else bs[i / 2] % 16])
  }

  /** `Convert.ToHexString(bytes).ToLowerInvariant()` is the lower-case rendering. */
  lemma LowerOfHexUpper(bs: seq<Byte>)
    ensures ToLower(HexUpper(bs)) == HexLower(bs)
  {
    var u, l := HexUpper(bs), HexLower(bs);
    forall i | 0 <= i < |u|
      ensures ToLower(u)[i] == l[i]
    {
      var d := if i % 2 == 0 then bs[i / 2] / 16 else bs[i / 2] % 16;
      assert u[i] == UpperDigits[d] && l[i] == LowerDigits[d];
    }
  }

  /** The value of a lower-case hexadecimal digit. */
  function LowerDigitValue(c: char): (v: nat)
    ensures v < 16
  {
    if '0' <= c <= '9' then c as int - '0' as int
    else if 'a' <= c <= 'f' then c as int - 'a' as int + 10
    else 0
  }

  /** Reading a lower-case hexadecimal string back into bytes, two digits at a time. */
  function ParseHexLower(s: string): (r: seq<Byte>)
    requires |s| % 2 == 0
    ensures |r| == |s| / 2
  {
    seq(|s| / 2, j requires 0 <= j < |s| / 2 =>
      LowerDigitValue(s[2 * j]) * 16 + LowerDigitValue(s[2 * j + 1]))
  }

  lemma LowerDigitRoundTrip(d: nat)
    requires d < 16
    ensures LowerDigitValue(LowerDigits[d]) == d
  {
  }

  /** The lower-case rendering loses nothing: the bytes can be read back from it. */
  lemma ParseHexLowerRoundTrip(bs: seq<Byte>)
    ensures ParseHexLower(HexLower(bs)) == bs
  {
    forall j | 0 <= j < |bs|
      ensures ParseHexLower(HexLower(bs))[j] == bs[j]
    {
      ParsedByte(bs, j);
    }
  }

  /** Byte `j` is read back from its two digits. */
  lemma ParsedByte(bs: seq<Byte>, j: nat)
    requires j < |bs|
    ensures ParseHexLower(HexLower(bs))[j] == bs[j]
  {
    var h := HexLower(bs);
    var hi, lo := bs[j] / 16, bs[j] % 16;
    DigitPositions(j);
    assert h[2 * j] == LowerDigits[hi];
    assert h[2 * j + 1] == LowerDigits[lo];
    LowerDigitRoundTrip(hi);
    LowerDigitRoundTrip(lo);
    assert ParseHexLower(h)[j] == LowerDigitValue(h[2 * j]) * 16 + LowerDigitValue(h[2 * j + 1]);
  }

  /** Byte `j` is rendered at positions `2 * j` (high nibble) and `2 * j + 1`. */
  lemma DigitPositions(j: nat)
    ensures (2 * j) % 2 == 0 && (2 * j) / 2 == j
    ensures (2 * j + 1) % 2 == 1 && (2 * j + 1) / 2 == j
  {
  }

  /** Hence two byte strings with the same lower-case rendering are equal. */
  lemma HexLowerInjective(a: seq<Byte>, b: seq<Byte>)
    requires HexLower(a) == HexLower(b)
    ensures a == b
  {
    ParseHexLowerRoundTrip(a);
    ParseHexLowerRoundTrip(b);
  }
}
