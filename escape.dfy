/**
 * The escaping of source addresses (api/http/pub/src/util.go): every
 * character above 127 is replaced by the percent-encoding (section 2.1 of
 * RFC 3986) of its UTF-8 bytes (section 3 of RFC 3629); ASCII characters are
 * kept.
 */
module Escape {
  import opened Ints

  /** The UTF-8 encoding of one Unicode scalar value, in one to four bytes. */
  function Utf8(c: char): (bs: seq<uint8>)
    ensures 1 <= |bs| <= 4
    ensures (c as int < 0x80) <==> |bs| == 1
    ensures |bs| == 1 ==> bs[0] == c as int
    ensures c as int >= 0x80 ==> forall i :: 0 <= i < |bs| ==> bs[i] >= 0x80
    ensures c as int >= 0x80 ==> 0xC0 <= bs[0] && forall i :: 1 <= i < |bs| ==> 0x80 <= bs[i] < 0xC0
  {
    var n := c as int;
    if n < 0x80 then [n]
    else if n < 0x800 then [0xC0 + n / 0x40, 0x80 + n % 0x40]
    else if n < 0x1_0000 then [0xE0 + n / 0x1000, 0x80 + (n / 0x40) % 0x40, 0x80 + n % 0x40]
    else [0xF0 + n / 0x4_0000, 0x80 + (n / 0x1000) % 0x40, 0x80 + (n / 0x40) % 0x40, 0x80 + n % 0x40]
  }

  /** The code point a well-formed UTF-8 sequence of one to four bytes stands for. */
  function Utf8Value(bs: seq<uint8>): int
    requires 1 <= |bs| <= 4
  {
    var b := seq(|bs|, i requires 0 <= i < |bs| => bs[i] as int);
    if |b| == 1 then b[0]
    else if |b| == 2 then (b[0] - 0xC0) * 0x40 + (b[1] - 0x80)
    else if |b| == 3 then (b[0] - 0xE0) * 0x1000 + (b[1] - 0x80) * 0x40 + (b[2] - 0x80)
    else (b[0] - 0xF0) * 0x4_0000 + (b[1] - 0x80) * 0x1000 + (b[2] - 0x80) * 0x40 + (b[3] - 0x80)
  }

  lemma Split64(n: int)
    requires n >= 0
    ensures n == (n / 0x40) * 0x40 + n % 0x40
    ensures n / 0x40 == (n / 0x1000) * 0x40 + (n / 0x40) % 0x40
    ensures n / 0x1000 == (n / 0x4_0000) * 0x40 + (n / 0x1000) % 0x40
  {
    assert n / 0x1000 == (n / 0x40) / 0x40;
    assert n / 0x4_0000 == (n / 0x1000) / 0x40;
  }

  /** Decoding the bytes of a character gives the character back. */
  lemma Utf8RoundTrip(c: char)
    ensures Utf8Value(Utf8(c)) == c as int
  {
    var n := c as int;
    Split64(n);
  }

  /** The upper-case hexadecimal digit of a value below 16. */
  function HexDigit(v: int): (d: char)
    requires 0 <= v < 16
    ensures '0' <= d <= '9' || 'A' <= d <= 'F'
  {
    if v < 10 then ('0' as int + v) as char else ('A' as int + v - 10) as char
  }

  /** `%XX` with two upper-case hexadecimal digits. */
  function PercentByte(b: uint8): (s: string)
    ensures |s| == 3 && s[0] == '%'
  {
    ['%', HexDigit(b / 16), HexDigit(b % 16)]
  }

  /** The percent-encoding of a byte sequence. */
  function PercentEncode(bs: seq<uint8>): (s: string)
    ensures |s| == 3 * |bs|
  {
    if bs == [] then "" else PercentByte(bs[0]) + PercentEncode(bs[1..])
  }

  /** The value of one upper-case hexadecimal digit. */
  function HexValue(d: char): (v: int)
    ensures ('0' <= d <= '9' || 'A' <= d <= 'F') ==> 0 <= v < 16 && HexDigit(v) == d
  {
    if '0' <= d <= '9' then d as int - '0' as int
    else if 'A' <= d <= 'F' then d as int - 'A' as int + 10
    else -1
  }

  /** Reads back the bytes of a percent-encoded string, triple by triple. */
  function PercentDecode(s: string): seq<int>
    decreases |s|
  {
    if |s| < 3 then [] else [HexValue(s[1]) * 16 + HexValue(s[2])] + PercentDecode(s[3..])
  }

  lemma HexByte(b: uint8)
    ensures HexValue(PercentByte(b)[1]) * 16 + HexValue(PercentByte(b)[2]) == b
  {
    assert HexValue(HexDigit(b / 16)) == b / 16;
    assert HexValue(HexDigit(b % 16)) == b % 16;
  }

  /** Percent-decoding undoes percent-encoding. */
  lemma {:induction false} PercentRoundTrip(bs: seq<uint8>)
    ensures PercentDecode(PercentEncode(bs)) == bs
  {
    if bs != [] {
      var s := PercentEncode(bs);
      assert s[3..] == PercentEncode(bs[1..]);
      HexByte(bs[0]);
      PercentRoundTrip(bs[1..]);
    }
  }

  /** The replacement of one character: itself when ASCII, its escaped UTF-8 bytes otherwise. */
  function EscapedChar(c: char): (s: string)
    ensures c as int <= 127 ==> s == [c]
    ensures c as int > 127 ==> s == PercentEncode(Utf8(c)) && 6 <= |s| <= 12
  {
    if c as int > 127 then PercentEncode(Utf8(c)) else [c]
  }

  /** The escaped address: the replacements of its characters, in order. */
  function Escaped(s: string): string {
    if s == [] then "" else EscapedChar(s[0]) + Escaped(s[1..])
  }

  predicate IsAscii(s: string) {
    forall i :: 0 <= i < |s| ==> s[i] as int <= 127
  }

  /** The escape of a prefix grows by the replacement of the next character. */
  lemma EscapedSnoc(s: string, i: nat)
    requires i < |s|
    ensures Escaped(s[..i + 1]) == Escaped(s[..i]) + EscapedChar(s[i])
  {
    assert s[..i + 1] == s[..i] + [s[i]];
    EscapedConcat(s[..i], [s[i]]);
    assert Escaped([s[i]]) == EscapedChar(s[i]) + Escaped([]);
    assert EscapedChar(s[i]) + "" == EscapedChar(s[i]);
  }

  /** `escapeNonAsciiChars` (util.go:5-13). */
  method EscapeNonAsciiChars(src: string) returns (dst: string)
    ensures dst == Escaped(src)
  {
    dst := "";
    var i := 0;
    while i < |src|
      invariant 0 <= i <= |src|
      invariant dst == Escaped(src[..i])
    {
      EscapedSnoc(src, i);
      var c := src[i];
      if c as int > 127 {
        dst := dst + PercentEncode(Utf8(c));
      } else {
        dst := dst + [c];
      }
      i := i + 1;
    }
    assert src[..i] == src;
  }

  /** An escaped character is ASCII: it is kept, or it is '%' and hex digits. */
  lemma EscapedCharIsAscii(c: char)
    ensures IsAscii(EscapedChar(c))
  {
    if c as int > 127 {
      PercentIsAscii(Utf8(c));
    }
  }

  lemma {:induction false} PercentIsAscii(bs: seq<uint8>)
    ensures IsAscii(PercentEncode(bs))
  {
    if bs != [] {
      PercentIsAscii(bs[1..]);
      var p := PercentByte(bs[0]);
      assert IsAscii(p);
      AsciiConcat(p, PercentEncode(bs[1..]));
    }
  }

  lemma AsciiConcat(a: string, b: string)
    requires IsAscii(a) && IsAscii(b)
    ensures IsAscii(a + b)
  {
    forall i | 0 <= i < |a + b|
      ensures (a + b)[i] as int <= 127
    {
      if i >= |a| {
        assert (a + b)[i] == b[i - |a|];
      }
    }
  }

  /** The escaped address is ASCII. */
  lemma {:induction false} EscapedIsAscii(s: string)
    ensures IsAscii(Escaped(s))
  {
    if s != [] {
      EscapedCharIsAscii(s[0]);
      EscapedIsAscii(s[1..]);
      AsciiConcat(EscapedChar(s[0]), Escaped(s[1..]));
    }
  }

  /** An ASCII address, '%' included, is left unchanged. */
  lemma {:induction false} AsciiUnchanged(s: string)
    requires IsAscii(s)
    ensures Escaped(s) == s
  {
    if s != [] {
      assert IsAscii(s[1..]) by {
        forall i | 0 <= i < |s[1..]| ensures s[1..][i] as int <= 127 {
          assert s[1..][i] == s[i + 1];
        }
      }
      AsciiUnchanged(s[1..]);
      assert s == [s[0]] + s[1..];
    }
  }

  /** Escaping twice is escaping once. */
  lemma EscapeIdempotent(s: string)
    ensures Escaped(Escaped(s)) == Escaped(s)
  {
    EscapedIsAscii(s);
    AsciiUnchanged(Escaped(s));
  }

  /** An escaped address followed by another is the escape of both together. */
  lemma {:induction false} EscapedConcat(a: string, b: string)
    ensures Escaped(a + b) == Escaped(a) + Escaped(b)
  {
    if a != [] {
      assert (a + b)[1..] == a[1..] + b;
      EscapedConcat(a[1..], b);
    } else {
      assert a + b == b;
    }
  }

  /** Examples: "é" (U+00E9) becomes "%C3%A9", and "€" (U+20AC) becomes "%E2%82%AC". */
  lemma EscapeExamples()
    ensures EscapedChar('é') == "%C3%A9"
    ensures EscapedChar('€') == "%E2%82%AC"
  {
    assert Utf8('é') == [0xC3, 0xA9];
    assert Utf8('€') == [0xE2, 0x82, 0xAC];
  }
}
