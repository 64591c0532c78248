/**
 * Go's `base64.StdEncoding.DecodeString`: the standard alphabet of section 4
 * of RFC 4648 with `=` padding. Carriage returns and line feeds are skipped
 * wherever they occur; after skipping them the input must be whole 4-character
 * quanta; `=` may only end the final quantum, as `xx==` or `xxx=`; the
 * encoding is not strict, so unused low bits of a padded quantum are ignored.
 */
module Base64 {
  import opened Wrappers
  import opened Ints

  /** The value of an alphabet character. */
  function Value(c: char): (r: Option<nat>)
    ensures r.Some? ==> r.value < 64
  {
    if 'A' <= c <= 'Z' then Some(c as int - 'A' as int)
    else if 'a' <= c <= 'z' then Some(c as int - 'a' as int + 26)
    else if '0' <= c <= '9' then Some(c as int - '0' as int + 52)
    else if c == '+' then Some(62)
    else if c == '/' then Some(63)
    else None
  }

  /** The alphabet character of a 6-bit value. */
  function Char(n: nat): (c: char)
    requires n < 64
    ensures Value(c) == Some(n)
  {
    if n < 26 then ('A' as int + n) as char
    else if n < 52 then ('a' as int + n - 26) as char
    else if n < 62 then ('0' as int + n - 52) as char
    else if n == 62 then '+'
    else '/'
  }

  predicate InAlphabet(c: char) {
    Value(c).Some?
  }

  /** The input with every '\r' and '\n' removed. */
  function StripNewlines(s: string): (r: string)
    ensures forall i :: 0 <= i < |r| ==> r[i] != '\r' && r[i] != '\n'
    ensures |r| <= |s|
  {
    if s == [] then []
    else if s[0] == '\r' || s[0] == '\n' then StripNewlines(s[1..])
    else [s[0]] + StripNewlines(s[1..])
  }

  /** Three bytes from four 6-bit values (big-endian bit order). */
  function Bytes3(v0: nat, v1: nat, v2: nat, v3: nat): seq<uint8>
    requires v0 < 64 && v1 < 64 && v2 < 64 && v3 < 64
  {
    [v0 * 4 + v1 / 16, (v1 % 16) * 16 + v2 / 4, (v2 % 4) * 64 + v3]
  }

  /** One 4-character quantum; padding is accepted only in the last one. */
  function Quantum(q: string, last: bool): (r: Option<seq<uint8>>)
    requires |q| == 4
    ensures r.Some? ==> 1 <= |r.value| <= 3
    ensures r.Some? && |r.value| < 3 ==> last
  {
    if InAlphabet(q[0]) && InAlphabet(q[1]) && InAlphabet(q[2]) && InAlphabet(q[3]) then
      Some(Bytes3(Value(q[0]).value, Value(q[1]).value, Value(q[2]).value, Value(q[3]).value))
    else if last && InAlphabet(q[0]) && InAlphabet(q[1]) && q[2] == '=' && q[3] == '=' then
      Some(Bytes3(Value(q[0]).value, Value(q[1]).value, 0, 0)[..1])
    else if last && InAlphabet(q[0]) && InAlphabet(q[1]) && InAlphabet(q[2]) && q[3] == '=' then
      Some(Bytes3(Value(q[0]).value, Value(q[1]).value, Value(q[2]).value, 0)[..2])
    else None
  }

  /** The quanta of the input in order; an incomplete final quantum is an error. */
  function DecodeQuanta(t: string): (r: Option<seq<uint8>>)
    decreases |t|
  {
    if t == [] then Some([])
    else if |t| < 4 then None
    else
      match Quantum(t[..4], |t| == 4)
      case None => None
      case Some(bs) =>
        match DecodeQuanta(t[4..])
        case None => None
        case Some(rest) => Some(bs + rest)
  }

  /** `StdEncoding.DecodeString`; `None` stands for a `CorruptInputError`. */
  function DecodeString(s: string): (r: Option<seq<uint8>>) {
    DecodeQuanta(StripNewlines(s))
  }

  /** Input that is not whole quanta once line breaks are skipped fails. */
  lemma {:induction false} IncompleteQuantum(t: string)
    requires |t| % 4 != 0
    ensures DecodeQuanta(t).None?
    decreases |t|
  {
    if |t| >= 4 {
      IncompleteQuantum(t[4..]);
    }
  }

  /** Three bytes as a full quantum. */
  function FullQuantum(b0: uint8, b1: uint8, b2: uint8): (q: string) {
    [Char(b0 / 4), Char((b0 % 4) * 16 + b1 / 16), Char((b1 % 16) * 4 + b2 / 64), Char(b2 % 64)]
  }

  /** Two final bytes as a quantum with one padding character. */
  function PadOne(b0: uint8, b1: uint8): (q: string) {
    [Char(b0 / 4), Char((b0 % 4) * 16 + b1 / 16), Char((b1 % 16) * 4), '=']
  }

  /** One final byte as a quantum with two padding characters. */
  function PadTwo(b0: uint8): (q: string) {
    [Char(b0 / 4), Char((b0 % 4) * 16), '=', '=']
  }

  /** `StdEncoding.EncodeToString`, the partner of the decoder. */
  function Encode(b: seq<uint8>): (s: string)
    decreases |b|
  {
    if |b| == 0 then ""
    else if |b| == 1 then PadTwo(b[0])
    else if |b| == 2 then PadOne(b[0], b[1])
    else FullQuantum(b[0], b[1], b[2]) + Encode(b[3..])
  }

  /** The encoding consists of alphabet characters and padding. */
  lemma {:induction false} EncodeShape(b: seq<uint8>)
    ensures forall i :: 0 <= i < |Encode(b)| ==> InAlphabet(Encode(b)[i]) || Encode(b)[i] == '='
    decreases |b|
  {
    if |b| >= 3 {
      EncodeShape(b[3..]);
    }
  }

  lemma StripNoNewlines(s: string)
    requires forall i :: 0 <= i < |s| ==> s[i] != '\r' && s[i] != '\n'
    ensures StripNewlines(s) == s
  {
    if s != [] {
      assert s == [s[0]] + s[1..];
      StripNoNewlines(s[1..]);
    }
  }

  /** The bit arithmetic of one quantum: regrouping 8-bit values into 6-bit ones and back is the identity. */
  lemma Regroup(b0: uint8, b1: uint8, b2: uint8)
    ensures Bytes3(b0 / 4, (b0 % 4) * 16 + b1 / 16, (b1 % 16) * 4 + b2 / 64, b2 % 64) == [b0, b1, b2]
    ensures Bytes3(b0 / 4, (b0 % 4) * 16 + b1 / 16, (b1 % 16) * 4, 0)[..2] == [b0, b1]
    ensures Bytes3(b0 / 4, (b0 % 4) * 16, 0, 0)[..1] == [b0]
  {
    assert ((b0 % 4) * 16 + b1 / 16) / 16 == b0 % 4;
    assert ((b0 % 4) * 16 + b1 / 16) % 16 == b1 / 16;
    assert ((b1 % 16) * 4 + b2 / 64) / 4 == b1 % 16;
    assert ((b1 % 16) * 4 + b2 / 64) % 4 == b2 / 64;
    assert ((b0 % 4) * 16) / 16 == b0 % 4;
  }

  /** The last quantum decodes with padding allowed. */
  lemma DecodeQuantaLast(q: string)
    requires |q| == 4
    ensures DecodeQuanta(q) == Quantum(q, true)
  {
    assert q[..4] == q && q[4..] == [];
    assert DecodeQuanta(q[4..]) == Some([]);
    if Quantum(q, true).Some? {
      assert Quantum(q, true).value + [] == Quantum(q, true).value;
    }
  }

  /** Four characters with the given values, the last `pad` of them replaced by padding, decode as one quantum. */
  lemma QuantumOf(c0: char, c1: char, c2: char, c3: char, v0: nat, v1: nat, v2: nat, v3: nat, last: bool)
    requires Value(c0) == Some(v0) && Value(c1) == Some(v1) && Value(c2) == Some(v2) && Value(c3) == Some(v3)
    ensures Quantum([c0, c1, c2, c3], last) == Some(Bytes3(v0, v1, v2, v3))
    ensures Quantum([c0, c1, c2, '='], true) == Some(Bytes3(v0, v1, v2, 0)[..2])
    ensures Quantum([c0, c1, '=', '='], true) == Some(Bytes3(v0, v1, 0, 0)[..1])
  {
    assert !InAlphabet('=');
  }

  /** A full quantum decodes to the three bytes it encodes. */
  lemma QuantumFull(b0: uint8, b1: uint8, b2: uint8, last: bool)
    ensures Quantum(FullQuantum(b0, b1, b2), last) == Some([b0, b1, b2])
  {
    var v0, v1, v2, v3 := b0 / 4, (b0 % 4) * 16 + b1 / 16, (b1 % 16) * 4 + b2 / 64, b2 % 64;
    QuantumOf(Char(v0), Char(v1), Char(v2), Char(v3), v0, v1, v2, v3, last);
    Regroup(b0, b1, b2);
  }

  /** A quantum with one padding character decodes to the two bytes it encodes. */
  lemma QuantumPadOne(b0: uint8, b1: uint8)
    ensures Quantum(PadOne(b0, b1), true) == Some([b0, b1])
  {
    var v0, v1, v2 := b0 / 4, (b0 % 4) * 16 + b1 / 16, (b1 % 16) * 4;
    QuantumOf(Char(v0), Char(v1), Char(v2), Char(0), v0, v1, v2, 0, true);
    Regroup(b0, b1, 0);
  }

  /** A quantum with two padding characters decodes to the byte it encodes. */
  lemma QuantumPadTwo(b0: uint8)
    ensures Quantum(PadTwo(b0), true) == Some([b0])
  {
    var v0, v1 := b0 / 4, (b0 % 4) * 16;
    QuantumOf(Char(v0), Char(v1), Char(0), Char(0), v0, v1, 0, 0, true);
    Regroup(b0, 0, 0);
  }

  lemma {:induction false} DecodeQuantaEncode(b: seq<uint8>)
    ensures DecodeQuanta(Encode(b)) == Some(b)
    decreases |b|
  {
    if |b| == 1 {
      QuantumPadTwo(b[0]);
      DecodeQuantaLast(Encode(b));
      assert [b[0]] == b;
    } else if |b| == 2 {
      QuantumPadOne(b[0], b[1]);
      DecodeQuantaLast(Encode(b));
      assert [b[0], b[1]] == b;
    } else if |b| >= 3 {
      DecodeQuantaEncode(b[3..]);
      DecodeEncodeStep(b);
    }
  }

  /** A full quantum followed by the encoding of the rest decodes to its three bytes followed by the rest. */
  lemma DecodeEncodeStep(b: seq<uint8>)
    requires |b| >= 3 && DecodeQuanta(Encode(b[3..])) == Some(b[3..])
    ensures DecodeQuanta(Encode(b)) == Some(b)
  {
    var q, rest := FullQuantum(b[0], b[1], b[2]), Encode(b[3..]);
    QuantumFull(b[0], b[1], b[2], rest == []);
    assert (q + rest)[..4] == q && (q + rest)[4..] == rest;
    SplitFirstThree(b);
  }

  lemma SplitFirstThree<T>(b: seq<T>)
    requires |b| >= 3
    ensures b == [b[0], b[1], b[2]] + b[3..]
  {
  }

  /** Decoding undoes encoding for every byte string. */
  lemma DecodeEncode(b: seq<uint8>)
    ensures DecodeString(Encode(b)) == Some(b)
  {
    EncodeShape(b);
    StripNoNewlines(Encode(b));
    DecodeQuantaEncode(b);
  }

  /** A quantum that is not the last decodes on its own. */
  lemma DecodeQuantaCons(q: string, t: string)
    requires |q| == 4 && t != []
    ensures DecodeQuanta(q + t) ==
      match Quantum(q, false)
      case None => None
      case Some(bs) => (match DecodeQuanta(t) case None => None case Some(rest) => Some(bs + rest))
  {
    assert (q + t)[..4] == q && (q + t)[4..] == t;
  }

  /** Concatenation of a sequence of sequences. */
  function Concat<T>(xs: seq<seq<T>>): seq<T> {
    if xs == [] then [] else xs[0] + Concat(xs[1..])
  }

  /** Decoding works quantum by quantum: whole quanta decode to the concatenation of their bytes. */
  lemma {:induction false} DecodeByQuanta(qs: seq<string>, bs: seq<seq<uint8>>)
    requires |qs| == |bs| > 0
    requires forall i :: 0 <= i < |qs| ==> |qs[i]| == 4 && Quantum(qs[i], i == |qs| - 1) == Some(bs[i])
    ensures DecodeQuanta(Concat(qs)) == Some(Concat(bs))
    decreases |qs|
  {
    if |qs| == 1 {
      assert Concat(qs) == qs[0] + [] == qs[0];
      assert Concat(bs) == bs[0] + [] == bs[0];
      DecodeQuantaLast(qs[0]);
    } else {
      DecodeByQuanta(qs[1..], bs[1..]);
      DecodeQuantaCons(qs[0], Concat(qs[1..]));
    }
  }

  /** The nine quanta of the sample attribute of the event decoding test. */
  function SampleQuanta(): seq<string> {
    ["TWFu", "eSBo", "YW5k", "cyBt", "YWtl", "IGxp", "Z2h0", "IHdv", "cmsu"]
  }

  /** The bytes each sample quantum carries: the ASCII codes of "Many hands make light work.". */
  function SampleChunks(): seq<seq<uint8>> {
    [[77, 97, 110], [121, 32, 104], [97, 110, 100], [115, 32, 109], [97, 107, 101],
     [32, 108, 105], [103, 104, 116], [32, 119, 111], [114, 107, 46]]
  }

  lemma SampleQuantaLow()
    ensures Quantum(SampleQuanta()[0], false) == Some(SampleChunks()[0])
    ensures Quantum(SampleQuanta()[1], false) == Some(SampleChunks()[1])
    ensures Quantum(SampleQuanta()[2], false) == Some(SampleChunks()[2])
  {
  }

  lemma SampleQuantaMid()
    ensures Quantum(SampleQuanta()[3], false) == Some(SampleChunks()[3])
    ensures Quantum(SampleQuanta()[4], false) == Some(SampleChunks()[4])
    ensures Quantum(SampleQuanta()[5], false) == Some(SampleChunks()[5])
  {
  }

  lemma SampleQuantaHigh()
    ensures Quantum(SampleQuanta()[6], false) == Some(SampleChunks()[6])
    ensures Quantum(SampleQuanta()[7], false) == Some(SampleChunks()[7])
    ensures Quantum(SampleQuanta()[8], true) == Some(SampleChunks()[8])
  {
  }

  /** Concatenating quanta free of line breaks gives a string free of line breaks. */
  lemma {:induction false} ConcatNoNewlines(qs: seq<string>)
    requires forall i, j :: 0 <= i < |qs| && 0 <= j < |qs[i]| ==> qs[i][j] != '\r' && qs[i][j] != '\n'
    ensures forall k :: 0 <= k < |Concat(qs)| ==> Concat(qs)[k] != '\r' && Concat(qs)[k] != '\n'
  {
    if qs != [] {
      ConcatNoNewlines(qs[1..]);
      var s := Concat(qs);
      assert s == qs[0] + Concat(qs[1..]);
      forall k | 0 <= k < |s| ensures s[k] != '\r' && s[k] != '\n' {
        if k >= |qs[0]| {
          assert s[k] == Concat(qs[1..])[k - |qs[0]|];
        }
      }
    }
  }

  /** A quantum that decodes consists of alphabet characters and padding. */
  lemma QuantumChars(q: string, last: bool)
    requires |q| == 4 && Quantum(q, last).Some?
    ensures forall j :: 0 <= j < |q| ==> InAlphabet(q[j]) || q[j] == '='
  {
  }

  /** A quantum that decodes holds no line break. */
  lemma QuantumNoNewlines(q: string, last: bool)
    requires |q| == 4 && Quantum(q, last).Some?
    ensures forall j :: 0 <= j < |q| ==> q[j] != '\r' && q[j] != '\n'
  {
    QuantumChars(q, last);
    assert !InAlphabet('\r') && !InAlphabet('\n');
  }

  /** Quanta that decode concatenate to a string free of line breaks. */
  lemma QuantaNoNewlines(qs: seq<string>, bs: seq<seq<uint8>>)
    requires |qs| == |bs|
    requires forall i :: 0 <= i < |qs| ==> |qs[i]| == 4 && Quantum(qs[i], i == |qs| - 1) == Some(bs[i])
    ensures forall k :: 0 <= k < |Concat(qs)| ==> Concat(qs)[k] != '\r' && Concat(qs)[k] != '\n'
  {
    forall i, j | 0 <= i < |qs| && 0 <= j < |qs[i]| ensures qs[i][j] != '\r' && qs[i][j] != '\n' {
      QuantumNoNewlines(qs[i], i == |qs| - 1);
    }
    ConcatNoNewlines(qs);
  }

  /**
   * The sample attribute of the event decoding test, the concatenation of the
   * nine quanta "TWFu" ... "cmsu", decodes to "Many hands make light work.".
   */
  lemma SampleBytes()
    ensures DecodeString(Concat(SampleQuanta())) == Some(Concat(SampleChunks()))
  {
    SampleQuantaLow();
    SampleQuantaMid();
    SampleQuantaHigh();
    SampleQuantaAll();
    DecodeByQuanta(SampleQuanta(), SampleChunks());
    QuantaNoNewlines(SampleQuanta(), SampleChunks());
    StripNoNewlines(Concat(SampleQuanta()));
  }

  lemma SampleQuantaAll()
    requires Quantum(SampleQuanta()[0], false) == Some(SampleChunks()[0])
    requires Quantum(SampleQuanta()[1], false) == Some(SampleChunks()[1])
    requires Quantum(SampleQuanta()[2], false) == Some(SampleChunks()[2])
    requires Quantum(SampleQuanta()[3], false) == Some(SampleChunks()[3])
    requires Quantum(SampleQuanta()[4], false) == Some(SampleChunks()[4])
    requires Quantum(SampleQuanta()[5], false) == Some(SampleChunks()[5])
    requires Quantum(SampleQuanta()[6], false) == Some(SampleChunks()[6])
    requires Quantum(SampleQuanta()[7], false) == Some(SampleChunks()[7])
    requires Quantum(SampleQuanta()[8], true) == Some(SampleChunks()[8])
    ensures forall i :: 0 <= i < |SampleQuanta()| ==>
              |SampleQuanta()[i]| == 4 && Quantum(SampleQuanta()[i], i == |SampleQuanta()| - 1) == Some(SampleChunks()[i])
  {
    var qs := SampleQuanta();
    forall i | 0 <= i < |qs|
      ensures |qs[i]| == 4 && Quantum(qs[i], i == |qs| - 1) == Some(SampleChunks()[i])
    {
      if i == 0 {} else if i == 1 {} else if i == 2 {} else if i == 3 {} else if i == 4 {}
      else if i == 5 {} else if i == 6 {} else if i == 7 {} else {}
    }
  }

  /** Padding ends the input: a padded quantum followed by anything more fails. */
  lemma PaddingOnlyAtEnd(q: string, t: string)
    requires |q| == 4 && q[3] == '=' && t != []
    ensures DecodeQuanta(q + t).None?
  {
    assert !InAlphabet('=');
    DecodeQuantaCons(q, t);
  }

  /** A quantum needs at least two alphabet characters before any padding. */
  lemma PaddingTooLong(q: string, last: bool)
    requires |q| == 4 && (q[0] == '=' || q[1] == '=')
    ensures Quantum(q, last).None?
  {
    assert !InAlphabet('=');
  }

  /** Removing line breaks commutes with concatenation. */
  lemma {:induction false} StripConcat(a: string, b: string)
    ensures StripNewlines(a + b) == StripNewlines(a) + StripNewlines(b)
    decreases |a|
  {
    if a != [] {
      assert (a + b)[0] == a[0] && (a + b)[1..] == a[1..] + b;
      StripConcat(a[1..], b);
      if a[0] != '\r' && a[0] != '\n' {
        assert StripNewlines(a + b) == [a[0]] + (StripNewlines(a[1..]) + StripNewlines(b));
      }
    } else {
      assert a + b == b;
    }
  }

  /** A line break anywhere in the input is skipped. */
  lemma NewlineSkipped(a: string, b: string, c: char)
    requires c == '\r' || c == '\n'
    ensures DecodeString(a + [c] + b) == DecodeString(a + b)
  {
    StripConcat(a + [c], b);
    StripConcat(a, [c]);
    StripConcat(a, b);
    assert [c][1..] == [];
    assert StripNewlines([c]) == [];
    assert StripNewlines(a) + [] == StripNewlines(a);
  }
}
