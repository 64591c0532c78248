/**
 * Decimal text of unsigned numbers and booleans, as Go's `strconv.Itoa`,
 * `%d`, `strconv.ParseUint(s, 10, bits)` and `strconv.ParseBool` read and
 * write them.
 */
module Decimal {
  import opened Wrappers

  predicate IsDigit(c: char) {
    '0' <= c <= '9'
  }

  function DigitChar(d: nat): (c: char)
    requires d < 10
    ensures IsDigit(c)
  {
    ('0' as int + d) as char
  }

  /** The shortest decimal text of `n`. */
  function Itoa(n: nat): (s: string)
    ensures |s| > 0 && forall i :: 0 <= i < |s| ==> IsDigit(s[i])
    ensures |s| > 1 ==> s[0] != '0'
  {
    if n < 10 then [DigitChar(n)] else Itoa(n / 10) + [DigitChar(n % 10)]
  }

  /** The value of a string of digits. */
  function DigitsValue(s: string): nat
    requires forall i :: 0 <= i < |s| ==> IsDigit(s[i])
  {
    if s == [] then 0
    else
      assert IsDigit(s[|s| - 1]);
      DigitsValue(s[..|s| - 1]) * 10 + (s[|s| - 1] as int - '0' as int)
  }

  /**
   * `strconv.ParseUint(s, 10, bits)`: one or more decimal digits (leading
   * zeros allowed, no sign) whose value fits in `bits` bits; anything else
   * is an error.
   */
  function ParseUint(s: string, bits: nat): (r: Option<nat>)
    ensures r.Some? <==> |s| > 0 && (forall i :: 0 <= i < |s| ==> IsDigit(s[i])) && DigitsValue(s) < Pow2(bits)
    ensures r.Some? ==> r.value == DigitsValue(s) && r.value < Pow2(bits)
  {
    if |s| > 0 && (forall i :: 0 <= i < |s| ==> IsDigit(s[i])) && DigitsValue(s) < Pow2(bits)
    then Some(DigitsValue(s)) else None
  }

  function Pow2(n: nat): (r: nat)
    ensures r >= 1
  {
    if n == 0 then 1 else 2 * Pow2(n - 1)
  }

  lemma {:induction false} Pow2Add(a: nat, b: nat)
    ensures Pow2(a + b) == Pow2(a) * Pow2(b)
  {
    if a > 0 {
      Pow2Add(a - 1, b);
    }
  }

  /** 32 bits hold the values below 2^32. */
  lemma Pow2Is32()
    ensures Pow2(32) == 0x1_0000_0000
  {
    assert Pow2(4) == 16;
    Pow2Add(4, 4);
    Pow2Add(8, 8);
    Pow2Add(16, 16);
  }

  /** Reading back the decimal text of a number gives the number. */
  lemma {:induction false} DigitsOfItoa(n: nat)
    ensures DigitsValue(Itoa(n)) == n
  {
    if n >= 10 {
      var s := Itoa(n);
      assert s[..|s| - 1] == Itoa(n / 10);
      DigitsOfItoa(n / 10);
    }
  }

  /** `ParseUint` accepts the decimal text of every number that fits, and returns that number. */
  lemma ParseItoa(n: nat, bits: nat)
    requires n < Pow2(bits)
    ensures ParseUint(Itoa(n), bits) == Some(n)
  {
    DigitsOfItoa(n);
  }

  /** `strconv.ParseBool`: the six spellings of each truth value; anything else is an error. */
  function ParseBool(s: string): (r: Option<bool>)
    ensures r == Some(true) <==> s in {"1", "t", "T", "TRUE", "true", "True"}
    ensures r == Some(false) <==> s in {"0", "f", "F", "FALSE", "false", "False"}
  {
    if s in {"1", "t", "T", "TRUE", "true", "True"} then Some(true)
    else if s in {"0", "f", "F", "FALSE", "false", "False"} then Some(false)
    else None
  }
}
