/**
 * The deny-list matcher `model.Prefixes[T]` over a character trie, modelled as
 * a finite map from registered prefix to value with a longest-registered-prefix
 * lookup (the behaviour the trie's `SearchPrefixInString` is relied on to have).
 */
module Prefixes {
  import opened Wrappers
  import opened Grpc

  /** The registered prefixes of `input` are exactly the keys `input[..j]`; this finds the longest with `j <= k`. */
  function LongestUpTo<T>(entries: map<string, T>, input: string, k: nat): (r: Option<nat>)
    requires k <= |input|
    ensures r.Some? ==> r.value <= k && input[..r.value] in entries
    ensures r.Some? ==> forall j :: r.value < j <= k ==> input[..j] !in entries
    ensures r.None? ==> forall j :: 0 <= j <= k ==> input[..j] !in entries
    decreases k
  {
    if input[..k] in entries then Some(k)
    else if k == 0 then None
    else LongestUpTo(entries, input, k - 1)
  }

  /** What `FindOnePrefix` returns: the matched prefix ("" when none), its value, and an error that is always nil. */
  datatype Lookup<T> = Lookup(prefix: string, value: T, err: Option<Error>)

  /**
   * The lookup behind `FindOnePrefix`: the longest registered prefix of `input`
   * with its value, or the empty prefix and the zero value when none is registered.
   */
  function FindLongest<T>(entries: map<string, T>, input: string, zero: T): (r: Lookup<T>)
    ensures r.err.None?
    ensures r.prefix <= input
    ensures (exists j :: 0 <= j <= |input| && input[..j] in entries) ==>
              r.prefix in entries && r.value == entries[r.prefix]
    ensures forall p :: p in entries && p <= input ==> |p| <= |r.prefix|
    ensures (forall j :: 0 <= j <= |input| ==> input[..j] !in entries) ==> r.prefix == "" && r.value == zero
  {
    match LongestUpTo(entries, input, |input|)
    case Some(n) =>
      assert forall p :: p in entries && p <= input ==> p == input[..|p|];
      Lookup(input[..n], entries[input[..n]], None)
    case None =>
      assert forall p :: p in entries && p <= input ==> p == input[..|p|];
      Lookup("", zero, None)
  }

  /** A non-empty result is a registered prefix of the input, and no longer registered prefix exists. */
  lemma FoundIsLongestRegisteredPrefix<T>(entries: map<string, T>, input: string, zero: T)
    ensures var r := FindLongest(entries, input, zero);
      r.prefix != "" ==>
        (r.prefix in entries && r.prefix <= input && r.value == entries[r.prefix]
         && forall p :: p in entries && p <= input ==> p <= r.prefix)
  {
    var r := FindLongest(entries, input, zero);
    if r.prefix != "" {
      forall p | p in entries && p <= input ensures p <= r.prefix {
        assert |p| <= |r.prefix|;
        assert p == input[..|p|] && r.prefix == input[..|r.prefix|];
      }
    }
  }

  class Prefixes<T> {
    /** The zero value of `T`, returned when nothing matches. */
    const zero: T
    /** The registered prefixes and their values. */
    var entries: map<string, T>

    /** `NewPrefixes`: an empty matcher. */
    constructor (zero: T)
      ensures this.zero == zero && entries == map[]
    {
      this.zero := zero;
      entries := map[];
    }

    /** `Put`: inserts or replaces one entry, leaves every other entry alone, and never fails. */
    method Put(prefix: string, v: T) returns (err: Option<Error>)
      modifies this
      ensures entries == old(entries)[prefix := v]
      ensures forall p :: p != prefix ==> (p in entries <==> p in old(entries))
      ensures forall p :: p != prefix && p in entries ==> entries[p] == old(entries)[p]
      ensures err.None?
    {
      entries := entries[prefix := v];
      err := None;
    }

    /** `FindOnePrefix`. */
    function FindOnePrefix(input: string): (r: Lookup<T>)
      reads this
      ensures r == FindLongest(entries, input, zero)
    {
      FindLongest(entries, input, zero)
    }
  }

  /** The cases of the package test: the matcher holding "foo" -> false and "bar" -> true. */
  lemma TestCases()
    ensures FindLongest(map["foo" := false, "bar" := true], "foo", false) == Lookup("foo", false, None)
    ensures FindLongest(map["foo" := false, "bar" := true], "bar42", false) == Lookup("bar", true, None)
    ensures FindLongest(map["foo" := false, "bar" := true], "", false) == Lookup("", false, None)
    ensures FindLongest(map["foo" := false, "bar" := true], "fog123", false) == Lookup("", false, None)
    ensures FindLongest(map["foo" := false, "bar" := true], "ba", false) == Lookup("", false, None)
  {
    var m := map["foo" := false, "bar" := true];
    assert "foo"[..3] == "foo";
    assert "bar42"[..3] == "bar";
    var f := "fog123";
    forall j | 0 <= j <= |f| ensures f[..j] !in m {
      assert j >= 3 ==> f[..j][2] == 'g';
      assert j < 3 ==> |f[..j]| < 3;
    }
    var b := "ba";
    forall j | 0 <= j <= |b| ensures b[..j] !in m {
      assert |b[..j]| < 3;
    }
  }

  /** Longest match, not first match: with "foo" and "foobar" registered. */
  lemma LongestWins()
    ensures FindLongest(map["foo" := 1, "foobar" := 2], "foobarbaz", 0).prefix == "foobar"
    ensures FindLongest(map["foo" := 1, "foobar" := 2], "foob", 0).prefix == "foo"
  {
    var m := map["foo" := 1, "foobar" := 2];
    var s := "foobarbaz";
    assert s[..6] == "foobar" && s[..3] == "foo";
    var r := FindLongest(m, s, 0);
    assert |r.prefix| >= 6;
    assert r.prefix in m;
    var t := "foob";
    assert t[..3] == "foo";
    var q := FindLongest(m, t, 0);
    assert q.prefix in m && q.prefix <= t;
    assert |q.prefix| <= 4;
  }
}
