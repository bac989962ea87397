/** `inform::encode_state`: a window of 0/1 values read as a binary number,
    first element least significant, at most 64 elements long. */
module StateEncoding {
  import opened Bits
  import opened Errors

  /** `8 * sizeof(uint64_t)`, the longest state that can be encoded. */
  const MaxSize: nat := 64

  /** `sum of s[k] * 2^k`, the first element least significant. */
  function Encode(s: seq<nat>): nat
  {
    if s == [] then 0 else Encode(s[..|s| - 1]) + s[|s| - 1] * Pow2(|s| - 1)
  }

  predicate IsBinary(s: seq<nat>)
  {
    forall t :: 0 <= t < |s| ==> s[t] <= 1
  }

  /** The `L` low bits of `x`, least significant first (the inverse of `Encode`). */
  function Decode(x: nat, L: nat): (s: seq<nat>)
    ensures |s| == L && IsBinary(s)
  {
    if L == 0 then [] else [x % 2] + Decode(x / 2, L - 1)
  }

  /** The range overload: encodes `a[first..last]`; an empty (or reversed)
      range and one longer than 64 elements throw `invalid_argument`. */
  method EncodeRange(a: seq<nat>, first: nat, last: nat) returns (r: Result<nat>)
    requires first <= |a| && last <= |a|
    ensures last <= first ==> r == Throws(InvalidArgument)
    ensures first < last && last - first > MaxSize ==> r == Throws(InvalidArgument)
    ensures first < last <= first + MaxSize ==> r == Ok(Encode(a[first..last]))
  {
    if last <= first {
      return Throws(InvalidArgument);
    } else if last - first > MaxSize {
      return Throws(InvalidArgument);
    }
    var encoding := 0;
    var k := 0;
    while first + k != last
      invariant first + k <= last
      invariant encoding == Encode(a[first..first + k])
      decreases last - (first + k)
    {
      assert a[first..first + k + 1][..k] == a[first..first + k];
      encoding := encoding + a[first + k] * Pow2(k);
      k := k + 1;
    }
    return Ok(encoding);
  }

  /** The container overload: the range overload on the whole container. */
  method EncodeContainer(state: seq<nat>) returns (r: Result<nat>)
    ensures |state| == 0 || |state| > MaxSize ==> r == Throws(InvalidArgument)
    ensures 0 < |state| <= MaxSize ==> r == Ok(Encode(state))
  {
    r := EncodeRange(state, 0, |state|);
    assert state[0..|state|] == state;
  }

  /** Prepending a digit: the rest of the state moves up one bit. */
  lemma {:induction false} EncodeCons(d: nat, s: seq<nat>)
    ensures Encode([d] + s) == d + 2 * Encode(s)
  {
    if s != [] {
      var n := |s|;
      assert ([d] + s)[..n] == [d] + s[..n - 1];
      EncodeCons(d, s[..n - 1]);
    }
  }

  /** A binary state of length `L` encodes below `2^L`. */
  lemma {:induction false} EncodeBound(s: seq<nat>)
    requires IsBinary(s)
    ensures Encode(s) < Pow2(|s|)
  {
    if s != [] {
      var n := |s|;
      EncodeBound(s[..n - 1]);
    }
  }

  /** Decoding the encoding of a binary state gives the state back. */
  lemma {:induction false} DecodeEncode(s: seq<nat>)
    requires IsBinary(s)
    ensures Decode(Encode(s), |s|) == s
  {
    if s != [] {
      EncodeCons(s[0], s[1..]);
      assert [s[0]] + s[1..] == s;
      DecodeEncode(s[1..]);
      var x := Encode(s);
      assert x % 2 == s[0] && x / 2 == Encode(s[1..]);
    }
  }

  /** Encoding the `L`-bit decoding of a number below `2^L` gives it back. */
  lemma {:induction false} EncodeDecode(x: nat, L: nat)
    requires x < Pow2(L)
    ensures Encode(Decode(x, L)) == x
  {
    if L == 0 {
      assert x == 0;
    } else {
      EncodeDecode(x / 2, L - 1);
      EncodeCons(x % 2, Decode(x / 2, L - 1));
    }
  }

  /** For a fixed length, distinct binary states have distinct encodings. */
  lemma EncodeInjective(s: seq<nat>, t: seq<nat>)
    requires IsBinary(s) && IsBinary(t) && |s| == |t|
    requires Encode(s) == Encode(t)
    ensures s == t
  {
    DecodeEncode(s);
    DecodeEncode(t);
  }

  /** A state of length three, read with its first element least significant. */
  lemma EncodeOfThree(a: nat, b: nat, c: nat)
    ensures Encode([a, b, c]) == a + 2 * b + 4 * c
  {
    assert [a][..0] == [];
    assert Encode([a]) == a;
    assert [a, b][..1] == [a];
    assert Encode([a, b]) == a + b * Pow2(1);
    assert [a, b, c][..2] == [a, b];
    assert Encode([a, b, c]) == a + b * Pow2(1) + c * Pow2(2);
    assert Pow2(1) == 2 && Pow2(2) == 4;
  }

  /** The encodings the library's own unit tests list for length three. */
  lemma EncodeLengthThree()
    ensures Encode([0, 0, 0]) == 0 && Encode([1, 0, 0]) == 1 && Encode([0, 1, 0]) == 2 && Encode([1, 1, 0]) == 3
    ensures Encode([0, 0, 1]) == 4 && Encode([1, 0, 1]) == 5 && Encode([0, 1, 1]) == 6 && Encode([1, 1, 1]) == 7
  {
    EncodeOfThree(0, 0, 0);
    EncodeOfThree(1, 0, 0);
    EncodeOfThree(0, 1, 0);
    EncodeOfThree(1, 1, 0);
    EncodeOfThree(0, 0, 1);
    EncodeOfThree(1, 0, 1);
    EncodeOfThree(0, 1, 1);
    EncodeOfThree(1, 1, 1);
  }
}
