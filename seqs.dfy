/** Facts about slices of sequences that the verifier does not find unaided. */
module Seqs {

  /** A slice of a slice is a slice of the original. */
  lemma SliceOfSlice<T>(s: seq<T>, a: nat, b: nat, i: nat, j: nat)
    requires a <= b <= |s| && i <= j <= b - a
    ensures s[a..b][i..j] == s[a + i..a + j]
  {
    var l, r := s[a..b][i..j], s[a + i..a + j];
    assert |l| == |r|;
    forall x | 0 <= x < |l| ensures l[x] == r[x] {
    }
  }

  /** The run of `n` values `i` into `s[a..b]` is the run at `start = a + i` of `s`. */
  lemma RunOfSlice<T>(s: seq<T>, a: nat, b: nat, i: nat, n: nat, start: nat)
    requires a <= b <= |s| && i + n <= b - a && start == a + i
    ensures s[a..b][i..i + n] == s[start..start + n]
  {
    SliceOfSlice(s, a, b, i, i + n);
  }

  /** The slices of `s` below `n` are slices of `s[..n]`. */
  lemma SlicesOfPrefix<T>(s: seq<T>, n: nat, i: nat, j: nat)
    requires i <= j <= n <= |s|
    ensures s[..n][..i] == s[..i] && s[..n][i..j] == s[i..j]
  {
  }
}
