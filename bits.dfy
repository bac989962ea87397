/** Bit-level arithmetic on unbounded naturals: the shifts, `&` and `^` that
    the C and C++ code apply to `size_t`/`uint64_t` masks and encodings. */
module Bits {

  /** `b` raised to the power `k`. */
  function Pow(b: nat, k: nat): nat
  {
    if k == 0 then 1 else b * Pow(b, k - 1)
  }

  /** `1 << k` without a width limit. */
  function Pow2(k: nat): (r: nat)
    ensures r >= 1
  {
    if k == 0 then 1 else 2 * Pow2(k - 1)
  }

  /** `x << k` without a width limit. */
  function Shl(x: nat, k: nat): nat
  {
    if k == 0 then x else 2 * Shl(x, k - 1)
  }

  lemma {:induction false} Pow2IsPow(k: nat)
    ensures Pow2(k) == Pow(2, k)
  {
    if k > 0 { Pow2IsPow(k - 1); }
  }

  lemma {:induction false} PowPositive(b: nat, k: nat)
    requires b >= 1
    ensures Pow(b, k) >= 1
  {
    if k > 0 {
      PowPositive(b, k - 1);
      assert Pow(b, k) == b * Pow(b, k - 1);
    }
  }

  /** Bitwise and, one bit at a time from the least significant end. */
  function And(a: nat, b: nat): nat
  {
    if a == 0 || b == 0 then 0
    else 2 * And(a / 2, b / 2) + (if a % 2 == 1 && b % 2 == 1 then 1 else 0)
  }

  /** Bitwise exclusive or. */
  function Xor(a: nat, b: nat): nat
    decreases a + b
  {
    if a == 0 then b
    else if b == 0 then a
    else 2 * Xor(a / 2, b / 2) + (if a % 2 != b % 2 then 1 else 0)
  }

  /** `(x & y) == x`: every bit of `x` is also set in `y`. */
  predicate Submask(x: nat, y: nat)
  {
    And(x, y) == x
  }

  lemma {:induction false} AndCommutes(a: nat, b: nat)
    ensures And(a, b) == And(b, a)
  {
    if a != 0 && b != 0 { AndCommutes(a / 2, b / 2); }
  }

  /** A mask is a submask of `y` exactly when its halves are and its low bit is. */
  lemma SubmaskStep(x: nat, y: nat)
    requires x != 0
    ensures Submask(x, y) <==> y != 0 && Submask(x / 2, y / 2) && (x % 2 == 1 ==> y % 2 == 1)
  {
  }

  lemma {:induction false} SubmaskReflexive(x: nat)
    ensures Submask(x, x)
  {
    if x != 0 { SubmaskReflexive(x / 2); }
  }

  lemma {:induction false} SubmaskTransitive(x: nat, y: nat, z: nat)
    requires Submask(x, y) && Submask(y, z)
    ensures Submask(x, z)
  {
    if x != 0 {
      SubmaskStep(x, y);
      assert y != 0;
      SubmaskStep(y, z);
      SubmaskTransitive(x / 2, y / 2, z / 2);
      SubmaskStep(x, z);
    }
  }

  lemma {:induction false} SubmaskAntisymmetric(x: nat, y: nat)
    requires Submask(x, y) && Submask(y, x)
    ensures x == y
  {
    AndCommutes(x, y);
  }

  /** The only submask of 0 is 0. */
  lemma SubmaskOfZero(x: nat)
    requires Submask(x, 0)
    ensures x == 0
  {
  }

  /** When `a` fits in `k` bits, `a ^ (f << k)` is `a + (f << k)`: the two
      operands have no set bit in common. */
  lemma {:induction false} XorOfDisjointIsSum(a: nat, f: nat, k: nat)
    requires a < Pow2(k)
    ensures Xor(a, Shl(f, k)) == a + Shl(f, k)
  {
    if k == 0 {
      assert a == 0;
    } else if a != 0 && f != 0 {
      var high := Shl(f, k - 1);
      assert Shl(f, k) == 2 * high;
      XorOfDisjointIsSum(a / 2, f, k - 1);
      assert Xor(a, 2 * high) == 2 * Xor(a / 2, high) + (if a % 2 != 0 then 1 else 0);
    } else if f == 0 {
      ShlBit(f, k);
    }
  }

  /** A single bit shifted by `k` is `0` or `2^k`. */
  lemma {:induction false} ShlBit(f: nat, k: nat)
    requires f <= 1
    ensures Shl(f, k) == if f == 0 then 0 else Pow2(k)
  {
    if k > 0 {
      ShlBit(f, k - 1);
    }
  }
}
