/** Facts about multiplication, division and remainder with a variable
    divisor, which the solver does not find on its own. */
module Arith {

  lemma {:induction false} MulAtLeast(a: int, c: int)
    requires a >= 1 && c > 0
    ensures a * c >= c
  {
    if a > 1 {
      MulAtLeast(a - 1, c);
      assert a * c == (a - 1) * c + c;
    }
  }

  /** Multiplying by a natural number preserves order. */
  lemma {:induction false} MulMono(a: nat, c: nat, m: nat)
    requires a <= c
    ensures a * m <= c * m
    decreases c - a
  {
    if a < c {
      MulMono(a, c - 1, m);
      assert c * m == (c - 1) * m + m;
    }
  }

  /** Two factors of `b` around `q`, in either order. */
  lemma MulSquare(q: int, b: int)
    ensures q * b * b == b * b * q
  {
    assert q * b == b * q;
    calc {
      q * b * b;
      (b * q) * b;
      b * (q * b);
      b * (b * q);
      b * b * q;
    }
  }

  /** Shifting `d * p + e` up by one place of base `b` and adding `x`. */
  lemma ShiftIn(d: int, p: int, e: int, b: int, x: int)
    ensures (d * p + e) * b + x == d * (b * p) + (e * b + x)
  {
    assert (d * p + e) * b == d * p * b + e * b;
    assert d * p * b == d * (b * p);
  }

  lemma MulPred(q: int, n: int)
    ensures (q - 1) * n + n == q * n
  {
  }

  /** Quotient and remainder are the only pair with `x == ts * q + r` and `0 <= r < ts`. */
  lemma DivModUnique(x: int, ts: int, q: int, r: int)
    requires ts > 0 && 0 <= r < ts && x == ts * q + r
    ensures x / ts == q && x % ts == r
  {
    var q', r' := x / ts, x % ts;
    assert x == ts * q' + r';
    if q > q' {
      MulAtLeast(q - q', ts);
    } else if q < q' {
      MulAtLeast(q' - q, ts);
    }
  }

  /** Taking `ts` away keeps the remainder and lowers the quotient by one. */
  lemma ModSub(x: nat, ts: nat)
    requires ts > 0 && x >= ts
    ensures (x - ts) % ts == x % ts && (x - ts) / ts == x / ts - 1
  {
    var q, r := x / ts, x % ts;
    assert x == ts * q + r;
    assert ts * q - ts == ts * (q - 1);
    DivModUnique(x - ts, ts, q - 1, r);
  }

  /** `n` is a whole number of runs of `ts`: counted out by repeated subtraction. */
  predicate Multiple(n: nat, ts: nat)
    requires ts > 0
    decreases n
  {
    if n < ts then n == 0 else Multiple(n - ts, ts)
  }

  /** The recursive reading agrees with the remainder being zero. */
  lemma {:induction false} MultipleIsMod(n: nat, ts: nat)
    requires ts > 0
    ensures Multiple(n, ts) <==> n % ts == 0
    decreases n
  {
    if n < ts {
      DivModUnique(n, ts, 0, n);
    } else {
      ModSub(n, ts);
      MultipleIsMod(n - ts, ts);
    }
  }

  /** Two distinct multiples of `ts` are at least `ts` apart. */
  lemma {:induction false} MultiplesApart(x: nat, y: nat, ts: nat)
    requires ts > 0 && Multiple(x, ts) && Multiple(y, ts) && y < x
    ensures y + ts <= x && Multiple(x - ts, ts)
    decreases y
  {
    if y >= ts {
      MultiplesApart(x - ts, y - ts, ts);
    }
  }

  /** `r` runs of `ts` make a whole number of runs. */
  lemma {:induction false} MultipleOfProduct(r: nat, ts: nat)
    requires ts > 0
    ensures Multiple(r * ts, ts)
  {
    if r > 0 {
      MulPred(r, ts);
      MulAtLeast(r, ts);
      MultipleOfProduct(r - 1, ts);
    }
  }

  /** `r` runs of `m`, added up one run at a time. */
  function Times(r: nat, m: nat): nat
  {
    if r == 0 then 0 else Times(r - 1, m) + m
  }

  lemma {:induction false} MultipleOfTimes(r: nat, m: nat)
    requires m > 0
    ensures Multiple(Times(r, m), m)
  {
    if r > 0 {
      MultipleOfTimes(r - 1, m);
    }
  }

  lemma {:induction false} TimesMul(r: nat, m: nat)
    ensures Times(r, m) == r * m
  {
    if r > 0 {
      TimesMul(r - 1, m);
      MulPred(r, m);
    }
  }
}
