/** Powers of two and the division facts the schedules rest on. */
module PowersOfTwo {

  function Pow2(n: nat): (p: nat)
    ensures p > 0
  {
    if n == 0 then 1 else 2 * Pow2(n - 1)
  }

  lemma {:induction false} Pow2Add(a: nat, b: nat)
    ensures Pow2(a + b) == Pow2(a) * Pow2(b)
  {
    if b > 0 {
      Pow2Add(a, b - 1);
      assert Pow2(a) * (2 * Pow2(b - 1)) == 2 * (Pow2(a) * Pow2(b - 1));
    }
  }

  lemma {:induction false} Pow2Monotone(a: nat, b: nat)
    requires a <= b
    ensures Pow2(a) <= Pow2(b)
  {
    if a < b { Pow2Monotone(a, b - 1); }
  }

  /** Integer base-two logarithm, rounded down. */
  function Log2(n: nat): (bits: nat)
    requires n > 0
    ensures Pow2(bits) <= n < Pow2(bits + 1)
  {
    if n == 1 then 0 else 1 + Log2(n / 2)
  }

  lemma {:induction false} Log2OfPow2(m: nat)
    ensures Log2(Pow2(m)) == m
  {
    if m > 0 { Log2OfPow2(m - 1); }
  }

  lemma DivUnique(x: int, d: int, q: int)
    requires d > 0 && q * d <= x < q * d + d
    ensures x / d == q
  {
    DivBounds(x, d);
    if x / d < q { MulMonotone(x / d + 1, q, d); }
    if q < x / d { MulMonotone(q + 1, x / d, d); }
  }

  lemma Divides(a: nat, b: nat)
    requires b > 0 && a % b == 0
    ensures a == b * (a / b) && a == (a / b) * b
  {
  }

  lemma MulMonotone(a: int, b: int, c: nat)
    requires a <= b
    ensures a * c <= b * c
  {
  }

  lemma DivBounds(x: int, d: int)
    requires d > 0
    ensures (x / d) * d <= x < (x / d) * d + d
  {
  }

  /** Halving a partition splits its index by the half x falls in. */
  lemma DivByHalf(x: nat, half: nat)
    requires half > 0
    ensures x / half == 2 * (x / (2 * half)) + (if x % (2 * half) < half then 0 else 1)
    ensures x / half / 2 == x / (2 * half)
  {
    var q, r := x / (2 * half), x % (2 * half);
    assert x == q * (2 * half) + r;
    assert q * (2 * half) == (2 * q) * half;
    if r < half {
      DivUnique(x, half, 2 * q);
    } else {
      assert (2 * q + 1) * half == (2 * q) * half + half;
      DivUnique(x, half, 2 * q + 1);
    }
  }

  lemma DivPow2(m: nat, k: nat)
    requires k <= m
    ensures Pow2(m) / Pow2(k) == Pow2(m - k)
  {
    Pow2Add(m - k, k);
    DivUnique(Pow2(m), Pow2(k), Pow2(m - k));
  }

  /** The index of the partition of 2^k consecutive numbers that x lies in. */
  function PartIndex(x: nat, k: nat): nat {
    if k == 0 then x else PartIndex(x, k - 1) / 2
  }

  lemma {:induction false} PartIndexIsQuotient(x: nat, k: nat)
    ensures PartIndex(x, k) == x / Pow2(k)
  {
    if k > 0 {
      PartIndexIsQuotient(x, k - 1);
      DivByHalf(x, Pow2(k - 1));
    }
  }

  lemma PartIndexOfSmall(x: nat, k: nat)
    requires x < Pow2(k)
    ensures PartIndex(x, k) == 0
  {
    PartIndexIsQuotient(x, k);
    DivUnique(x, Pow2(k), 0);
  }

  /** Agreeing on a finer partition implies agreeing on every coarser one. */
  lemma {:induction false} SameFineSameCoarse(a: nat, b: nat, fine: nat, coarse: nat)
    requires fine <= coarse && PartIndex(a, fine) == PartIndex(b, fine)
    ensures PartIndex(a, coarse) == PartIndex(b, coarse)
    decreases coarse
  {
    if fine < coarse { SameFineSameCoarse(a, b, fine, coarse - 1); }
  }

  // ---------------------------------------------------------------- powers of two

  ghost predicate PowerOfTwo(n: nat) {
    exists k: nat :: Pow2(k) == n
  }

  lemma Doubled(n: nat)
    requires PowerOfTwo(n)
    ensures PowerOfTwo(2 * n)
  {
    var k: nat :| Pow2(k) == n;
    assert Pow2(k + 1) == 2 * n;
  }

  lemma {:induction false} StrictlyMore(a: nat, b: nat)
    requires a < b
    ensures 2 * Pow2(a) <= Pow2(b)
  {
    Pow2Monotone(a + 1, b);
  }

  /** Of two powers of two, the smaller divides the larger, so doubling it stays below or meets it. */
  lemma DoubleBelow(n: nat, limit: nat)
    requires PowerOfTwo(n) && PowerOfTwo(limit) && n < limit
    ensures 2 * n <= limit
  {
    var a: nat :| Pow2(a) == n;
    var b: nat :| Pow2(b) == limit;
    if a >= b { Pow2Monotone(b, a); }
    StrictlyMore(a, b);
  }

  /** The check for a power of two. */
  predicate IsPowerOfTwo(n: nat) {
    n > 0 && Pow2(Log2(n)) == n
  }

  lemma PowerIsChecked(n: nat)
    ensures IsPowerOfTwo(n) <==> PowerOfTwo(n)
  {
    if k: nat :| Pow2(k) == n { Log2OfPow2(k); }
  }
}
