/** Arithmetic facts about powers of two, Euclidean division and sums over a bounded key range. */
module Arith {

  const U64: nat := 0x1_0000_0000_0000_0000

  /** The arithmetic of a C `__u64`: results are reduced modulo 2^64. */
  function Wrap64(x: nat): (r: nat)
    ensures r < U64
    ensures x < U64 ==> r == x
    ensures r <= x
  {
    x % U64
  }

  function Min(a: nat, b: nat): nat { if a < b then a else b }

  function Max(a: nat, b: nat): nat { if a < b then b else a }

  lemma DivBounds(x: nat, d: nat)
    requires d > 0
    ensures 0 <= (x / d) * d <= x < (x / d + 1) * d == (x / d) * d + d
  {
    assert x == (x / d) * d + x % d;
    assert (x / d + 1) * d == (x / d) * d + d;
  }

  lemma DivAtLeast(x: nat, d: nat, q: nat)
    requires d > 0 && q * d <= x
    ensures q <= x / d
  {
    DivBounds(x, d);
    if q > x / d {
      MulLe(x / d + 1, q, d);
    }
  }

  lemma DivAtMost(x: nat, d: nat, q: nat)
    requires d > 0 && x < (q + 1) * d
    ensures x / d <= q
  {
    DivBounds(x, d);
    if x / d > q {
      MulLe(q + 1, x / d, d);
    }
  }

  lemma MulLe(a: nat, b: nat, c: nat)
    requires a <= b
    ensures a * c <= b * c
  {
  }

  lemma MulStep(a: nat, b: nat)
    ensures (a + 1) * b == a * b + b
  {
  }

  lemma MulAssoc(a: nat, b: nat, c: nat)
    ensures a * b * c == a * (b * c)
  {
  }

  /** The largest multiple of `d` that is at most `x`. */
  function FloorTo(x: nat, d: nat): (r: nat)
    requires d > 0
    ensures r <= x < r + d
  {
    DivBounds(x, d);
    x / d * d
  }

  lemma FloorToFacts(x: nat, d: nat)
    requires d > 0
    ensures FloorTo(x, d) / d == x / d && FloorTo(x, d) % d == 0
  {
    MulDiv(x / d, d);
  }

  lemma FloorOfMultiple(x: nat, d: nat)
    requires d > 0 && x % d == 0
    ensures FloorTo(x, d) == x
  {
    assert x == x / d * d + x % d;
  }

  lemma MulDiv(q: nat, d: nat)
    requires d > 0
    ensures q * d / d == q && q * d % d == 0
  {
    DivAtLeast(q * d, d, q);
    assert (q + 1) * d == q * d + d;
    DivAtMost(q * d, d, q);
    assert q * d == (q * d / d) * d + q * d % d;
  }

  lemma DivDiv(x: nat, a: nat, b: nat)
    requires a > 0 && b > 0 && a * b > 0
    ensures x / (a * b) == x / a / b
  {
    var y := x / a;
    var q := y / b;
    DivBounds(x, a);
    DivBounds(y, b);
    MulLe(q * b, y, a);
    RegroupProduct(q, a, b);
    DivAtLeast(x, a * b, q);
    MulLe(y + 1, (q + 1) * b, a);
    RegroupProduct(q + 1, a, b);
    DivAtMost(x, a * b, q);
  }

  lemma RegroupProduct(q: nat, a: nat, b: nat)
    ensures q * b * a == q * (a * b)
  {
    MulAssoc(q, b, a);
  }

  /** Sum of `m` over the keys below `n`; keys outside the map count as zero. */
  function SumBelow(m: map<nat, nat>, n: nat): nat
  {
    if n == 0 then 0
    else SumBelow(m, n - 1) + (if n - 1 in m then m[n - 1] else 0)
  }

  lemma {:induction false} SumBelowUpdate(m: map<nat, nat>, k: nat, v: nat, n: nat)
    requires k < n
    ensures SumBelow(m[k := v], n) + (if k in m then m[k] else 0) == SumBelow(m, n) + v
  {
    if k < n - 1 {
      SumBelowUpdate(m, k, v, n - 1);
    } else {
      SumBelowFrame(m, m[k := v], n - 1);
    }
  }

  lemma {:induction false} SumBelowFrame(m: map<nat, nat>, m': map<nat, nat>, n: nat)
    requires forall k :: 0 <= k < n ==> (k in m <==> k in m') && (k in m ==> m[k] == m'[k])
    ensures SumBelow(m, n) == SumBelow(m', n)
  {
    if n > 0 {
      SumBelowFrame(m, m', n - 1);
    }
  }

  lemma {:induction false} SumBelowEmpty(n: nat)
    ensures SumBelow(map[], n) == 0
  {
    if n > 0 {
      SumBelowEmpty(n - 1);
    }
  }

  lemma {:induction false} SmallerSet<T>(a: set<T>, b: set<T>)
    requires a <= b
    ensures |a| <= |b|
  {
    assert b == a + (b - a);
  }
}
