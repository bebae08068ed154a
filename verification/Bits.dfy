/** Logarithms and the bits of a word, in integer arithmetic. */
module Bits {
  import opened Words

  // ilog2(); fls() is one more.
  function Log2(x: nat): (n: nat)
    requires x >= 1
  {
    if x == 1 then 0 else 1 + Log2(x / 2)
  }

  lemma {:induction false} Log2Bounds(x: nat)
    requires x >= 1
    ensures Pow2(Log2(x)) <= x < Pow2(Log2(x) + 1)
  {
    if x > 1 {
      Log2Bounds(x / 2);
    }
  }

  lemma {:induction false} Pow2Monotone(m: nat, n: nat)
    requires m < n
    ensures 2 * Pow2(m) <= Pow2(n)
  {
    if m + 1 < n {
      Pow2Monotone(m, n - 1);
    }
  }

  lemma Log2Unique(x: nat, n: nat)
    requires x >= 1 && Pow2(n) <= x < Pow2(n + 1)
    ensures Log2(x) == n
  {
    Log2Bounds(x);
    if Log2(x) < n {
      Pow2Monotone(Log2(x), n);
    } else if n < Log2(x) {
      Pow2Monotone(n, Log2(x));
    }
  }

  lemma {:induction false} Log2Less(x: nat, n: nat)
    requires 1 <= x < Pow2(n)
    ensures Log2(x) < n
  {
    if x > 1 {
      Log2Less(x / 2, n - 1);
    }
  }

  predicate IsPowerOf2(x: nat) {
    x != 0 && x == Pow2(Log2(x))
  }

  predicate Bit(x: nat, i: nat) {
    (x / Pow2(i)) % 2 == 1
  }

  /** Clearing the highest bit clears that bit and no other. */
  lemma TopBit(x: nat, i: nat)
    requires x >= 1
    ensures var top := Log2(x);
            && Pow2(top) <= x
            && (Bit(x, i) <==> i == top || Bit(x - Pow2(top), i))
            && !Bit(x - Pow2(top), top) && (i > top ==> !Bit(x, i))
  {
    hide Log2;
    var top := Log2(x);
    Log2Bounds(x);
    var low := x - Pow2(top);
    Field(low, Pow2(top), 0, low);
    Field(x, Pow2(top), 1, low);
    if i > top {
      Pow2Monotone(top, i);
      Field(x, Pow2(i), 0, x);
      Field(low, Pow2(i), 0, low);
    } else if i < top {
      BelowTop(low, top, i);
    }
  }

  lemma BelowTop(low: nat, top: nat, i: nat)
    requires i < top
    ensures ((low + Pow2(top)) / Pow2(i)) % 2 == (low / Pow2(i)) % 2
  {
    hide Pow2;
    Pow2Split(i, top);
    Shifted(low, Pow2(i), 2 * Pow2(top - i - 1));
    EvenShift(low / Pow2(i), Pow2(top - i - 1));
  }

  lemma EvenShift(q: nat, k: nat)
    ensures (q + 2 * k) % 2 == q % 2
  {
  }

  // Adding a multiple of the divisor.
  lemma Shifted(low: nat, d: nat, m: nat)
    requires d >= 1
    ensures d * m >= 0 && (low + d * m) / d == low / d + m
  {
    Product(d, m);
    var q, r := low / d, low % d;
    assert low == d * q + r;
    DistributeSum(d, q, m);
    Field(low + d * m, d, q + m, r);
  }

  lemma Product(d: nat, m: nat)
    ensures d * m >= 0
  {
  }

  lemma DistributeSum(d: nat, q: nat, m: nat)
    ensures d * (q + m) == d * q + d * m
  {
  }

  lemma {:induction false} Pow2Split(i: nat, top: nat)
    requires i < top
    ensures Pow2(top) == Pow2(i) * (2 * Pow2(top - i - 1))
  {
    if i + 1 < top {
      Pow2Split(i, top - 1);
      Associates(Pow2(i), 2 * Pow2(top - i - 2));
    }
  }

  lemma Associates(x: nat, y: nat)
    ensures 2 * (x * y) == x * (2 * y)
  {
  }
}
