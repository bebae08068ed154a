/**
  Numbers as 32-bit machine words, and fields of numbers as fields of bits: what
  connects integer arithmetic on header words with the shifts and masks of the code.
 */
module MachineWords {
  import opened Words

  // The next lower bit.
  function Push(x: bv32, odd: bool): bv32 {
    (x << 1) | (if odd then 1 else 0)
  }

  /** A number's low 32 bits. */
  function Word(n: nat): bv32 {
    if n == 0 then 0 else Push(Word(n / 2), n % 2 == 1)
  }

  function Shl(x: bv32, k: nat): bv32 {
    if k == 0 then x else Push(Shl(x, k - 1), false)
  }

  function Mask(k: nat): bv32 {
    if k == 0 then 0 else Push(Mask(k - 1), true)
  }

  function Or(x: bv32, y: bv32): bv32 {
    x | y
  }

  function And(x: bv32, y: bv32): bv32 {
    x & y
  }

  lemma OrShift(x: bv32, y: bv32)
    ensures (x << 1) | (y << 1) == (x | y) << 1
  {
  }

  lemma OrOdd(x: bv32, y: bv32)
    ensures (x << 1) | ((y << 1) | 1) == ((x | y) << 1) | 1
  {
  }

  lemma PushIs(x: bv32, odd: bool)
    ensures Push(x, odd) == if odd then (x << 1) | 1 else x << 1
  {
  }

  lemma PushOr(x: bv32, y: bv32, odd: bool)
    ensures Or(Push(x, false), Push(y, odd)) == Push(Or(x, y), odd)
  {
    hide Push;
    PushIs(x, false);
    PushIs(y, odd);
    PushIs(x | y, odd);
    if odd {
      OrOdd(x, y);
    } else {
      OrShift(x, y);
    }
  }

  lemma PushAnd(x: bv32, y: bv32, odd: bool)
    ensures Push(x, odd) & Push(y, true) == Push(x & y, odd)
  {
  }

  lemma PushZero()
    ensures Push(0, false) == 0
  {
  }

  lemma Halves(h: nat, l: nat, k: nat)
    requires k >= 1 && l < Pow2(k)
    ensures (h * Pow2(k) + l) / 2 == h * Pow2(k - 1) + l / 2 && (h * Pow2(k) + l) % 2 == l % 2 && l / 2 < Pow2(k - 1)
  {
    var p := Pow2(k - 1);
    assert h * (2 * p) == 2 * (h * p);
  }

  lemma WordUnfold(n: nat)
    ensures Word(n) == Push(Word(n / 2), n % 2 == 1)
  {
    if n == 0 {
      PushZero();
    }
  }

  lemma NoBits(l: nat, x: bv32)
    requires l < Pow2(0)
    ensures Pow2(0) == 1 && l == 0 && Word(l) == 0 && Or(x, 0) == x
  {
  }

  /** A number made of a high part and `k` low bits is the shifted word of the one OR-ed with the word of the other. */
  lemma {:induction false} Concatenated(h: nat, l: nat, k: nat)
    requires l < Pow2(k)
    ensures Word(h * Pow2(k) + l) == Or(Shl(Word(h), k), Word(l))
  {
    hide Push, Word, Pow2, Or;
    if k == 0 {
      NoBits(l, Word(h));
    } else {
      Halves(h, l, k);
      Concatenated(h, l / 2, k - 1);
      WordUnfold(h * Pow2(k) + l);
      WordUnfold(l);
      PushOr(Shl(Word(h), k - 1), Word(l / 2), l % 2 == 1);
    }
  }

  // Subtraction of one on machine words.
  function Less(x: bv32): bv32 {
    x - 1
  }

  lemma PushLess(x: bv32)
    ensures ((x << 1) | 1) - 1 == x << 1
    ensures (x << 1) - 1 == ((x - 1) << 1) | 1
  {
  }

  lemma LessOdd(x: bv32)
    ensures Less(Push(x, true)) == Push(x, false)
  {
    PushLess(x);
  }

  lemma LessEven(x: bv32)
    ensures Less(Push(x, false)) == Push(Less(x), true)
  {
    PushLess(x);
  }

  lemma {:induction false} WordLess(n: nat)
    requires n >= 1
    ensures Less(Word(n)) == Word(n - 1)
  {
    hide *;
    WordUnfold(n);
    WordUnfold(n - 1);
    if n % 2 == 1 {
      LessOdd(Word(n / 2));
    } else {
      LessEven(Word(n / 2));
      WordLess(n / 2);
    }
  }

  lemma AndNothing()
    ensures And(0, 0) == 0
  {
  }

  lemma PushAndWord(x: bv32, y: bv32, odd: bool)
    ensures And(Push(x, odd), Push(y, true)) == Push(And(x, y), odd)
  {
    hide Push;
    PushAnd(x, y, odd);
  }

  /** A number of `k` bits is untouched by their mask. */
  lemma {:induction false} Fits(n: nat, k: nat)
    requires n < Pow2(k)
    ensures And(Word(n), Mask(k)) == Word(n)
  {
    hide Push, Word, Pow2, And;
    if k == 0 {
      NoBits(n, 0);
      AndNothing();
    } else {
      Halves(0, n, k);
      Fits(n / 2, k - 1);
      WordUnfold(n);
      PushAndWord(Word(n / 2), Mask(k - 1), n % 2 == 1);
    }
  }

  // --------------------------------------------------------- single bits

  // n & mask
  predicate Has(n: u32, mask: bv32) {
    And(Word(n), mask) != 0
  }

  lemma PushAndOne(x: bv32, odd: bool)
    ensures And(Push(x, odd), 1) == if odd then 1 else 0
  {
  }

  lemma PushAndEven(x: bv32, y: bv32, odd: bool)
    ensures And(Push(x, odd), Push(y, false)) == Push(And(x, y), false)
  {
  }

  lemma ShlNothing(k: nat)
    ensures Shl(0, k) == 0
  {
    if k > 0 {
      hide Push;
      PushZero();
    }
  }

  // Halving a number `k` times brings its bit `k` to the end.
  lemma HalvesOf(n: nat, k: nat)
    requires k >= 1
    ensures n / Pow2(k) == (n / 2) / Pow2(k - 1)
  {
    var p, h := Pow2(k - 1), n / 2;
    var q, r := h / p, h % p;
    assert h == p * q + r;
    Twice(p, q);
    Field(n, 2 * p, q, 2 * r + n % 2);
  }

  lemma Twice(p: nat, q: nat)
    ensures 2 * (p * q) == (2 * p) * q
  {
  }

  lemma {:induction false} BitAt(n: nat, k: nat)
    ensures And(Word(n), Shl(1, k)) == Shl(if (n / Pow2(k)) % 2 == 1 then 1 else 0, k)
  {
    hide *;
    hide Push, Word, And, Shl;
    WordUnfold(n);
    ShlNothing(k);
    if k == 0 {
      BitZero(n);
    } else {
      HalvesOf(n, k);
      BitAt(n / 2, k - 1);
      ShlNext(1, k - 1);
      ShlNext(0, k - 1);
      ShlNothing(k - 1);
      PushAndEven(Word(n / 2), Shl(1, k - 1), n % 2 == 1);
    }
  }

  lemma BitZero(n: nat)
    ensures Pow2(0) == 1 && n / 1 == n
    ensures And(Word(n), Shl(1, 0)) == Shl(if n % 2 == 1 then 1 else 0, 0)
  {
    hide *;
    WordUnfold(n);
    PushAndOne(Word(n / 2), n % 2 == 1);
    ShlNext(1, 0);
    ShlNext(0, 0);
    assert Pow2(0) == 1 by { PowZero(); }
    assert n / 1 == n;
  }

  lemma PowZero()
    ensures Pow2(0) == 1
  {
  }

  lemma HasBit(n: u32, k: nat, mask: bv32)
    requires Shl(1, k) == mask && mask != 0
    ensures Has(n, mask) <==> (n / Pow2(k)) % 2 == 1
  {
    hide Shl, Word, And, Pow2;
    BitAt(n, k);
    ShlNothing(k);
  }

  // ------------------------------------------------- the shifts in use

  lemma ShlNext(x: bv32, k: nat)
    ensures Shl(x, 0) == x && Shl(x, k + 1) == Push(Shl(x, k), false)
  {
  }

  lemma {:induction false} ShlSum(x: bv32, a: nat, b: nat)
    ensures Shl(Shl(x, a), b) == Shl(x, a + b)
  {
    hide Push;
    if b != 0 {
      ShlSum(x, a, b - 1);
    }
  }

  lemma Shl1(x: bv32)
    ensures Shl(x, 1) == x << 1
  {
    hide Shl;
    ShlNext(x, 0);
    PushIs(x, false);
  }

  lemma Shl2(x: bv32)
    ensures Shl(x, 2) == x << 2
  {
    assert (x << 1) << 1 == x << 2;
    hide Shl;
    Shl1(x);
    Shl1(x << 1);
    ShlSum(x, 1, 1);
  }

  lemma Shl4(x: bv32)
    ensures Shl(x, 4) == x << 4
  {
    assert (x << 2) << 2 == x << 4;
    hide Shl;
    Shl2(x);
    Shl2(x << 2);
    ShlSum(x, 2, 2);
  }

  lemma Shl7(x: bv32)
    ensures Shl(x, 7) == x << 7
  {
    assert ((x << 4) << 2) << 1 == x << 7;
    hide Shl;
    Shl4(x);
    Shl2(x << 4);
    Shl1((x << 4) << 2);
    ShlSum(x, 4, 2);
    ShlSum(x, 6, 1);
  }

  lemma Shl8(x: bv32)
    ensures Shl(x, 8) == x << 8
  {
    assert (x << 4) << 4 == x << 8;
    hide Shl;
    Shl4(x);
    Shl4(x << 4);
    ShlSum(x, 4, 4);
  }

  lemma Shl14(x: bv32)
    ensures Shl(x, 14) == x << 14
  {
    assert ((x << 8) << 4) << 2 == x << 14;
    hide Shl;
    Shl8(x);
    Shl4(x << 8);
    Shl2((x << 8) << 4);
    ShlSum(x, 8, 4);
    ShlSum(x, 12, 2);
  }

  lemma Shl15(x: bv32)
    ensures Shl(x, 15) == x << 15
  {
    assert (x << 8) << 7 == x << 15;
    hide Shl;
    Shl8(x);
    Shl7(x << 8);
    ShlSum(x, 8, 7);
  }

  lemma Shl16(x: bv32)
    ensures Shl(x, 16) == x << 16
  {
    assert (x << 8) << 8 == x << 16;
    hide Shl;
    Shl8(x);
    Shl8(x << 8);
    ShlSum(x, 8, 8);
  }

  lemma Shl19(x: bv32)
    ensures Shl(x, 19) == x << 19
  {
    assert ((x << 16) << 2) << 1 == x << 19;
    hide Shl;
    Shl16(x);
    Shl2(x << 16);
    Shl1((x << 16) << 2);
    ShlSum(x, 16, 2);
    ShlSum(x, 18, 1);
  }

  function Left1(x: bv32): (y: bv32)
    ensures y == Shl(x, 1)
  {
    Shl1(x);
    x << 1
  }

  function Left7(x: bv32): (y: bv32)
    ensures y == Shl(x, 7)
  {
    Shl7(x);
    x << 7
  }

  function Left8(x: bv32): (y: bv32)
    ensures y == Shl(x, 8)
  {
    Shl8(x);
    x << 8
  }

  function Left14(x: bv32): (y: bv32)
    ensures y == Shl(x, 14)
  {
    Shl14(x);
    x << 14
  }

  function Left15(x: bv32): (y: bv32)
    ensures y == Shl(x, 15)
  {
    Shl15(x);
    x << 15
  }

  function Left16(x: bv32): (y: bv32)
    ensures y == Shl(x, 16)
  {
    Shl16(x);
    x << 16
  }

  function Left19(x: bv32): (y: bv32)
    ensures y == Shl(x, 19)
  {
    Shl19(x);
    x << 19
  }

  lemma Masks()
    ensures Mask(7) == 0x7F && Mask(8) == 0xFF && Mask(14) == 0x3FFF && Mask(15) == 0x7FFF && Mask(18) == 0x3FFFF
  {
    assert Mask(3) == 7;
    assert Mask(6) == 0x3F;
    assert Mask(9) == 0x1FF;
    assert Mask(12) == 0xFFF;
    assert Mask(15) == 0x7FFF;
  }

  lemma Sizes()
    ensures Pow2(1) == 2 && Pow2(7) == 0x80 && Pow2(8) == 0x100 && Pow2(14) == 0x4000 && Pow2(15) == 0x8000
    ensures Pow2(16) == 0x1_0000 && Pow2(18) == 0x4_0000 && Pow2(19) == 0x8_0000
  {
    assert Pow2(8) == 0x100;
    assert Pow2(16) == 0x1_0000;
  }
}
