/**
  What the parity bits of the header words say: with the bits of a field counted one by one, the field and
  its parity bit hold an odd number of ones, so that a header with one flipped bit is no header.
 */
module Parity {
  import opened Words
  import opened MachineWords
  import opened Pm4
  import opened HeaderWords

  // The ones of a number, bit by bit.
  function Ones(n: nat): nat {
    if n == 0 then 0 else n % 2 + Ones(n / 2)
  }

  function Other(bit: bv32): bv32 {
    1 - bit
  }

  predicate TopClear(x: bv32) {
    x & 0x8000_0000 == 0
  }

  lemma TopBitClear(x: bv32)
    requires And(x, 0x7FFF_FFFF) == x
    ensures TopClear(x)
  {
  }

  lemma ZeroBit(x: bv32)
    requires TopClear(x)
    ensures ParityBits(x << 1) == ParityBits(x)
  {
  }

  lemma OneBit(x: bv32)
    requires TopClear(x)
    ensures ParityBits((x << 1) | 1) == Other(ParityBits(x))
  {
  }

  lemma PushZeroBit(x: bv32)
    requires TopClear(x)
    ensures ParityBits(Push(x, false)) == ParityBits(x)
  {
    hide *;
    PushIs(x, false);
    ZeroBit(x);
  }

  lemma PushOneBit(x: bv32)
    requires TopClear(x)
    ensures ParityBits(Push(x, true)) == Other(ParityBits(x))
  {
    hide *;
    PushIs(x, true);
    OneBit(x);
  }

  lemma Mask31()
    ensures Mask(31) == 0x7FFF_FFFF && Pow2(31) == 0x8000_0000
  {
    assert Mask(8) == 0xFF && Pow2(8) == 0x100;
    assert Mask(16) == 0xFFFF && Pow2(16) == 0x1_0000;
    assert Mask(24) == 0xFF_FFFF && Pow2(24) == 0x100_0000;
  }

  // One more bit changes the parity exactly if it is set.
  lemma ParityPush(n: u32)
    ensures ParityBits(Word(n)) == if n % 2 == 1 then Other(ParityBits(Word(n / 2))) else ParityBits(Word(n / 2))
  {
    hide *;
    Mask31();
    Fits(n / 2, 31);
    TopBitClear(Word(n / 2));
    WordUnfold(n);
    if n % 2 == 1 {
      PushOneBit(Word(n / 2));
    } else {
      PushZeroBit(Word(n / 2));
    }
  }

  lemma OtherBit(bit: bv32)
    requires bit == 0 || bit == 1
    ensures Other(bit) == 1 <==> bit != 1
  {
  }

  lemma ParityStep(n: u32)
    ensures OddParity(n) == if n % 2 == 1 then 1 - OddParity(n / 2) else OddParity(n / 2)
  {
    hide *;
    hide ParityBits, Other, Word;
    ParityPush(n);
    ParityIsOneBit(Word(n / 2));
    OtherBit(ParityBits(Word(n / 2)));
    ParityMeans(n);
    ParityMeans(n / 2);
  }

  lemma ParityMeans(n: u32)
    ensures OddParity(n) == if ParityBits(Word(n)) == 1 then 1 else 0
  {
  }

  lemma ParityOfNothing()
    ensures OddParity(0) == 1
  {
  }

  lemma OnesUnfold(n: nat)
    ensures Ones(n) == if n == 0 then 0 else n % 2 + Ones(n / 2)
  {
  }

  lemma OneMore(ones: nat, parity: nat, bit: nat)
    requires (ones + parity) % 2 == 1 && parity <= 1 && bit <= 1
    ensures (bit + ones + if bit == 1 then 1 - parity else parity) % 2 == 1
  {
  }

  /** For every field, its ones and its parity bit together are an odd number of ones. */
  lemma {:induction false} OddTogether(n: u32)
    ensures (Ones(n) + OddParity(n)) % 2 == 1
  {
    hide OddParity, Ones;
    OnesUnfold(n);
    if n == 0 {
      ParityOfNothing();
    } else {
      OddTogether(n / 2);
      ParityStep(n);
      OneMore(Ones(n / 2), OddParity(n / 2), n % 2);
    }
  }

  // ------------------------------------------------------- one flipped bit

  function Flip(n: nat, i: nat): nat {
    if i > 0 then 2 * Flip(n / 2, i - 1) + n % 2 else if n % 2 == 1 then n - 1 else n + 1
  }

  lemma {:induction false} FlipOnes(n: nat, i: nat)
    ensures Ones(Flip(n, i)) == Ones(n) + 1 || Ones(Flip(n, i)) == Ones(n) - 1
  {
    if i > 0 {
      FlipOnes(n / 2, i - 1);
      assert Flip(n, i) / 2 == Flip(n / 2, i - 1) && Flip(n, i) % 2 == n % 2;
    } else {
      assert Flip(n, i) / 2 == n / 2 && Flip(n, i) % 2 == 1 - n % 2;
    }
  }

  lemma FlipShows(n: u32, i: nat)
    requires Flip(n, i) < 0x1_0000_0000
    ensures OddParity(Flip(n, i)) != OddParity(n)
  {
    hide OddParity, Flip, Ones;
    OddTogether(n);
    OddTogether(Flip(n, i));
    FlipOnes(n, i);
  }

  lemma {:induction false} FlipLow(h: nat, x: nat, m: nat, i: nat)
    requires x < Pow2(m) && i < m
    ensures Flip(x, i) < Pow2(m) && Flip(h * Pow2(m) + x, i) == h * Pow2(m) + Flip(x, i)
  {
    Halves(h, x, m);
    if i > 0 {
      FlipLow(h, x / 2, m - 1, i - 1);
      Twice(h, Pow2(m - 1));
    }
  }

  lemma Twice(h: nat, d: nat)
    ensures h * (2 * d) == 2 * (h * d)
  {
  }

  lemma {:induction false} FlipHigh(h: nat, l: nat, k: nat, i: nat)
    requires l < Pow2(k) && k <= i
    ensures Flip(h * Pow2(k) + l, i) == Flip(h, i - k) * Pow2(k) + l
  {
    hide Pow2, Flip;
    Unpow(k);
    if k > 0 {
      Halves(h, l, k);
      FlipHigh(h, l / 2, k - 1, i - 1);
      FlipNext(h * Pow2(k) + l, i);
      Twice(Flip(h, i - k), Pow2(k - 1));
    } else {
      assert h * Pow2(k) + l == h;
    }
  }

  lemma Unpow(k: nat)
    ensures Pow2(k) == if k == 0 then 1 else 2 * Pow2(k - 1)
  {
  }

  lemma FlipNext(n: nat, i: nat)
    requires i > 0
    ensures Flip(n, i) == 2 * Flip(n / 2, i - 1) + n % 2
  {
  }

  // A flipped bit inside the field `x` of `m` bits, `k` bits up.
  lemma FlipField(w: nat, h: nat, x: nat, m: nat, mm: nat, l: nat, k: nat, kk: nat, i: nat)
    requires mm == Pow2(m) && kk == Pow2(k)
    requires x < mm && l < kk && k <= i < k + m && w == (h * mm + x) * kk + l
    ensures Flip(x, i - k) < mm && Flip(w, i) == (h * mm + Flip(x, i - k)) * kk + l
  {
    hide Pow2, Flip;
    FlipLow(h, x, m, i - k);
    FlipHigh(h * Pow2(m) + x, l, k, i);
  }

  lemma FlipBit(b: nat)
    requires b <= 1
    ensures Flip(b, 0) == 1 - b
  {
  }

  lemma MoreSizes()
    ensures Pow2(0) == 1 && Pow2(23) == 0x80_0000 && Pow2(27) == 0x800_0000
  {
    Sizes();
    assert Pow2(20) == 0x10_0000;
  }

  lemma Type4Count(reg: u32, n: u32, p: nat, q: nat, w: u32, i: nat)
    requires reg < 0x4_0000 && n < 0x80 && p == OddParity(reg) && q == OddParity(n) && i < 7
    requires w == 0x4000_0000 + n + q * 0x80 + reg * 0x100 + p * 0x800_0000
    ensures Flip(w, i) < 0x1_0000_0000 && ReadHeader(Flip(w, i)) == None
  {
    hide OddParity, Flip, Pow2;
    Sizes();
    MoreSizes();
    FlipField(w, 0x80_0000 + q + reg * 2 + p * 0x10_0000, n, 7, 0x80, 0, 0, 1, i);
    FlipShows(n, i);
    Type4Arithmetic(reg, Flip(n, i), p, q, Flip(w, i));
  }

  lemma Type4CountParity(reg: u32, n: u32, p: nat, q: nat, w: u32, i: nat)
    requires reg < 0x4_0000 && n < 0x80 && p == OddParity(reg) && q == OddParity(n) && i == 7
    requires w == 0x4000_0000 + n + q * 0x80 + reg * 0x100 + p * 0x800_0000
    ensures Flip(w, i) < 0x1_0000_0000 && ReadHeader(Flip(w, i)) == None
  {
    hide OddParity, Flip, Pow2;
    Sizes();
    MoreSizes();
    FlipField(w, 0x40_0000 + reg + p * 0x8_0000, q, 1, 2, n, 7, 0x80, i);
    FlipBit(q);
    Type4Arithmetic(reg, n, p, 1 - q, Flip(w, i));
  }

  lemma Type4Key(reg: u32, n: u32, p: nat, q: nat, w: u32, i: nat)
    requires reg < 0x4_0000 && n < 0x80 && p == OddParity(reg) && q == OddParity(n) && 8 <= i < 27
    requires w == 0x4000_0000 + n + q * 0x80 + reg * 0x100 + p * 0x800_0000
    ensures Flip(w, i) < 0x1_0000_0000 && ReadHeader(Flip(w, i)) == None
  {
    hide OddParity, Flip, Pow2;
    Sizes();
    MoreSizes();
    FlipField(w, 8 + p, reg, 19, 0x8_0000, n + q * 0x80, 8, 0x100, i);
    FlipShows(reg, i - 8);
    Type4Arithmetic(Flip(reg, i - 8), n, p, q, Flip(w, i));
  }

  lemma Type4KeyParity(reg: u32, n: u32, p: nat, q: nat, w: u32, i: nat)
    requires reg < 0x4_0000 && n < 0x80 && p == OddParity(reg) && q == OddParity(n) && i == 27
    requires w == 0x4000_0000 + n + q * 0x80 + reg * 0x100 + p * 0x800_0000
    ensures Flip(w, i) < 0x1_0000_0000 && ReadHeader(Flip(w, i)) == None
  {
    hide OddParity, Flip, Pow2;
    Sizes();
    MoreSizes();
    FlipField(w, 4, p, 1, 2, n + q * 0x80 + reg * 0x100, 27, 0x800_0000, i);
    FlipBit(p);
    Type4Arithmetic(reg, n, 1 - p, q, Flip(w, i));
  }

  lemma Type4Shows(reg: u32, n: u32, w: u32, i: nat)
    requires reg < 0x4_0000 && n < 0x80 && i < 28
    requires w == 0x4000_0000 + n + OddParity(n) * 0x80 + reg * 0x100 + OddParity(reg) * 0x800_0000
    ensures Flip(w, i) < 0x1_0000_0000 && ReadHeader(Flip(w, i)) == None
  {
    hide OddParity, Flip, ReadHeader;
    var p, q := OddParity(reg), OddParity(n);
    if i < 7 {
      Type4Count(reg, n, p, q, w, i);
    } else if i == 7 {
      Type4CountParity(reg, n, p, q, w, i);
    } else if i < 27 {
      Type4Key(reg, n, p, q, w, i);
    } else {
      Type4KeyParity(reg, n, p, q, w, i);
    }
  }

  lemma Type7Count(op: u32, n: u32, p: nat, q: nat, w: u32, i: nat)
    requires op < 0x80 && n < 0x4000 && p == OddParity(op) && q == OddParity(n) && i < 14
    requires w == 0x7000_0000 + n + q * 0x8000 + op * 0x1_0000 + p * 0x80_0000
    ensures Flip(w, i) < 0x1_0000_0000 && ReadHeader(Flip(w, i)) == None
  {
    hide OddParity, Flip, Pow2;
    Sizes();
    MoreSizes();
    FlipField(w, 0x1C000 + q * 2 + op * 4 + p * 0x200, n, 14, 0x4000, 0, 0, 1, i);
    FlipShows(n, i);
    Type7Arithmetic(op, Flip(n, i), p, q, Flip(w, i));
  }

  lemma Type7CountParity(op: u32, n: u32, p: nat, q: nat, w: u32, i: nat)
    requires op < 0x80 && n < 0x4000 && p == OddParity(op) && q == OddParity(n) && i == 15
    requires w == 0x7000_0000 + n + q * 0x8000 + op * 0x1_0000 + p * 0x80_0000
    ensures Flip(w, i) < 0x1_0000_0000 && ReadHeader(Flip(w, i)) == None
  {
    hide OddParity, Flip, Pow2;
    Sizes();
    MoreSizes();
    FlipField(w, 0x7000 + op + p * 0x80, q, 1, 2, n, 15, 0x8000, i);
    FlipBit(q);
    Type7Arithmetic(op, n, p, 1 - q, Flip(w, i));
  }

  lemma Type7Key(op: u32, n: u32, p: nat, q: nat, w: u32, i: nat)
    requires op < 0x80 && n < 0x4000 && p == OddParity(op) && q == OddParity(n) && 16 <= i < 23
    requires w == 0x7000_0000 + n + q * 0x8000 + op * 0x1_0000 + p * 0x80_0000
    ensures Flip(w, i) < 0x1_0000_0000 && ReadHeader(Flip(w, i)) == None
  {
    hide OddParity, Flip, Pow2;
    Sizes();
    MoreSizes();
    FlipField(w, 0xE0 + p, op, 7, 0x80, n + q * 0x8000, 16, 0x1_0000, i);
    FlipShows(op, i - 16);
    Type7Arithmetic(Flip(op, i - 16), n, p, q, Flip(w, i));
  }

  lemma Type7KeyParity(op: u32, n: u32, p: nat, q: nat, w: u32, i: nat)
    requires op < 0x80 && n < 0x4000 && p == OddParity(op) && q == OddParity(n) && i == 23
    requires w == 0x7000_0000 + n + q * 0x8000 + op * 0x1_0000 + p * 0x80_0000
    ensures Flip(w, i) < 0x1_0000_0000 && ReadHeader(Flip(w, i)) == None
  {
    hide OddParity, Flip, Pow2;
    Sizes();
    MoreSizes();
    FlipField(w, 0x70, p, 1, 2, n + q * 0x8000 + op * 0x1_0000, 23, 0x80_0000, i);
    FlipBit(p);
    Type7Arithmetic(op, n, 1 - p, q, Flip(w, i));
  }

  lemma Type7Shows(op: u32, n: u32, w: u32, i: nat)
    requires op < 0x80 && n < 0x4000 && i < 24 && i != 14
    requires w == 0x7000_0000 + n + OddParity(n) * 0x8000 + op * 0x1_0000 + OddParity(op) * 0x80_0000
    ensures Flip(w, i) < 0x1_0000_0000 && ReadHeader(Flip(w, i)) == None
  {
    hide OddParity, Flip, ReadHeader;
    var p, q := OddParity(op), OddParity(n);
    if i < 14 {
      Type7Count(op, n, p, q, w, i);
    } else if i == 15 {
      Type7CountParity(op, n, p, q, w, i);
    } else if i < 23 {
      Type7Key(op, n, p, q, w, i);
    } else {
      Type7KeyParity(op, n, p, q, w, i);
    }
  }

  // The bits a type 4 and a type 7 header keep their register, opcode, size and parities in.
  predicate InFields(p: Packet, i: nat) {
    match p
    case Type4(_, _) => i < 28
    case Type7(_, _) => i < 24 && i != 14
    case _ => false
  }

  /** A header with any one bit of its fields flipped is refused. */
  lemma FlippedBitRefused(p: Packet, i: nat)
    requires Encodable(p) && InFields(p, i)
    ensures Flip(Header(p), i) < 0x1_0000_0000 && ReadHeader(Flip(Header(p), i)) == None
  {
    hide Flip, OddParity, ReadHeader;
    match p
    case Type4(reg, payload) => Type4Shows(reg, |payload|, Header(p), i);
    case Type7(op, payload) => Type7Shows(op, |payload|, Header(p), i);
  }
}
