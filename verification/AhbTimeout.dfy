/** The AHB timeout the GMU is given: the largest power of two of cycles below the NOC timeout. */
module AhbTimeout {
  import opened Words
  import opened Bits

  const HZ_PER_MHZ: nat := 1_000_000
  const AHB_MIN_TIMEOUT_USEC: nat := 1000

  function Mul64(x: nat, y: nat): u64 {
    (x * y) % TWO_64
  }

  // ilog2() of a 64-bit number, as a u32; it has no bit set for 0.
  function Ilog2(x: u64): u32 {
    if x == 0 then TWO_32 - 1 else IlogFits(x); Log2(x)
  }

  lemma IlogFits(x: u64)
    requires x >= 1
    ensures Log2(x) < 64
  {
    Pow2Of64();
    Log2Less(x, 64);
  }

  lemma Pow2Of64()
    ensures Pow2(10) == 1024 && Pow2(31) == 0x8000_0000 && Pow2(32) == TWO_32 && Pow2(64) == TWO_64
  {
    assert Pow2(8) == 256;
    assert Pow2(16) == 0x1_0000;
    assert Pow2(24) == 0x100_0000;
    assert Pow2(31) == 0x8000_0000;
    assert Pow2(40) == 0x100_0000_0000;
    assert Pow2(48) == 0x1_0000_0000_0000;
    assert Pow2(56) == 0x100_0000_0000_0000;
  }

  // 1 << n for an int, widened to an unsigned 64-bit number: bit 31 is its sign.
  function ShiftedInt(n: nat): u64
    requires n <= 31
  {
    if n == 31 then TWO_64 - 0x8000_0000 else Pow2Small(n); Pow2(n)
  }

  lemma Pow2Small(n: nat)
    requires n < 31
    ensures Pow2(n) < 0x8000_0000
  {
    Pow2Of64();
    Pow2Monotone(n, 31);
  }

  function Mhz(freq: u64): nat {
    freq / HZ_PER_MHZ
  }

  /** adreno_get_ahb_timeout_val() */
  method GetAhbTimeoutVal(freq: u64, nocTimeoutUs: u32) returns (v: u32)
    ensures v == TimeoutVal(freq, nocTimeoutUs)
  {
    if nocTimeoutUs == 0 {
      return 0;
    }
    var mhz := freq / HZ_PER_MHZ;
    var cycles: u64 := Mul64(mhz, nocTimeoutUs);
    if IsPowerOf2(cycles) {
      cycles := cycles - 1;
    }
    var val := Ilog2(cycles);
    if val > 31 {
      return 0;
    }
    if Mul64(AHB_MIN_TIMEOUT_USEC, mhz) > ShiftedInt(val) {
      return 0;
    }
    if val == 0 {
      v := TWO_32 - 1;
    } else {
      v := val - 1;
    }
  }

  function TimeoutVal(freq: u64, nocTimeoutUs: u32): u32 {
    var cycles := Mul64(Mhz(freq), nocTimeoutUs);
    var val := Ilog2(if IsPowerOf2(cycles) then cycles - 1 else cycles);
    if nocTimeoutUs == 0 || val > 31 || Mul64(AHB_MIN_TIMEOUT_USEC, Mhz(freq)) > ShiftedInt(val) then 0
    else if val == 0 then TWO_32 - 1 else val - 1
  }

  // Between two powers of two, also when the number is one itself.
  lemma BelowPower(cycles: nat)
    requires cycles >= 2
    ensures var n := Log2(if IsPowerOf2(cycles) then cycles - 1 else cycles);
            Pow2(n) < cycles <= Pow2(n + 1)
  {
    hide Log2;
    Log2Bounds(cycles);
    if IsPowerOf2(cycles) {
      Log2Bounds(cycles - 1);
      var k, n := Log2(cycles), Log2(cycles - 1);
      if k <= n {
        if k < n {
          Pow2Monotone(k, n);
        }
      } else if n + 1 < k {
        Pow2Monotone(n + 1, k);
      }
    }
  }

  /**
    A timeout v other than 0 is the largest for which 2^(v+1) cycles are less than the NOC timeout, and
    it fits its field. It is long enough unless it is the longest there is and the clock is so fast that
    the least timeout takes more than 2^31 cycles.
   */
  lemma TimeoutBounds(freq: u64, nocTimeoutUs: u32)
    requires (freq / 1_000_000) * nocTimeoutUs < TWO_64 && TimeoutVal(freq, nocTimeoutUs) != 0
    ensures var v, cycles := TimeoutVal(freq, nocTimeoutUs), (freq / 1_000_000) * nocTimeoutUs;
            && 9 <= v <= 30 && Pow2(v + 1) < cycles <= Pow2(v + 2)
            && (Pow2(v + 1) >= 1000 * (freq / 1_000_000)
                <==> v < 30 || 1000 * (freq / 1_000_000) <= 0x8000_0000)
  {
    assert Mhz(freq) == freq / 1_000_000 && AHB_MIN_TIMEOUT_USEC == 1000;
    hide *;
    var cycles: nat := Mhz(freq) * nocTimeoutUs;
    Decided(freq, nocTimeoutUs, cycles);
    CyclesBounds(Mhz(freq), nocTimeoutUs, cycles, TimeoutVal(freq, nocTimeoutUs));
  }

  /**
    Exactly when there is a timeout: the NOC timeout is between 2 and 2^32 cycles, and the greatest power of two
    below it is not too short, or is 2^31, for which the minimum is not looked at. Its exponent less one is the result.
   */
  lemma TimeoutExact(freq: u64, nocTimeoutUs: u32)
    requires (freq / 1_000_000) * nocTimeoutUs < TWO_64
    ensures var v, cycles := TimeoutVal(freq, nocTimeoutUs), (freq / 1_000_000) * nocTimeoutUs;
            && (v != 0 <==> 2 <= cycles <= TWO_32
                            && (1000 * (freq / 1_000_000) <= Pow2(Log2(cycles - 1)) || cycles > 0x8000_0000))
            && (v != 0 ==> v + 1 == Log2(cycles - 1))
  {
    assert Mhz(freq) == freq / 1_000_000 && AHB_MIN_TIMEOUT_USEC == 1000;
    hide *;
    var cycles: nat := Mhz(freq) * nocTimeoutUs;
    Undecided(freq, nocTimeoutUs, cycles);
    CyclesExact(Mhz(freq), nocTimeoutUs, cycles);
  }

  // What is computed, without the 64-bit products.
  predicate Accepted(mhz: nat, cycles: u64) {
    var n := Ilog2(Adjusted(cycles));
    n <= 31 && AHB_MIN_TIMEOUT_USEC * mhz <= ShiftedInt(n)
  }

  lemma Undecided(freq: u64, nocTimeoutUs: u32, cycles: nat)
    requires cycles == Mhz(freq) * nocTimeoutUs && cycles < TWO_64
    ensures var n := Ilog2(Adjusted(cycles));
            TimeoutVal(freq, nocTimeoutUs) ==
              if !Accepted(Mhz(freq), cycles) || nocTimeoutUs == 0 then 0 else if n == 0 then TWO_32 - 1 else n - 1
  {
    hide Ilog2, ShiftedInt, IsPowerOf2;
    ClockFits(freq);
    Field64(cycles);
    Field64(AHB_MIN_TIMEOUT_USEC * Mhz(freq));
  }

  lemma CyclesExact(mhz: nat, us: nat, cycles: nat)
    requires cycles == mhz * us && cycles < TWO_64
    ensures var n := Ilog2(Adjusted(cycles));
            && (Accepted(mhz, cycles) <==> 2 <= cycles <= TWO_32
                                           && (AHB_MIN_TIMEOUT_USEC * mhz <= Pow2(Log2(cycles - 1))
                                               || cycles > 0x8000_0000))
            && (Accepted(mhz, cycles) ==> n >= 10 && us > 0 && n == Log2(cycles - 1))
  {
    hide Log2, Pow2, ShiftedInt;
    if cycles < 2 {
      SmallCycles(cycles);
    } else {
      Nonzero(mhz, us);
      assert 1 <= mhz <= cycles && us >= 1;
      BelowPower(cycles);
      var n := Log2(Adjusted(cycles));
      AtMost32(cycles, n);
      Log2Unique(cycles - 1, n);
      if n <= 31 {
        MinimumChecked(mhz, n);
      }
      if n <= 31 && AHB_MIN_TIMEOUT_USEC * mhz <= ShiftedInt(n) {
        LongEnough(mhz, n);
      }
    }
  }

  lemma AtMost32(cycles: nat, n: nat)
    requires Pow2(n) < cycles <= Pow2(n + 1)
    ensures n <= 31 <==> cycles <= TWO_32
    ensures n <= 31 ==> (n == 31 <==> cycles > 0x8000_0000)
  {
    hide Pow2;
    Pow2Of64();
    if n < 31 {
      if n + 1 < 31 {
        Pow2Monotone(n + 1, 31);
      }
    } else if n > 31 {
      if n > 32 {
        Pow2Monotone(32, n);
      }
    }
  }

  lemma MinimumChecked(mhz: nat, n: nat)
    requires n <= 31 && AHB_MIN_TIMEOUT_USEC * mhz < TWO_64 - 0x8000_0000
    ensures AHB_MIN_TIMEOUT_USEC * mhz <= ShiftedInt(n) <==> AHB_MIN_TIMEOUT_USEC * mhz <= Pow2(n) || n == 31
  {
    hide Pow2;
  }

  function Adjusted(cycles: nat): nat {
    if IsPowerOf2(cycles) then cycles - 1 else cycles
  }

  // A result other than 0, without the 64-bit products.
  lemma Decided(freq: u64, nocTimeoutUs: u32, cycles: nat)
    requires cycles == Mhz(freq) * nocTimeoutUs && cycles < TWO_64 && TimeoutVal(freq, nocTimeoutUs) != 0
    ensures var n := Ilog2(Adjusted(cycles));
            n <= 31 && AHB_MIN_TIMEOUT_USEC * Mhz(freq) <= ShiftedInt(n)
            && TimeoutVal(freq, nocTimeoutUs) == if n == 0 then TWO_32 - 1 else n - 1
  {
    hide Ilog2, ShiftedInt, IsPowerOf2;
    ClockFits(freq);
    Field64(cycles);
    Field64(AHB_MIN_TIMEOUT_USEC * Mhz(freq));
  }

  lemma CyclesBounds(mhz: nat, us: nat, cycles: nat, v: nat)
    requires cycles == mhz * us && cycles < TWO_64
    requires var n := Ilog2(Adjusted(cycles));
             n <= 31 && AHB_MIN_TIMEOUT_USEC * mhz <= ShiftedInt(n) && v == if n == 0 then TWO_32 - 1 else n - 1
    ensures 9 <= v <= 30 && Pow2(v + 1) < cycles <= Pow2(v + 2)
    ensures Pow2(v + 1) >= AHB_MIN_TIMEOUT_USEC * mhz <==> v < 30 || AHB_MIN_TIMEOUT_USEC * mhz <= 0x8000_0000
  {
    hide Log2, Pow2, ShiftedInt;
    if cycles < 2 {
      SmallCycles(cycles);
    } else {
      Nonzero(mhz, us);
      BelowPower(cycles);
      LongEnough(mhz, Ilog2(Adjusted(cycles)));
    }
  }

  lemma Nonzero(mhz: nat, us: nat)
    requires mhz * us >= 1
    ensures 1 <= mhz <= mhz * us && us >= 1
  {
    assert mhz * us == mhz * (us - 1) + mhz;
  }

  // What the check of the minimum leaves.
  lemma LongEnough(mhz: nat, n: nat)
    requires 1 <= mhz && n <= 31 && AHB_MIN_TIMEOUT_USEC * mhz <= ShiftedInt(n)
    ensures n >= 10
    ensures Pow2(n) >= AHB_MIN_TIMEOUT_USEC * mhz <==> n < 31 || AHB_MIN_TIMEOUT_USEC * mhz <= 0x8000_0000
  {
    hide Pow2;
    Pow2Of64();
    if n < 10 {
      Pow2Monotone(n, 10);
    }
  }

  lemma Field64(x: nat)
    requires x < TWO_64
    ensures x % TWO_64 == x
  {
  }

  lemma ClockFits(freq: u64)
    ensures AHB_MIN_TIMEOUT_USEC * Mhz(freq) < TWO_64
  {
  }

  lemma SmallCycles(cycles: nat)
    requires cycles < 2
    ensures (if IsPowerOf2(cycles) then cycles - 1 else cycles) == 0
  {
  }

  /**
    No listed core comes near: up to 200 MHz every timeout is long enough and below the NOC timeout, without overflow.
   */
  lemma ListedClocks(freq: u64, nocTimeoutUs: u32)
    requires freq <= 200_000_000 && TimeoutVal(freq, nocTimeoutUs) != 0
    ensures var v, cycles := TimeoutVal(freq, nocTimeoutUs), (freq / 1_000_000) * nocTimeoutUs;
            9 <= v <= 30 && 1000 * (freq / 1_000_000) <= Pow2(v + 1) < cycles
  {
    assert Mhz(freq) == freq / 1_000_000 && AHB_MIN_TIMEOUT_USEC == 1000;
    hide TimeoutVal, Pow2;
    SlowClock(Mhz(freq), nocTimeoutUs);
    TimeoutBounds(freq, nocTimeoutUs);
  }

  lemma SlowClock(mhz: nat, us: u32)
    requires mhz <= 200
    ensures mhz * us < TWO_64
  {
    assert mhz * us <= 200 * us;
  }

  /** At 2147484 MHz, which no listed core has, the timeout 2^31 is granted although a millisecond takes longer. */
  lemma TooFast()
    ensures var freq := 2147484_000_000;
            TimeoutVal(freq, 1001) == 30 && Pow2(31) < AHB_MIN_TIMEOUT_USEC * Mhz(freq)
  {
    hide Log2, Pow2;
    var cycles := 2147484 * 1001;
    Pow2Of64();
    BelowPower(cycles);
    Log2Unique(cycles, 31);
    assert !IsPowerOf2(cycles);
  }
}
