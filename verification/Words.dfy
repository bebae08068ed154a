/** Fixed-width machine words as the driver uses them, and the stock Option. */
module Words {

  datatype Option<+T> = None | Some(value: T)

  const TWO_32: int := 0x1_0000_0000
  const TWO_64: int := 0x1_0000_0000_0000_0000

  type u32 = x: int | 0 <= x < 0x1_0000_0000
  type u64 = x: int | 0 <= x < 0x1_0000_0000_0000_0000

  // lower_32_bits() and upper_32_bits().
  function Lo(x: u64): u32 {
    x % TWO_32
  }

  function Hi(x: u64): u32 {
    x / TWO_32
  }

  // The 64-bit value the command processor assembles from two payload dwords.
  function Join(lo: u32, hi: u32): (x: u64)
    ensures Lo(x) == lo && Hi(x) == hi
  {
    hi * TWO_32 + lo
  }

  lemma JoinSplit(x: u64)
    ensures Join(Lo(x), Hi(x)) == x
  {
  }

  // 64-bit unsigned addition, as used for GPU addresses.
  function Add64(x: u64, offset: nat): u64 {
    (x + offset) % TWO_64
  }

  function Pow2(n: nat): (p: nat)
    ensures p >= 1
  {
    if n == 0 then 1 else 2 * Pow2(n - 1)
  }

  // ------------------------------------------------------ division by hand

  lemma MulAtLeast(d: nat, x: nat)
    requires x >= 1
    ensures d * x >= d
  {
    assert d * x == d * (x - 1) + d;
  }

  lemma Distribute(d: int, x: int, y: int)
    ensures d * x - d * y == d * (x - y)
  {
  }

  lemma Field(w: nat, d: nat, high: nat, low: nat)
    requires w == d * high + low && low < d
    ensures w / d == high && w % d == low
  {
    var q, r := w / d, w % d;
    assert w == d * q + r;
    Distribute(d, q, high);
    Distribute(d, high, q);
    if q > high {
      MulAtLeast(d, q - high);
    } else if q < high {
      MulAtLeast(d, high - q);
    }
  }
}
