/**
  The header words of the code: fields OR-ed together after shifts and masks, and the
  type tests and field macros on such words. `HeaderWord` says that they are the sums
  of `Pm4.Header`, on which the decoder is defined.
 */
module HeaderWords {
  import opened Words
  import opened MachineWords
  import opened Pm4

  function Type0Bits(reg: bv32, count: bv32): bv32 {
    ((count - 1) << 16) | (reg & 0x7FFF)
  }

  function Type3Bits(op: bv32, count: bv32): bv32 {
    0xC000_0000 | ((count - 1) << 16) | ((op & 0xFF) << 8)
  }

  function Type4Bits(reg: bv32, count: bv32): bv32 {
    0x4000_0000 | count | (ParityBits(count) << 7) | ((reg & 0x3FFFF) << 8) | (ParityBits(reg) << 27)
  }

  function Type7Bits(op: bv32, count: bv32): bv32 {
    0x7000_0000 | count | (ParityBits(count) << 15) | ((op & 0x7F) << 16) | (ParityBits(op) << 23)
  }

  function HeaderBits(p: Packet): bv32 {
    match p
    case Type0(reg, payload) => Type0Bits(Word(reg), Word(|payload|))
    case Type3(op, payload) => Type3Bits(Word(op), Word(|payload|))
    case Type4(reg, payload) => Type4Bits(Word(reg), Word(|payload|))
    case Type7(op, payload) => Type7Bits(Word(op), Word(|payload|))
  }

  // ------------------------------------------------- from sums to OR-ed fields

  lemma ParityIsOneBit(v: bv32)
    ensures ParityBits(v) == 0 || ParityBits(v) == 1
  {
  }

  lemma SmallWords()
    ensures Word(0) == 0 && Word(1) == 1 && Word(3) == 3 && Word(8) == 8 && Word(9) == 9
    ensures Word(0xE0) == 0xE0 && Word(0xE1) == 0xE1
  {
    assert Word(3) == 3;
    assert Word(4) == 4;
    assert Word(7) == 7;
    assert Word(0xE) == 0xE;
    assert Word(0x1C) == 0x1C;
    assert Word(0x70) == 0x70;
  }

  lemma ParityWord(v: u32)
    ensures Word(OddParity(v)) == ParityBits(Word(v))
    ensures Word(8 + OddParity(v)) == Or(8, ParityBits(Word(v)))
    ensures Word(0xE0 + OddParity(v)) == Or(0xE0, ParityBits(Word(v)))
  {
    SmallWords();
    ParityIsOneBit(Word(v));
  }

  // The words as functions of fields already masked.
  function Fields0(r: bv32, c: bv32): bv32 {
    (c << 16) | r
  }

  function Fields3(o: bv32, c: bv32): bv32 {
    0xC000_0000 | (c << 16) | (o << 8)
  }

  function Fields4(r: bv32, n: bv32, p: bv32, q: bv32): bv32 {
    0x4000_0000 | n | (q << 7) | (r << 8) | (p << 27)
  }

  function Fields7(o: bv32, n: bv32, p: bv32, q: bv32): bv32 {
    0x7000_0000 | n | (q << 15) | (o << 16) | (p << 23)
  }

  lemma Masked0(r: bv32, n: bv32)
    ensures Type0Bits(r, n) == Or(Left16(Less(n)), And(r, 0x7FFF))
  {
  }

  lemma Split0(r: bv32, n: bv32)
    ensures Type0Bits(r, n) == Fields0(And(r, 0x7FFF), Less(n))
  {
  }

  lemma Masked3(o: bv32, n: bv32)
    ensures Type3Bits(o, n) == Fields3(And(o, 0xFF), Less(n))
  {
  }

  lemma Masked4(r: bv32, n: bv32)
    ensures Type4Bits(r, n) == Fields4(And(r, 0x3FFFF), n, ParityBits(r), ParityBits(n))
  {
    hide ParityBits;
  }

  lemma Masked7(o: bv32, n: bv32)
    ensures Type7Bits(o, n) == Fields7(And(o, 0x7F), n, ParityBits(o), ParityBits(n))
  {
    hide ParityBits;
  }

  lemma Type3Identity(c: bv32, o: bv32)
    ensures Or(Left8(Or(Left8(Or(Left14(3), c)), o)), 0) == Fields3(o, c)
  {
  }

  lemma Type4Identity(r: bv32, n: bv32, p: bv32, q: bv32)
    ensures Or(Left7(Or(Left1(Or(Left19(Or(8, p)), r)), q)), n) == Fields4(r, n, p, q)
  {
  }

  lemma Type7Identity(o: bv32, n: bv32, p: bv32, q: bv32)
    ensures Or(Left15(Or(Left1(Or(Left7(Or(0xE0, p)), o)), q)), n) == Fields7(o, n, p, q)
  {
  }

  lemma Type0Word(reg: u32, n: nat)
    requires reg < 0x8000 && 1 <= n <= 0x4000
    ensures Word((n - 1) * 0x1_0000 + reg) == Type0Bits(Word(reg), Word(n))
  {
    hide *;
    Sizes();
    Masks();
    Concatenated(n - 1, reg, 16);
    WordLess(n);
    Fits(reg, 15);
    Masked0(Word(reg), Word(n));
  }

  lemma Type3Word(op: u32, n: nat)
    requires op < 0x80 && 1 <= n <= 0x4000
    ensures Word(0xC000_0000 + (n - 1) * 0x1_0000 + op * 0x100) == Type3Bits(Word(op), Word(n))
  {
    hide *;
    Sizes();
    Masks();
    SmallWords();
    var c := 3 * 0x4000 + (n - 1);
    Concatenated(c * 0x100 + op, 0, 8);
    Concatenated(c, op, 8);
    Concatenated(3, n - 1, 14);
    WordLess(n);
    Fits(op, 8);
    Type3Identity(Word(n - 1), Word(op));
    Masked3(Word(op), Word(n));
  }

  lemma Type4Word(reg: u32, n: nat, p: nat, q: nat)
    requires reg < 0x4_0000 && n < 0x80 && p == OddParity(reg) && q == OddParity(n)
    ensures Word(0x4000_0000 + n + q * 0x80 + reg * 0x100 + p * 0x800_0000) == Type4Bits(Word(reg), Word(n))
  {
    hide *;
    Sizes();
    Masks();
    var r := (8 + p) * 0x8_0000 + reg;
    Concatenated(r * 2 + q, n, 7);
    Concatenated(r, q, 1);
    Concatenated(8 + p, reg, 19);
    ParityWord(reg);
    ParityWord(n);
    Fits(reg, 18);
    Type4Identity(Word(reg), Word(n), Word(p), Word(q));
    Masked4(Word(reg), Word(n));
  }

  lemma Type7Word(op: u32, n: nat, p: nat, q: nat)
    requires op < 0x80 && n < 0x4000 && p == OddParity(op) && q == OddParity(n)
    ensures Word(0x7000_0000 + n + q * 0x8000 + op * 0x1_0000 + p * 0x80_0000) == Type7Bits(Word(op), Word(n))
  {
    hide *;
    Sizes();
    Masks();
    var r := (0xE0 + p) * 0x80 + op;
    Concatenated(r * 2 + q, n, 15);
    Concatenated(r, q, 1);
    Concatenated(0xE0 + p, op, 7);
    ParityWord(op);
    ParityWord(n);
    Fits(op, 7);
    Type7Identity(Word(op), Word(n), Word(p), Word(q));
    Masked7(Word(op), Word(n));
  }

  /** The sum of `Pm4.Header` is the word cp_type0/3/4/7_packet() build, for every packet of the field widths. */
  lemma HeaderWord(p: Packet)
    requires Encodable(p)
    ensures Word(Header(p)) == HeaderBits(p)
  {
    hide Type0Bits, Type3Bits, Type4Bits, Type7Bits, Word;
    match p
    case Type0(reg, payload) => Type0Word(reg, |payload|);
    case Type3(op, payload) => Type3Word(op, |payload|);
    case Type4(reg, payload) => Type4Word(reg, |payload|, OddParity(reg), OddParity(|payload|));
    case Type7(op, payload) => Type7Word(op, |payload|, OddParity(op), OddParity(|payload|));
  }

  // --------------------------------------------------- tests and field macros

  predicate Tagged(w: bv32, mask: bv32, tag: bv32) {
    w & mask == tag
  }

  function FieldAt8(w: bv32, mask: bv32): bv32 {
    (w >> 8) & mask
  }

  function FieldAt16(w: bv32, mask: bv32): bv32 {
    (w >> 16) & mask
  }

  function Bit7(w: bv32): bv32 {
    (w >> 7) & 1
  }

  function Bit15(w: bv32): bv32 {
    (w >> 15) & 1
  }

  function Bit23(w: bv32): bv32 {
    (w >> 23) & 1
  }

  function Bit27(w: bv32): bv32 {
    (w >> 27) & 1
  }

  // type0_pkt_size() and type3_pkt_size().
  function OldSize(w: bv32): bv32 {
    FieldAt16(w, 0x3FFF) + 1
  }

  // pkt_is_type0(), pkt_is_type3(), pkt_is_type4() and pkt_is_type7().
  predicate IsType0(w: bv32) {
    Tagged(w, 0xC000_0000, 0)
  }

  predicate IsType3(w: bv32) {
    Tagged(w, 0xC000_0000, 0xC000_0000) && Tagged(w, 0x80FE, 0)
  }

  predicate IsType4(w: bv32) {
    && Tagged(w, 0xF000_0000, 0x4000_0000)
    && Bit27(w) == ParityBits(FieldAt8(w, 0x7FFFF)) && Bit7(w) == ParityBits(And(w, 0x7F))
  }

  predicate IsType7(w: bv32) {
    && Tagged(w, 0xF000_0000, 0x7000_0000) && Tagged(w, 0x0F00_0000, 0)
    && Bit23(w) == ParityBits(FieldAt16(w, 0x7F)) && Bit15(w) == ParityBits(And(w, 0x3FFF))
  }

  // Type, register or opcode, and payload size, as the macros read them.
  predicate MacrosRead(w: bv32, p: Packet) {
    match p
    case Type0(reg, payload) => IsType0(w) && And(w, 0x7FFF) == Word(reg) && OldSize(w) == Word(|payload|)
    case Type3(op, payload) => IsType3(w) && FieldAt8(w, 0xFF) == Word(op) && OldSize(w) == Word(|payload|)
    case Type4(reg, payload) => IsType4(w) && FieldAt8(w, 0x7FFFF) == Word(reg) && And(w, 0x7F) == Word(|payload|)
    case Type7(op, payload) => IsType7(w) && FieldAt16(w, 0x7F) == Word(op) && And(w, 0x3FFF) == Word(|payload|)
  }

  // Whatever the fields hold, within their masks they do not touch one another.
  lemma Type0Fields(r: bv32, c: bv32)
    ensures var w := Fields0(And(r, 0x7FFF), And(c, 0x3FFF));
            Tagged(w, 0xC000_0000, 0) && And(w, 0x7FFF) == And(r, 0x7FFF) && FieldAt16(w, 0x3FFF) == And(c, 0x3FFF)
  {
  }

  lemma Type3Fields(o: bv32, c: bv32)
    ensures var w := Fields3(And(o, 0x7F), And(c, 0x3FFF));
            && Tagged(w, 0xC000_0000, 0xC000_0000) && Tagged(w, 0x80FE, 0)
            && FieldAt8(w, 0xFF) == And(o, 0x7F) && FieldAt16(w, 0x3FFF) == And(c, 0x3FFF)
  {
  }

  lemma Type4Fields(r: bv32, n: bv32, p: bv32, q: bv32)
    ensures var w := Fields4(And(r, 0x3FFFF), And(n, 0x7F), And(p, 1), And(q, 1));
            && Tagged(w, 0xF000_0000, 0x4000_0000) && FieldAt8(w, 0x7FFFF) == And(r, 0x3FFFF)
            && And(w, 0x7F) == And(n, 0x7F) && Bit27(w) == And(p, 1) && Bit7(w) == And(q, 1)
  {
  }

  lemma Type7Fields(o: bv32, n: bv32, p: bv32, q: bv32)
    ensures var w := Fields7(And(o, 0x7F), And(n, 0x3FFF), And(p, 1), And(q, 1));
            && Tagged(w, 0xF000_0000, 0x7000_0000) && Tagged(w, 0x0F00_0000, 0)
            && FieldAt16(w, 0x7F) == And(o, 0x7F) && And(w, 0x3FFF) == And(n, 0x3FFF)
            && Bit23(w) == And(p, 1) && Bit15(w) == And(q, 1)
  {
  }

  lemma ParityFits(v: bv32)
    ensures And(ParityBits(v), 1) == ParityBits(v)
  {
    ParityIsOneBit(v);
    hide ParityBits;
  }

  lemma MoreThanLess(w: bv32, n: bv32)
    requires FieldAt16(w, 0x3FFF) == Less(n)
    ensures OldSize(w) == n
  {
    hide FieldAt16;
  }

  // A word count less one, as the older packets hold it.
  lemma CountFits(n: nat)
    requires 1 <= n <= 0x4000
    ensures And(Less(Word(n)), 0x3FFF) == Less(Word(n))
  {
    hide *;
    Sizes();
    Masks();
    WordLess(n);
    Fits(n - 1, 14);
  }

  lemma Macros0(p: Packet)
    requires p.Type0? && Encodable(p)
    ensures MacrosRead(HeaderBits(p), p)
  {
    var r, n := Word(p.reg), Word(|p.payload|);
    hide Word, Type0Bits, Fields0, Tagged, And, FieldAt16, OldSize, Less, Mask, Pow2;
    Sizes();
    Masks();
    Fits(p.reg, 15);
    CountFits(|p.payload|);
    Split0(r, n);
    Type0Fields(r, Less(n));
    MoreThanLess(Type0Bits(r, n), n);
  }

  lemma Macros3(p: Packet)
    requires p.Type3? && Encodable(p)
    ensures MacrosRead(HeaderBits(p), p)
  {
    var o, n := Word(p.op), Word(|p.payload|);
    hide Word, Type3Bits, Fields3, Tagged, And, FieldAt8, FieldAt16, OldSize, Less, Mask, Pow2;
    Sizes();
    Masks();
    Fits(p.op, 7);
    Fits(p.op, 8);
    CountFits(|p.payload|);
    Masked3(o, n);
    Type3Fields(o, Less(n));
    MoreThanLess(Type3Bits(o, n), n);
  }

  lemma Macros4(p: Packet)
    requires p.Type4? && Encodable(p)
    ensures MacrosRead(HeaderBits(p), p)
  {
    var r, n := Word(p.reg), Word(|p.payload|);
    hide Word, Type4Bits, Fields4, Tagged, And, FieldAt8, Bit7, Bit27, ParityBits, Mask, Pow2;
    Sizes();
    Masks();
    Fits(p.reg, 18);
    Fits(|p.payload|, 7);
    ParityFits(r);
    ParityFits(n);
    Masked4(r, n);
    Type4Fields(r, n, ParityBits(r), ParityBits(n));
  }

  lemma Macros7(p: Packet)
    requires p.Type7? && Encodable(p)
    ensures MacrosRead(HeaderBits(p), p)
  {
    var o, n := Word(p.op), Word(|p.payload|);
    hide Word, Type7Bits, Fields7, Tagged, And, FieldAt16, Bit15, Bit23, ParityBits, Mask, Pow2;
    Sizes();
    Masks();
    Fits(p.op, 7);
    Fits(|p.payload|, 14);
    ParityFits(o);
    ParityFits(n);
    Masked7(o, n);
    Type7Fields(o, n, ParityBits(o), ParityBits(n));
  }

  /** On every header word the driver writes, the type test holds and the macros give back key and size. */
  lemma HeaderMacros(p: Packet)
    requires Encodable(p)
    ensures MacrosRead(Word(Header(p)), p)
  {
    hide MacrosRead, HeaderBits;
    HeaderWord(p);
    match p
    case Type0(_, _) => Macros0(p);
    case Type3(_, _) => Macros3(p);
    case Type4(_, _) => Macros4(p);
    case Type7(_, _) => Macros7(p);
  }
}
