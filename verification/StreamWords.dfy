/**
  The streams word by word: every header as the number it is, every address as a sum. What A5xxStream and A3xxStream
  build from named packets are exactly these dwords.
 */
module StreamWords {
  import opened Words
  import opened Pm4
  import opened Parity
  import opened CommandProcessor
  import opened Adreno
  import opened A5xxStream
  import opened A3xxStream
  import A5xxRing
  import RingMemory

  // A header with its parity bits counted one by one.
  predicate Starts7(op: u32, n: nat, w: u32) {
    && op < 0x80 && n < 0x4000
    && w == 0x7000_0000 + n + (Ones(n) + 1) % 2 * 0x8000 + op * 0x1_0000 + (Ones(op) + 1) % 2 * 0x80_0000
  }

  predicate Starts4(reg: u32, n: nat, w: u32) {
    && reg < 0x4_0000 && n < 0x80
    && w == 0x4000_0000 + n + (Ones(n) + 1) % 2 * 0x80 + reg * 0x100 + (Ones(reg) + 1) % 2 * 0x800_0000
  }

  predicate Starts3(op: u32, n: nat, w: u32) {
    op < 0x80 && 1 <= n <= 0x4000 && w == 0xC000_0000 + (n - 1) * 0x1_0000 + op * 0x100
  }

  // The packet is this header and its payload.
  predicate Begins(p: Packet, w: u32) {
    Encodable(p) && Header(p) == w
  }

  lemma Begins7(op: u32, payload: seq<u32>, w: u32)
    requires Starts7(op, |payload|, w)
    ensures Begins(Op(op, payload), w)
  {
    hide OddParity, Ones;
    OddTogether(op);
    OddTogether(|payload|);
  }

  lemma Begins4(reg: u32, payload: seq<u32>, w: u32)
    requires Starts4(reg, |payload|, w)
    ensures Begins(Type4(reg, payload), w)
  {
    hide OddParity, Ones;
    OddTogether(reg);
    OddTogether(|payload|);
  }

  lemma Begins3(op: u32, payload: seq<u32>, w: u32)
    requires Starts3(op, |payload|, w)
    ensures Begins(Op3(op, payload), w)
  {
  }

  lemma OnesOfDigits()
    ensures Ones(0) == 0 && Ones(1) == 1 && Ones(2) == 1 && Ones(3) == 2 && Ones(4) == 1 && Ones(5) == 2
    ensures Ones(6) == 2 && Ones(7) == 3 && Ones(8) == 1 && Ones(9) == 2 && Ones(10) == 2
    ensures Ones(11) == 3 && Ones(12) == 2 && Ones(13) == 3 && Ones(14) == 3 && Ones(15) == 4
  {
    assert Ones(3) == 2 && Ones(6) == 2 && Ones(7) == 3;
  }

  // The ones of a number are those of its hexadecimal digits.
  lemma OnesByDigit(high: nat, low: nat)
    requires low < 16
    ensures Ones(16 * high + low) == Ones(high) + Ones(low)
  {
    hide Ones;
    OnesByPair(4 * high + low / 4, low % 4);
    OnesByPair(high, low / 4);
    OnesByPair(low / 4, low % 4);
    assert 4 * (4 * high + low / 4) + low % 4 == 16 * high + low;
  }

  lemma OnesByPair(high: nat, low: nat)
    requires low < 4
    ensures Ones(4 * high + low) == Ones(high) + Ones(low)
  {
    hide Ones;
    OnesHalf(2 * high + low / 2, low % 2);
    OnesHalf(high, low / 2);
    OnesHalf(low / 2, low % 2);
    OnesHalf(0, low / 2);
    OnesUnfold(0);
  }

  lemma OnesHalf(half: nat, low: nat)
    requires low < 2
    ensures Ones(2 * half + low) == Ones(half) + low
  {
    OnesUnfold(2 * half + low);
  }

  lemma OnesOfOps()
    ensures Ones(0x10) == 1 && Ones(0x12) == 2 && Ones(0x13) == 3 && Ones(0x1C) == 3 && Ones(0x26) == 3
    ensures Ones(0x3D) == 5 && Ones(0x3E) == 5 && Ones(0x3F) == 6 && Ones(0x46) == 3 && Ones(0x53) == 4
    ensures Ones(0x5F) == 6 && Ones(0x62) == 3 && Ones(0x66) == 4 && Ones(0x69) == 4 && Ones(0x6A) == 4
    ensures Ones(0x6B) == 5 && Ones(0x6C) == 4
  {
    hide Ones;
    OnesOfDigits();
    OnesByDigit(1, 0);
    OnesByDigit(1, 2);
    OnesByDigit(1, 3);
    OnesByDigit(1, 12);
    OnesByDigit(2, 6);
    OnesByDigit(3, 13);
    OnesByDigit(3, 14);
    OnesByDigit(3, 15);
    OnesByDigit(4, 6);
    OnesByDigit(5, 3);
    OnesByDigit(5, 15);
    OnesByDigit(6, 2);
    OnesByDigit(6, 6);
    OnesByDigit(6, 9);
    OnesByDigit(6, 10);
    OnesByDigit(6, 11);
    OnesByDigit(6, 12);
  }

  lemma Headers7()
    ensures Starts7(CP_NOP, 1, 0x7010_0001) && Starts7(CP_NOP, 4, 0x7010_0004)
    ensures Starts7(CP_WAIT_MEM_WRITES, 0, 0x7092_8000) && Starts7(CP_WAIT_FOR_ME, 0, 0x7013_8000)
    ensures Starts7(CP_YIELD_ENABLE, 1, 0x701C_0001) && Starts7(CP_WAIT_FOR_IDLE, 0, 0x7026_8000)
    ensures Starts7(CP_MEM_WRITE, 3, 0x703D_8003) && Starts7(CP_MEM_WRITE, 5, 0x703D_8005)
    ensures Starts7(CP_REG_TO_MEM, 3, 0x703E_8003) && Starts7(CP_INDIRECT_BUFFER_PFE, 3, 0x70BF_8003)
    ensures Starts7(CP_EVENT_WRITE, 4, 0x7046_0004) && Starts7(CP_SMMU_TABLE_UPDATE, 3, 0x70D3_8003)
    ensures Starts7(CP_SET_PROTECTED_MODE, 1, 0x70DF_0001) && Starts7(CP_WHERE_AM_I, 2, 0x7062_0002)
    ensures Starts7(CP_SET_SECURE_MODE, 1, 0x70E6_0001) && Starts7(CP_PREEMPT_ENABLE_GLOBAL, 1, 0x70E9_0001)
    ensures Starts7(CP_PREEMPT_ENABLE_LOCAL, 1, 0x70EA_0001) && Starts7(CP_CONTEXT_SWITCH_YIELD, 4, 0x706B_0004)
    ensures Starts7(CP_SET_RENDER_MODE, 5, 0x70EC_8005)
  {
    hide Ones;
    OnesOfDigits();
    OnesOfOps();
  }

  lemma Headers4()
    ensures Starts4(CP_CNTL_REG, 1, 0x4808_3101) && Starts4(SAVE_ADDR_LO_REG, 1, 0x4808_3E01)
    ensures Starts4(SAVE_ADDR_HI_REG, 1, 0x4008_3F01) && Starts4(UCHE_INVALIDATE0_REG, 1, 0x400E_9501)
  {
    hide Ones;
    OnesOfDigits();
    OnesByDigit(8, 3);
    OnesByDigit(0x83, 1);
    OnesByDigit(0x83, 0xE);
    OnesByDigit(0x83, 0xF);
    OnesByDigit(0xE, 9);
    OnesByDigit(0xE9, 5);
  }

  // ------------------------------------------------------------ packet lists

  /** A packet list word by word, one row a packet. */
  function Joined(rows: seq<seq<u32>>): seq<u32> {
    if |rows| == 0 then [] else rows[0] + Joined(rows[1..])
  }

  predicate Spelled(ps: seq<Packet>, rows: seq<seq<u32>>) {
    |ps| == |rows| && forall i | 0 <= i < |ps| :: Encodable(ps[i]) && EncodePacket(ps[i]) == rows[i]
  }

  lemma {:induction false} SpelledEncodes(ps: seq<Packet>, rows: seq<seq<u32>>)
    requires Spelled(ps, rows)
    ensures AllEncodable(ps) && Encode(ps) == Joined(rows)
  {
    hide Header, EncodePacket, Encodable;
    if |ps| != 0 {
      SpelledEncodes(ps[1..], rows[1..]);
    }
  }

  lemma SpelledConcat(ps: seq<Packet>, rows: seq<seq<u32>>, qs: seq<Packet>, more: seq<seq<u32>>)
    requires Spelled(ps, rows) && Spelled(qs, more)
    ensures Spelled(ps + qs, rows + more)
  {
    hide EncodePacket, Encodable;
  }

  lemma SpelledOne(p: Packet, w: u32, b: bool)
    requires Begins(p, w)
    ensures Spelled([p], [[w] + p.payload])
    ensures Spelled(When(b, [p]), if b then [[w] + p.payload] else [])
  {
    hide Header;
  }

  // ------------------------------------------------------- an A5xx submission

  // An address as the two dwords it takes, the low one first.
  function Halves(x: int): seq<u32> {
    [x % 0x1_0000_0000, x / 0x1_0000_0000 % 0x1_0000_0000]
  }

  // The dwords of a memstore slot.
  function Place(gpu: Gpu, slot: nat, field: nat): seq<u32> {
    Halves(gpu.memstore + 40 * slot + field)
  }

  lemma PlaceIs(gpu: Gpu, slot: nat, field: nat)
    ensures Address(MemstoreAddr(gpu, slot, field)) == Place(gpu, slot, field)
  {
    HalvesWrap(gpu.memstore + slot * 40 + field);
  }

  lemma HalvesWrap(x: nat)
    ensures Halves(x) == [x % TWO_64 % TWO_32, x % TWO_64 / TWO_32]
  {
    var q, r := x / TWO_64, x % TWO_64;
    assert x == (q * TWO_32) * TWO_32 + r;
    Field(x, TWO_32, q * TWO_32 + r / TWO_32, r % TWO_32);
    Field(q * TWO_32 + r / TWO_32, TWO_32, q, r / TWO_32);
  }

  lemma AddressIs(x: u64)
    ensures Address(x) == Halves(x)
  {
  }

  function PreIbRows(gpu: Gpu, rb: Ring, fine: bool): seq<seq<u32>> {
    if !gpu.preemption then [] else [
      [0x70E9_0001, if fine then 2 else 0],
      [0x70DF_0001, 0],
      [0x4808_3E01, Halves(rb.record)[0]],
      [0x4008_3F01, Halves(rb.record)[1]],
      [0x70DF_0001, 1],
      [0x70EA_0001, if fine then 1 else 0],
      [0x701C_0001, 2]]
  }

  function IbRows(ib: ProfileIb): seq<seq<u32>> {
    if ib.addr != 0 then [[0x70BF_8003] + Halves(ib.addr) + [ib.dwords]] else []
  }

  function MarkRows(ctx: Option<Context>): seq<seq<u32>> {
    [[0x7010_0001, if ctx.Some? then 0x2EED_FACE else 0x2EED_D00D]]
  }

  function StartRows(j: Job): seq<seq<u32>> {
    if j.ctx.Some? then [[0x703D_8003] + Place(j.gpu, j.ctx.value.id, 0) + [j.timestamp]] else []
  }

  function RingStartRows(j: Job): seq<seq<u32>> {
    [[0x703D_8003] + Place(j.gpu, 813 + j.rb.id, 0) + [j.ringTimestamp]]
  }

  function SecureRows(b: bool, v: u32): seq<seq<u32>> {
    if b then [[0x70E6_0001, v]] else []
  }

  function ProtectRows(b: bool, v: u32): seq<seq<u32>> {
    if b then [[0x70DF_0001, v]] else []
  }

  function HeadRows(j: Job): seq<seq<u32>> {
    MarkRows(j.ctx)
    + PreIbRows(j.gpu, j.rb, PreemptStyle(j.ctx) == 2)
    + IbRows(j.pre)
    + StartRows(j)
    + RingStartRows(j)
    + SecureRows(IsSecure(j.flags), 1)
    + ProtectRows(IsNotProtected(j.flags), 0)
  }

  function EndRows(gpu: Gpu, rb: Ring, ctx: Option<Context>, timestamp: u32, ringTimestamp: u32): seq<seq<u32>> {
    match ctx
    case None => [[0x7046_0004, 0x8000_0004] + Place(gpu, 813 + rb.id, 8) + [ringTimestamp]]
    case Some(c) =>
      [[0x7046_0004, 0x8000_0004] + Place(gpu, c.id, 8) + [timestamp],
       [0x7046_0004, 4] + Place(gpu, 813 + rb.id, 8) + [ringTimestamp]]
  }

  function TailRows(j: Job): seq<seq<u32>> {
    ProtectRows(IsNotProtected(j.flags), 1)
    + (IbRows(j.post)
       + (if j.gpu.waitMemWrites then [[0x7092_8000]] else [])
       + [[0x703D_8003] + Place(j.gpu, 0, 24) + [j.sequence]]
       + EndRows(j.gpu, j.rb, j.ctx, j.timestamp, j.ringTimestamp)
       + (if IsWfi(j.flags) then [[0x7026_8000]] else []))
    + SecureRows(IsSecure(j.flags), 0)
    + (if j.gpu.preemption then [[0x706B_0004, 0, 0, 1, 1]] else [])
  }

  lemma PreIbSpelled(gpu: Gpu, rb: Ring, ctx: Option<Context>)
    ensures Spelled(PreIb(gpu, rb, ctx), PreIbRows(gpu, rb, PreemptStyle(ctx) == 2))
  {
    var fine := PreemptStyle(ctx) == 2;
    hide PreemptStyle, Header, Starts7, Starts4, Encodable, AllEncodable;
    Headers7();
    Headers4();
    Begins7(CP_PREEMPT_ENABLE_GLOBAL, [if fine then 2 else 0], 0x70E9_0001);
    Begins7(CP_SET_PROTECTED_MODE, [0], 0x70DF_0001);
    Begins4(SAVE_ADDR_LO_REG, [Lo(rb.record)], 0x4808_3E01);
    Begins4(SAVE_ADDR_HI_REG, [Hi(rb.record)], 0x4008_3F01);
    Begins7(CP_SET_PROTECTED_MODE, [1], 0x70DF_0001);
    Begins7(CP_PREEMPT_ENABLE_LOCAL, [if fine then 1 else 0], 0x70EA_0001);
    Begins7(CP_YIELD_ENABLE, [2], 0x701C_0001);
  }

  lemma IbSpelled(ib: ProfileIb)
    ensures Spelled(Profile(ib), IbRows(ib))
  {
    hide Starts7;
    Headers7();
    AddressIs(ib.addr);
    Begins7(CP_INDIRECT_BUFFER_PFE, Address(ib.addr) + [ib.dwords], 0x70BF_8003);
    SpelledOne(IbPacket(ib.addr, ib.dwords), 0x70BF_8003, ib.addr != 0);
  }

  lemma WriteSpelled(gpu: Gpu, slot: nat, field: nat, value: u32)
    ensures Spelled([MemWritePacket(MemstoreAddr(gpu, slot, field), [value])],
                    [[0x703D_8003] + Place(gpu, slot, field) + [value]])
  {
    hide Starts7, MemstoreAddr, Place, Spelled;
    Headers7();
    PlaceIs(gpu, slot, field);
    Begins7(CP_MEM_WRITE, Address(MemstoreAddr(gpu, slot, field)) + [value], 0x703D_8003);
    SpelledOne(MemWritePacket(MemstoreAddr(gpu, slot, field), [value]), 0x703D_8003, true);
    assert [0x703D_8003] + (Place(gpu, slot, field) + [value]) == [0x703D_8003] + Place(gpu, slot, field) + [value];
  }

  lemma SignalSpelled(gpu: Gpu, event: u32, slot: nat, field: nat, value: u32)
    ensures Spelled([EventWritePacket(event, MemstoreAddr(gpu, slot, field), value)],
                    [[0x7046_0004, event] + Place(gpu, slot, field) + [value]])
  {
    hide Starts7, MemstoreAddr, Place, Spelled;
    Headers7();
    PlaceIs(gpu, slot, field);
    var payload := [event] + Address(MemstoreAddr(gpu, slot, field)) + [value];
    Begins7(CP_EVENT_WRITE, payload, 0x7046_0004);
    SpelledOne(EventWritePacket(event, MemstoreAddr(gpu, slot, field), value), 0x7046_0004, true);
    assert [0x7046_0004] + payload == [0x7046_0004, event] + Place(gpu, slot, field) + [value];
  }

  lemma ShortSpelled(b: bool, op: u32, payload: seq<u32>, w: u32)
    requires Starts7(op, |payload|, w)
    ensures Spelled(When(b, [Op(op, payload)]), if b then [[w] + payload] else [])
    ensures Spelled([Op(op, payload)], [[w] + payload])
  {
    hide Starts7, Spelled;
    Begins7(op, payload, w);
    SpelledOne(Op(op, payload), w, b);
  }

  // A list in parts, each with its rows.
  lemma SpelledFive(a: seq<Packet>, a': seq<seq<u32>>, b: seq<Packet>, b': seq<seq<u32>>, c: seq<Packet>,
      c': seq<seq<u32>>, d: seq<Packet>, d': seq<seq<u32>>, e: seq<Packet>, e': seq<seq<u32>>)
    requires Spelled(a, a') && Spelled(b, b') && Spelled(c, c') && Spelled(d, d') && Spelled(e, e')
    ensures Spelled(a + b + c + d + e, a' + b' + c' + d' + e')
  {
    hide Spelled;
    SpelledConcat(a, a', b, b');
    SpelledConcat(a + b, a' + b', c, c');
    SpelledConcat(a + b + c, a' + b' + c', d, d');
    SpelledConcat(a + b + c + d, a' + b' + c' + d', e, e');
  }

  lemma SpelledThree(a: seq<Packet>, a': seq<seq<u32>>, b: seq<Packet>, b': seq<seq<u32>>, c: seq<Packet>,
      c': seq<seq<u32>>)
    requires Spelled(a, a') && Spelled(b, b') && Spelled(c, c')
    ensures Spelled(a + b + c, a' + b' + c')
  {
    hide Spelled;
    SpelledConcat(a, a', b, b');
    SpelledConcat(a + b, a' + b', c, c');
  }

  lemma MarkSpelled(value: u32)
    ensures Spelled([Op(CP_NOP, [value])], [[0x7010_0001, value]])
  {
    hide Starts7, Spelled;
    Headers7();
    ShortSpelled(true, CP_NOP, [value], 0x7010_0001);
    assert [0x7010_0001] + [value] == [0x7010_0001, value];
  }

  lemma SecureSpelled(b: bool, v: u32)
    ensures Spelled(When(b, [Op(CP_SET_SECURE_MODE, [v])]), SecureRows(b, v))
  {
    hide Starts7, Spelled;
    Headers7();
    ShortSpelled(b, CP_SET_SECURE_MODE, [v], 0x70E6_0001);
    assert [0x70E6_0001] + [v] == [0x70E6_0001, v];
  }

  lemma ProtectSpelled(b: bool, v: u32)
    ensures Spelled(When(b, [Op(CP_SET_PROTECTED_MODE, [v])]), ProtectRows(b, v))
  {
    hide Starts7, Spelled;
    Headers7();
    ShortSpelled(b, CP_SET_PROTECTED_MODE, [v], 0x70DF_0001);
    assert [0x70DF_0001] + [v] == [0x70DF_0001, v];
  }

  // The parts of Head(): its marker, and the two start-of-pipe writes.
  function Marker(ctx: Option<Context>): seq<Packet> {
    [Op(CP_NOP, [if ctx.Some? then CMD_IDENTIFIER else CMD_INTERNAL_IDENTIFIER])]
  }

  function OwnStart(j: Job): seq<Packet> {
    if j.ctx.Some? then [MemWritePacket(MemstoreAddr(j.gpu, j.ctx.value.id, SOPTIMESTAMP), [j.timestamp])] else []
  }

  function RingStart(j: Job): seq<Packet> {
    [MemWritePacket(RingMemstoreAddr(j.gpu, j.rb, SOPTIMESTAMP), [j.ringTimestamp])]
  }

  lemma HeadParts(j: Job)
    ensures Head(j) == Marker(j.ctx) + PreIb(j.gpu, j.rb, j.ctx) + Profile(j.pre) + OwnStart(j) + RingStart(j)
      + When(IsSecure(j.flags), [Op(CP_SET_SECURE_MODE, [1])])
      + When(IsNotProtected(j.flags), [Op(CP_SET_PROTECTED_MODE, [0])])
  {
    hide PreIb, Profile, MemWritePacket, MemstoreAddr, RingMemstoreAddr, When, IsSecure, IsNotProtected, AllEncodable;
  }

  lemma MarkerSpelled(ctx: Option<Context>)
    ensures Spelled(Marker(ctx), MarkRows(ctx))
  {
    hide Spelled;
    MarkSpelled(if ctx.Some? then CMD_IDENTIFIER else CMD_INTERNAL_IDENTIFIER);
  }

  lemma StartsSpelled(j: Job)
    ensures Spelled(OwnStart(j), StartRows(j)) && Spelled(RingStart(j), RingStartRows(j))
  {
    hide Spelled, MemstoreAddr, Place, MemWritePacket;
    NothingSpelled();
    if j.ctx.Some? {
      WriteSpelled(j.gpu, j.ctx.value.id, 0, j.timestamp);
    }
    WriteSpelled(j.gpu, 813 + j.rb.id, 0, j.ringTimestamp);
  }

  lemma HeadSpelled(j: Job)
    ensures Spelled(Head(j), HeadRows(j))
  {
    hide Spelled, Head, Marker, MarkRows, PreIb, PreIbRows, Profile, IbRows, OwnStart, StartRows, RingStart,
        RingStartRows, SecureRows, ProtectRows, When, PreemptStyle, IsSecure, IsNotProtected, AllEncodable;
    HeadParts(j);
    MarkerSpelled(j.ctx);
    PreIbSpelled(j.gpu, j.rb, j.ctx);
    IbSpelled(j.pre);
    StartsSpelled(j);
    SecureSpelled(IsSecure(j.flags), 1);
    ProtectSpelled(IsNotProtected(j.flags), 0);
    SpelledFive(Marker(j.ctx), MarkRows(j.ctx), PreIb(j.gpu, j.rb, j.ctx),
        PreIbRows(j.gpu, j.rb, PreemptStyle(j.ctx) == 2), Profile(j.pre), IbRows(j.pre), OwnStart(j), StartRows(j),
        RingStart(j), RingStartRows(j));
    SpelledThree(Marker(j.ctx) + PreIb(j.gpu, j.rb, j.ctx) + Profile(j.pre) + OwnStart(j) + RingStart(j),
        MarkRows(j.ctx) + PreIbRows(j.gpu, j.rb, PreemptStyle(j.ctx) == 2) + IbRows(j.pre) + StartRows(j)
        + RingStartRows(j),
        When(IsSecure(j.flags), [Op(CP_SET_SECURE_MODE, [1])]), SecureRows(IsSecure(j.flags), 1),
        When(IsNotProtected(j.flags), [Op(CP_SET_PROTECTED_MODE, [0])]), ProtectRows(IsNotProtected(j.flags), 0));
  }

  lemma EndSpelled(gpu: Gpu, rb: Ring, ctx: Option<Context>, timestamp: u32, ringTimestamp: u32)
    ensures Spelled(EndOfPipe(gpu, rb, ctx, timestamp, ringTimestamp), EndRows(gpu, rb, ctx, timestamp, ringTimestamp))
  {
    hide Spelled, MemstoreAddr, Place, EventWritePacket;
    match ctx
    case None => SignalSpelled(gpu, CACHE_FLUSH_TS + EVENT_INTERRUPT, 813 + rb.id, 8, ringTimestamp);
    case Some(c) =>
      SignalSpelled(gpu, CACHE_FLUSH_TS + EVENT_INTERRUPT, c.id, 8, timestamp);
      SignalSpelled(gpu, CACHE_FLUSH_TS, 813 + rb.id, 8, ringTimestamp);
      var own, ring := EventWritePacket(CACHE_FLUSH_TS + EVENT_INTERRUPT, MemstoreAddr(gpu, c.id, EOPTIMESTAMP),
          timestamp),
          EventWritePacket(CACHE_FLUSH_TS, RingMemstoreAddr(gpu, rb, EOPTIMESTAMP), ringTimestamp);
      var own', ring' := [0x7046_0004, 0x8000_0004] + Place(gpu, c.id, 8) + [timestamp],
          [0x7046_0004, 4] + Place(gpu, 813 + rb.id, 8) + [ringTimestamp];
      SpelledConcat([own], [own'], [ring], [ring']);
      assert [own] + [ring] == [own, ring] && [own'] + [ring'] == [own', ring'];
  }

  // Packets without a payload.
  lemma BareSpelled(b: bool, op: u32, w: u32)
    requires Starts7(op, 0, w)
    ensures Spelled(When(b, [Op(op, [])]), if b then [[w]] else []) && Spelled([Op(op, [])], [[w]])
  {
    hide Starts7, Spelled;
    ShortSpelled(b, op, [], w);
    assert [w] + [] == [w];
  }

  lemma RetirementSpelled(j: Job)
    ensures Spelled(Retirement(j), IbRows(j.post) + (if j.gpu.waitMemWrites then [[0x7092_8000]] else [])
       + [[0x703D_8003] + Place(j.gpu, 0, 24) + [j.sequence]]
       + EndRows(j.gpu, j.rb, j.ctx, j.timestamp, j.ringTimestamp)
       + (if IsWfi(j.flags) then [[0x7026_8000]] else []))
  {
    var b, c := When(j.gpu.waitMemWrites, [Op(CP_WAIT_MEM_WRITES, [])]),
        [MemWritePacket(MemstoreAddr(j.gpu, MEMSTORE_GLOBAL, REF_WAIT_TS), [j.sequence])];
    var d, e := EndOfPipe(j.gpu, j.rb, j.ctx, j.timestamp, j.ringTimestamp),
        When(IsWfi(j.flags), [Op(CP_WAIT_FOR_IDLE, [])]);
    hide Spelled, Profile, IbRows, MemstoreAddr, Place, EndOfPipe, EndRows, MemWritePacket, IsWfi, When, Starts7;
    Headers7();
    IbSpelled(j.post);
    BareSpelled(j.gpu.waitMemWrites, CP_WAIT_MEM_WRITES, 0x7092_8000);
    WriteSpelled(j.gpu, 0, 24, j.sequence);
    EndSpelled(j.gpu, j.rb, j.ctx, j.timestamp, j.ringTimestamp);
    BareSpelled(IsWfi(j.flags), CP_WAIT_FOR_IDLE, 0x7026_8000);
    SpelledFive(Profile(j.post), IbRows(j.post), b, if j.gpu.waitMemWrites then [[0x7092_8000]] else [], c,
        [[0x703D_8003] + Place(j.gpu, 0, 24) + [j.sequence]], d,
        EndRows(j.gpu, j.rb, j.ctx, j.timestamp, j.ringTimestamp), e, if IsWfi(j.flags) then [[0x7026_8000]] else []);
  }

  lemma YieldSpelled(gpu: Gpu)
    ensures Spelled(PostIb(gpu), if gpu.preemption then [[0x706B_0004, 0, 0, 1, 1]] else [])
  {
    hide Starts7, Spelled;
    Headers7();
    ShortSpelled(gpu.preemption, CP_CONTEXT_SWITCH_YIELD, Address(0) + [1, 1], 0x706B_0004);
    assert [0x706B_0004] + (Address(0) + [1, 1]) == [0x706B_0004, 0, 0, 1, 1];
  }

  lemma TailSpelled(j: Job)
    ensures Spelled(Tail(j), TailRows(j))
  {
    var a, c := When(IsNotProtected(j.flags), [Op(CP_SET_PROTECTED_MODE, [1])]),
        When(IsSecure(j.flags), [Op(CP_SET_SECURE_MODE, [0])]);
    var a', c' := ProtectRows(IsNotProtected(j.flags), 1), SecureRows(IsSecure(j.flags), 0);
    var b' := IbRows(j.post) + (if j.gpu.waitMemWrites then [[0x7092_8000]] else [])
       + [[0x703D_8003] + Place(j.gpu, 0, 24) + [j.sequence]]
       + EndRows(j.gpu, j.rb, j.ctx, j.timestamp, j.ringTimestamp)
       + (if IsWfi(j.flags) then [[0x7026_8000]] else []);
    var d' := if j.gpu.preemption then [[0x706B_0004, 0, 0, 1, 1]] else [];
    assert TailRows(j) == a' + b' + c' + d';
    hide Spelled, Retirement, TailRows, IbRows, Place, EndRows, PostIb, When, SecureRows, ProtectRows, IsSecure,
        IsNotProtected, IsWfi;
    ProtectSpelled(IsNotProtected(j.flags), 1);
    RetirementSpelled(j);
    SecureSpelled(IsSecure(j.flags), 0);
    YieldSpelled(j.gpu);
    SpelledThree(a, a', Retirement(j), b', c, c');
    SpelledConcat(a + Retirement(j) + c, a' + b' + c', PostIb(j.gpu), d');
  }

  /** An A5xx submission, dword by dword. */
  lemma SubmissionWords(j: Job, input: seq<u32>)
    ensures Submission(j, input) == Joined(HeadRows(j)) + input + Joined(TailRows(j))
  {
    hide Spelled, Head, HeadRows, Tail, TailRows, Encode, Joined;
    HeadSpelled(j);
    TailSpelled(j);
    SpelledEncodes(Head(j), HeadRows(j));
    SpelledEncodes(Tail(j), TailRows(j));
  }

  // ------------------------------------------------------- an A5xx command

  // One row a node: a NOP header in front of a skipped one.
  function NodeRows(ibs: seq<IbNode>, flags: u32): seq<seq<u32>> {
    if |ibs| == 0 then []
    else
      [(if IsSkipped(ibs[0], flags) then [0x7010_0004] else [])
       + ([0x70BF_8003] + Halves(ibs[0].addr) + [(ibs[0].size / 4) % 0x10_0000])]
      + NodeRows(ibs[1..], flags)
  }

  lemma SkipHeader()
    ensures NopHeader(4) == 0x7010_0004
  {
    hide Starts7;
    Headers7();
    Begins7(CP_NOP, seq(4, i => 0), 0x7010_0004);
  }

  lemma NodeWords(ib: IbNode, flags: u32)
    ensures IbWords(ib, flags) == (if IsSkipped(ib, flags) then [0x7010_0004] else [])
       + ([0x70BF_8003] + Halves(ib.addr) + [(ib.size / 4) % 0x10_0000])
  {
    hide Starts7, IsSkipped, NopHeader;
    Headers7();
    SkipHeader();
    AddressIs(ib.addr);
    Begins7(CP_INDIRECT_BUFFER_PFE, Address(ib.addr) + [IbDwordCount(ib)], 0x70BF_8003);
  }

  lemma {:induction false} ListWords(ibs: seq<IbNode>, flags: u32)
    ensures IbDwords(ibs, flags) == Joined(NodeRows(ibs, flags))
  {
    hide IbWords, IsSkipped;
    if |ibs| != 0 {
      NodeWords(ibs[0], flags);
      ListWords(ibs[1..], flags);
    }
  }

  function CounterRows(gpu: Gpu, b: bool, addr: u64): seq<seq<u32>> {
    if b then [[0x703E_8003, if gpu.wideCounter then 0x4008_04D2 else 0x4D2] + Halves(addr)] else []
  }

  function UserRows(prof: Profiling, flags: u32, next: nat): seq<seq<u32>> {
    if IsUserProfile(flags) && prof.slots.Some?
    then [[0x70BF_8003] + Halves(prof.slots.value + 16 * ((prof.index + next) % 256)) + [4]] else []
  }

  function BeforeRows(gpu: Gpu, prof: Profiling, flags: u32): seq<seq<u32>> {
    [[0x7010_0001, 0x2EAD_EABE]] + CounterRows(gpu, IsKernelProfile(flags), prof.started) + UserRows(prof, flags, 0)
  }

  function AfterRows(gpu: Gpu, prof: Profiling, flags: u32): seq<seq<u32>> {
    [[0x70EC_8005, 0, 0, 0, 0, 0]] + [[0x701C_0001, 1]] + CounterRows(gpu, IsKernelProfile(flags), prof.retired)
    + UserRows(prof, flags, 1) + [[0x7010_0001, 0x2ABE_DEAD]]
  }

  lemma CounterSpelled(gpu: Gpu, b: bool, addr: u64)
    ensures Spelled(When(b, [CounterPacket(gpu, addr)]), CounterRows(gpu, b, addr))
  {
    hide Starts7, Spelled, Lo, Hi;
    Headers7();
    AddressIs(addr);
    var source: u32 := if gpu.wideCounter then 0x4008_04D2 else 0x4D2;
    ShortSpelled(b, CP_REG_TO_MEM, [source] + Address(addr), 0x703E_8003);
    assert [0x703E_8003] + ([source] + Address(addr)) == [0x703E_8003, source] + Halves(addr);
  }

  lemma UserSpelled(prof: Profiling, flags: u32, next: nat)
    ensures Spelled(UserIb(prof, flags, next), UserRows(prof, flags, next))
  {
    hide Starts7, IsUserProfile;
    Headers7();
    if prof.slots.Some? {
      var ib := SlotIb(prof.slots.value, (prof.index + next) % PROFILE_IB_SLOTS);
      HalvesWrap(prof.slots.value + 16 * ((prof.index + next) % 256));
      assert Address(ib.addr) == Halves(prof.slots.value + 16 * ((prof.index + next) % 256));
      ShortSpelled(true, CP_INDIRECT_BUFFER_PFE, Address(ib.addr) + [ib.dwords], 0x70BF_8003);
      assert [0x70BF_8003] + (Address(ib.addr) + [4]) == [0x70BF_8003] + Address(ib.addr) + [4];
    }
  }

  lemma BeforeSpelled(gpu: Gpu, prof: Profiling, flags: u32)
    ensures Spelled(BeforeIbs(gpu, prof, flags), BeforeRows(gpu, prof, flags))
  {
    hide Spelled, CounterPacket, CounterRows, UserIb, UserRows, IsKernelProfile, When, AllEncodable;
    MarkSpelled(START_IB_IDENTIFIER);
    CounterSpelled(gpu, IsKernelProfile(flags), prof.started);
    UserSpelled(prof, flags, 0);
    SpelledThree([Op(CP_NOP, [START_IB_IDENTIFIER])], [[0x7010_0001, 0x2EAD_EABE]],
        When(IsKernelProfile(flags), [CounterPacket(gpu, prof.started)]),
        CounterRows(gpu, IsKernelProfile(flags), prof.started), UserIb(prof, flags, 0), UserRows(prof, flags, 0));
  }

  lemma RenderSpelled()
    ensures Spelled([Op(CP_SET_RENDER_MODE, [0, 0, 0, 0, 0])], [[0x70EC_8005, 0, 0, 0, 0, 0]])
    ensures Spelled([Op(CP_YIELD_ENABLE, [1])], [[0x701C_0001, 1]])
  {
    hide Starts7, Spelled;
    Headers7();
    ShortSpelled(true, CP_SET_RENDER_MODE, [0, 0, 0, 0, 0], 0x70EC_8005);
    ShortSpelled(true, CP_YIELD_ENABLE, [1], 0x701C_0001);
    assert [0x70EC_8005] + [0, 0, 0, 0, 0] == [0x70EC_8005, 0, 0, 0, 0, 0] && [0x701C_0001] + [1] == [0x701C_0001, 1];
  }

  lemma AfterSpelled(gpu: Gpu, prof: Profiling, flags: u32)
    ensures Spelled(AfterIbs(gpu, prof, flags), AfterRows(gpu, prof, flags))
  {
    hide Spelled, CounterPacket, CounterRows, UserIb, UserRows, IsKernelProfile, When, AllEncodable;
    RenderSpelled();
    CounterSpelled(gpu, IsKernelProfile(flags), prof.retired);
    UserSpelled(prof, flags, 1);
    MarkSpelled(END_IB_IDENTIFIER);
    SpelledFive([Op(CP_SET_RENDER_MODE, [0, 0, 0, 0, 0])], [[0x70EC_8005, 0, 0, 0, 0, 0]],
        [Op(CP_YIELD_ENABLE, [1])], [[0x701C_0001, 1]],
        When(IsKernelProfile(flags), [CounterPacket(gpu, prof.retired)]),
        CounterRows(gpu, IsKernelProfile(flags), prof.retired), UserIb(prof, flags, 1), UserRows(prof, flags, 1),
        [Op(CP_NOP, [END_IB_IDENTIFIER])], [[0x7010_0001, 0x2ABE_DEAD]]);
  }

  /** An A5xx command, dword by dword. */
  lemma CommandWords(gpu: Gpu, prof: Profiling, ibs: seq<IbNode>, flags: u32)
    ensures Command(gpu, prof, ibs, flags)
         == Joined(BeforeRows(gpu, prof, flags)) + Joined(NodeRows(if IsSkip(flags) then [] else ibs, flags))
            + Joined(AfterRows(gpu, prof, flags))
  {
    hide Spelled, BeforeIbs, BeforeRows, AfterIbs, AfterRows, Encode, Joined, NodeRows, IbDwords, IsSkip;
    BeforeSpelled(gpu, prof, flags);
    AfterSpelled(gpu, prof, flags);
    ListWords(ListedIbs(ibs, flags), flags);
    SpelledEncodes(BeforeIbs(gpu, prof, flags), BeforeRows(gpu, prof, flags));
    SpelledEncodes(AfterIbs(gpu, prof, flags), AfterRows(gpu, prof, flags));
  }

  // ------------------------------------------------- an A5xx context switch

  function TableRows(gpu: Gpu, rb: Ring, ctx: Context): seq<seq<u32>> {
    var t := Halves(ctx.pagetable.ttbr0);
    [[0x70D3_8003] + t + [ctx.id], [0x7026_8000], [0x7013_8000], [0x4808_3101, 1]]
    + [[0x703D_8005] + Halves(gpu.scratch + 32 * rb.id + 16) + t + [ctx.id], [0x7026_8000], [0x7013_8000],
       [0x4808_3101, 0]]
  }

  function SwitchRows(gpu: Gpu, rb: Ring, active: Option<Context>, ctx: Context): seq<seq<u32>> {
    (if NeedsTable(gpu, active, ctx) then TableRows(gpu, rb, ctx) else [])
    + [[0x7010_0001, 0x2EAD_BEEF]]
    + [[0x703D_8003] + Place(gpu, 813 + rb.id, 32) + [ctx.id], [0x703D_8003] + Place(gpu, 0, 32) + [ctx.id],
       [0x400E_9501, 0x12]]
  }

  lemma ThreeRows(p: Packet, p': seq<u32>, q: Packet, q': seq<u32>, r: Packet, r': seq<u32>)
    requires Spelled([p], [p']) && Spelled([q], [q']) && Spelled([r], [r'])
    ensures Spelled([p, q, r], [p', q', r'])
  {
    hide Spelled;
    SpelledThree([p], [p'], [q], [q'], [r], [r']);
    assert [p] + [q] + [r] == [p, q, r] && [p'] + [q'] + [r'] == [p', q', r'];
  }

  lemma FourRows(p: Packet, p': seq<u32>, q: Packet, q': seq<u32>, r: Packet, r': seq<u32>, s: Packet, s': seq<u32>)
    requires Spelled([p], [p']) && Spelled([q], [q']) && Spelled([r], [r']) && Spelled([s], [s'])
    ensures Spelled([p, q, r, s], [p', q', r', s'])
  {
    hide Spelled;
    ThreeRows(p, p', q, q', r, r');
    SpelledConcat([p, q, r], [p', q', r'], [s], [s']);
    assert [p, q, r] + [s] == [p, q, r, s] && [p', q', r'] + [s'] == [p', q', r', s'];
  }

  lemma ControlSpelled(v: u32)
    ensures Spelled([Type4(CP_CNTL_REG, [v])], [[0x4808_3101, v]])
  {
    hide Starts4, Spelled;
    Headers4();
    Begins4(CP_CNTL_REG, [v], 0x4808_3101);
    SpelledOne(Type4(CP_CNTL_REG, [v]), 0x4808_3101, true);
    assert [0x4808_3101] + [v] == [0x4808_3101, v];
  }

  lemma WaitsSpelled()
    ensures Spelled([Op(CP_WAIT_FOR_IDLE, [])], [[0x7026_8000]]) && Spelled([Op(CP_WAIT_FOR_ME, [])], [[0x7013_8000]])
  {
    hide Starts7, Spelled;
    Headers7();
    BareSpelled(true, CP_WAIT_FOR_IDLE, 0x7026_8000);
    BareSpelled(true, CP_WAIT_FOR_ME, 0x7013_8000);
  }

  lemma TablePacketSpelled(t: seq<u32>, id: u32)
    requires |t| == 2
    ensures Spelled([Op(CP_SMMU_TABLE_UPDATE, t + [id])], [[0x70D3_8003] + t + [id]])
  {
    hide Starts7, Spelled;
    Headers7();
    ShortSpelled(true, CP_SMMU_TABLE_UPDATE, t + [id], 0x70D3_8003);
    assert [0x70D3_8003] + (t + [id]) == [0x70D3_8003] + t + [id];
  }

  lemma RecordPacketSpelled(at: seq<u32>, t: seq<u32>, id: u32)
    requires |at| == 2 && |t| == 2
    ensures Spelled([Op(CP_MEM_WRITE, at + (t + [id]))], [[0x703D_8005] + at + t + [id]])
  {
    hide Starts7, Spelled;
    Headers7();
    ShortSpelled(true, CP_MEM_WRITE, at + (t + [id]), 0x703D_8005);
    assert [0x703D_8005] + (at + (t + [id])) == [0x703D_8005] + at + t + [id];
  }

  lemma ShadowIs(gpu: Gpu, ring: nat)
    ensures Address(ScratchTtbr0Addr(gpu, ring)) == Halves(gpu.scratch + 32 * ring + 16)
  {
    HalvesWrap(gpu.scratch + 32 * ring + 16);
  }

  lemma TableSpelled(gpu: Gpu, rb: Ring, ctx: Context)
    ensures Spelled(TableSwitch(gpu, rb, ctx), TableRows(gpu, rb, ctx))
  {
    var t, at := Address(ctx.pagetable.ttbr0), Address(ScratchTtbr0Addr(gpu, rb.id));
    AddressIs(ctx.pagetable.ttbr0);
    ShadowIs(gpu, rb.id);
    assert |t| == |at| == 2;
    hide Spelled, Address, Halves, ScratchTtbr0Addr;
    WaitsSpelled();
    ControlSpelled(1);
    ControlSpelled(0);
    TablePacketSpelled(t, ctx.id);
    RecordPacketSpelled(at, t, ctx.id);
    FourRows(Op(CP_SMMU_TABLE_UPDATE, t + [ctx.id]), [0x70D3_8003] + t + [ctx.id],
        Op(CP_WAIT_FOR_IDLE, []), [0x7026_8000], Op(CP_WAIT_FOR_ME, []), [0x7013_8000],
        Type4(CP_CNTL_REG, [1]), [0x4808_3101, 1]);
    FourRows(Op(CP_MEM_WRITE, at + (t + [ctx.id])), [0x703D_8005] + at + t + [ctx.id],
        Op(CP_WAIT_FOR_IDLE, []), [0x7026_8000], Op(CP_WAIT_FOR_ME, []), [0x7013_8000],
        Type4(CP_CNTL_REG, [0]), [0x4808_3101, 0]);
    SpelledConcat(UpdateTable(ctx),
        [[0x70D3_8003] + t + [ctx.id], [0x7026_8000], [0x7013_8000], [0x4808_3101, 1]],
        RecordTable(gpu, rb, ctx),
        [[0x703D_8005] + at + t + [ctx.id], [0x7026_8000], [0x7013_8000], [0x4808_3101, 0]]);
  }

  lemma InvalidateSpelled()
    ensures Spelled([Type4(UCHE_INVALIDATE0_REG, [0x12])], [[0x400E_9501, 0x12]])
  {
    hide Starts4, Spelled;
    Headers4();
    Begins4(UCHE_INVALIDATE0_REG, [0x12], 0x400E_9501);
    SpelledOne(Type4(UCHE_INVALIDATE0_REG, [0x12]), 0x400E_9501, true);
    assert [0x400E_9501] + [0x12] == [0x400E_9501, 0x12];
  }

  lemma CurrentSpelled(gpu: Gpu, rb: Ring, ctx: Context)
    ensures Spelled(CurrentContext(gpu, rb, ctx),
      [[0x703D_8003] + Place(gpu, 813 + rb.id, 32) + [ctx.id], [0x703D_8003] + Place(gpu, 0, 32) + [ctx.id],
       [0x400E_9501, 0x12]])
  {
    hide Spelled, MemstoreAddr, Place, MemWritePacket, AllEncodable;
    WriteSpelled(gpu, 813 + rb.id, 32, ctx.id);
    WriteSpelled(gpu, 0, 32, ctx.id);
    InvalidateSpelled();
    ThreeRows(MemWritePacket(RingMemstoreAddr(gpu, rb, CURRENT_CONTEXT), [ctx.id]),
        [0x703D_8003] + Place(gpu, 813 + rb.id, 32) + [ctx.id],
        MemWritePacket(MemstoreAddr(gpu, MEMSTORE_GLOBAL, CURRENT_CONTEXT), [ctx.id]),
        [0x703D_8003] + Place(gpu, 0, 32) + [ctx.id],
        Type4(UCHE_INVALIDATE0_REG, [0x12]), [0x400E_9501, 0x12]);
  }

  lemma NothingSpelled()
    ensures Spelled([], [])
  {
  }

  /** An A5xx context switch, dword by dword. */
  lemma SwitchWords(gpu: Gpu, rb: Ring, active: Option<Context>, ctx: Context)
    ensures A5xxRing.SwitchDwords(gpu, rb, active, ctx) == Joined(SwitchRows(gpu, rb, active, ctx))
  {
    var need := NeedsTable(gpu, active, ctx);
    hide Spelled, TableSwitch, TableRows, CurrentContext, Place, Encode, Joined, NeedsTable, AllEncodable;
    NothingSpelled();
    TableSpelled(gpu, rb, ctx);
    MarkSpelled(CONTEXT_TO_MEM_IDENTIFIER);
    CurrentSpelled(gpu, rb, ctx);
    SpelledThree(When(need, TableSwitch(gpu, rb, ctx)), if need then TableRows(gpu, rb, ctx) else [],
        [Op(CP_NOP, [CONTEXT_TO_MEM_IDENTIFIER])], [[0x7010_0001, 0x2EAD_BEEF]], CurrentContext(gpu, rb, ctx),
        [[0x703D_8003] + Place(gpu, 813 + rb.id, 32) + [ctx.id], [0x703D_8003] + Place(gpu, 0, 32) + [ctx.id],
         [0x400E_9501, 0x12]]);
    SpelledEncodes(ContextSwitch(gpu, rb, active, ctx), SwitchRows(gpu, rb, active, ctx));
  }

  function SwitchHead(gpu: Gpu, rb: Ring, ringTimestamp: u32): seq<seq<u32>> {
    [[0x7010_0001, 0x2EED_D00D]]
    + PreIbRows(gpu, rb, false)
    + [[0x703D_8003] + Place(gpu, 813 + rb.id, 0) + [ringTimestamp], [0x70DF_0001, 0]]
  }

  function SwitchTail(gpu: Gpu, rb: Ring, ringTimestamp: u32, sequence: u32): seq<seq<u32>> {
    [[0x70DF_0001, 1]]
    + (if gpu.waitMemWrites then [[0x7092_8000]] else [])
    + [[0x703D_8003] + Place(gpu, 0, 24) + [sequence],
       [0x7046_0004, 0x8000_0004] + Place(gpu, 813 + rb.id, 8) + [ringTimestamp]]
    + (if gpu.preemption then [[0x706B_0004, 0, 0, 1, 1]] else [])
  }

  /**
    What SwitchContext() adds to the ring: the switch unprotected, between the ring's own timestamps, and no IB with it.
   */
  lemma SwitchSubmissionWords(gpu: Gpu, rb: Ring, active: Option<Context>, ctx: Context, ringTimestamp: u32,
      sequence: u32)
    ensures var j := Job(gpu, rb, None, NOTPROTECTED, 0, ringTimestamp, NoProfile, NoProfile, sequence);
      Submission(j, A5xxRing.SwitchDwords(gpu, rb, active, ctx))
        == Joined(SwitchHead(gpu, rb, ringTimestamp)) + Joined(SwitchRows(gpu, rb, active, ctx))
            + Joined(SwitchTail(gpu, rb, ringTimestamp, sequence))
  {
    var j := Job(gpu, rb, None, NOTPROTECTED, 0, ringTimestamp, NoProfile, NoProfile, sequence);
    SwitchHeadRows(j);
    SwitchTailRows(j);
    hide *;
    SubmissionWords(j, A5xxRing.SwitchDwords(gpu, rb, active, ctx));
    SwitchWords(gpu, rb, active, ctx);
  }

  lemma SwitchHeadRows(j: Job)
    requires j.ctx == None && j.flags == NOTPROTECTED && j.pre == NoProfile
    ensures HeadRows(j) == SwitchHead(j.gpu, j.rb, j.ringTimestamp)
  {
    assert MarkRows(j.ctx) == [[0x7010_0001, 0x2EED_D00D]];
    hide Place, PreIbRows, MarkRows;
  }

  lemma SwitchTailRows(j: Job)
    requires j.ctx == None && j.flags == NOTPROTECTED && j.post == NoProfile
    ensures TailRows(j) == SwitchTail(j.gpu, j.rb, j.ringTimestamp, j.sequence)
  {
    hide Place;
  }

  /** The request to report the read pointer. */
  lemma RequestWords(gpu: Gpu, id: nat)
    ensures Encodable(A5xxRing.WhereAmI(gpu, id))
    ensures EncodePacket(A5xxRing.WhereAmI(gpu, id)) == [0x7062_0002] + Halves(gpu.scratch + 32 * id)
  {
    hide Starts7;
    Headers7();
    HalvesWrap(gpu.scratch + 32 * id);
    Begins7(CP_WHERE_AM_I, Address(Add64(gpu.scratch, id * 32)), 0x7062_0002);
  }

  /** The NOP over the rest of a ring that wraps: an A3xx one has type 3, an A5xx one type 7. */
  lemma WrapWords(payload: seq<u32>)
    requires 1 <= |payload| < 0x4000
    ensures Encodable(RingMemory.Nop(true, payload)) && Encodable(RingMemory.Nop(false, payload))
    ensures Header(RingMemory.Nop(true, payload)) == 0xC000_1000 + 0x1_0000 * (|payload| - 1)
    ensures Header(RingMemory.Nop(false, payload)) == 0x7010_0000 + (Ones(|payload|) + 1) % 2 * 0x8000 + |payload|
  {
    hide Ones, OddParity;
    OnesOfOps();
    OddTogether(CP_NOP);
    OddTogether(|payload|);
  }

  // ----------------------------------------------------------------- A3xx

  lemma Headers3()
    ensures Starts3(CP_NOP, 1, 0xC000_1000) && Starts3(CP_NOP, 3, 0xC002_1000)
    ensures Starts3(CP_SET_PROTECTED_MODE, 1, 0xC000_5F00) && Starts3(CP_INDIRECT_BUFFER_PFE, 2, 0xC001_3F00)
    ensures Starts3(CP_MEM_WRITE, 2, 0xC001_3D00) && Starts3(CP_EVENT_WRITE, 3, 0xC002_4600)
    ensures Starts3(CP_EVENT_WRITE, 1, 0xC000_4600) && Starts3(CP_WAIT_FOR_IDLE, 1, 0xC000_2600)
    ensures Starts3(CP_WAIT_FOR_ME, 1, 0xC000_1300) && Starts3(CP_SET_CONSTANT, 2, 0xC001_2D00)
    ensures Starts3(CP_WAIT_REG_EQ, 4, 0xC003_5200) && Starts3(CP_REG_RMW, 3, 0xC002_2100)
    ensures Starts3(CP_REG_WR_NO_CTXT, 3, 0xC002_7800) && Starts3(CP_REG_WR_NO_CTXT, 2, 0xC001_7800)
    ensures Starts3(CP_INVALIDATE_STATE, 1, 0xC000_3B00)
  {
  }

  // The low dword of an address, all that A3xx takes.
  function LowPlace(gpu: Gpu, slot: nat, field: nat): u32 {
    (gpu.memstore + 40 * slot + field) % 0x1_0000_0000
  }

  lemma LowPlaceIs(gpu: Gpu, slot: nat, field: nat)
    ensures Lo(MemstoreAddr(gpu, slot, field)) == LowPlace(gpu, slot, field)
  {
    PlaceIs(gpu, slot, field);
  }

  lemma ShortSpelled3(b: bool, op: u32, payload: seq<u32>, w: u32)
    requires Starts3(op, |payload|, w)
    ensures Spelled(When(b, [Op3(op, payload)]), if b then [[w] + payload] else [])
    ensures Spelled([Op3(op, payload)], [[w] + payload])
  {
    hide Starts3, Spelled;
    Begins3(op, payload, w);
    SpelledOne(Op3(op, payload), w, b);
  }

  function IbRows3(ib: ProfileIb): seq<seq<u32>> {
    if ib.addr != 0 then [[0xC001_3F00, ib.addr % 0x1_0000_0000, ib.dwords]] else []
  }

  function FixupRows(j: Job3): seq<seq<u32>> {
    if !IsPwronFixup(j.flags) then []
    else [[0xC000_5F00, 0], [0xC000_1000, 0x2AFA_FAFA],
          [0xC001_3F00, j.fixup.addr % 0x1_0000_0000, j.fixup.dwords], [0xC000_5F00, 0]]
  }

  function StartRows3(j: Job3): seq<seq<u32>> {
    IbRows3(j.pre)
    + (if j.ctx.Some? then [[0xC001_3D00, LowPlace(j.gpu, j.ctx.value.id, 0), j.timestamp]] else [])
    + [[0xC001_3D00, LowPlace(j.gpu, 813 + j.rb.id, 0), j.ringTimestamp]]
  }

  function HeadRows3(j: Job3): seq<seq<u32>> {
    [[0xC000_1000, if j.ctx.Some? then 0x2EED_FACE else 0x2EED_D00D]]
    + FixupRows(j)
    + StartRows3(j)
    + (if IsNotProtected(j.flags) then [[0xC000_5F00, 0]] else [])
  }

  function EndRows3(j: Job3): seq<seq<u32>> {
    match j.ctx
    case None => [[0xC002_4600, 0x8000_0004, LowPlace(j.gpu, 813 + j.rb.id, 8), j.ringTimestamp]]
    case Some(c) =>
      [[0xC002_4600, 0x8000_0004, LowPlace(j.gpu, c.id, 8), j.timestamp],
       [0xC002_4600, 4, LowPlace(j.gpu, 813 + j.rb.id, 8), j.ringTimestamp]]
  }

  function RetirementRows3(j: Job3): seq<seq<u32>> {
    [[0xC000_4600, 7], [0xC000_2600, 0]]
    + IbRows3(j.post)
    + EndRows3(j)
    + [[0xC001_2D00, 0x4_0215, 0]]
    + (if IsWfi(j.flags) then [[0xC000_2600, 0]] else [])
  }

  function TailRows3(j: Job3): seq<seq<u32>> {
    (if IsNotProtected(j.flags) then [[0xC000_5F00, 1]] else []) + RetirementRows3(j)
  }

  lemma MarkSpelled3(value: u32)
    ensures Spelled([Op3(CP_NOP, [value])], [[0xC000_1000, value]])
  {
    hide Starts3, Spelled;
    Headers3();
    ShortSpelled3(true, CP_NOP, [value], 0xC000_1000);
    assert [0xC000_1000] + [value] == [0xC000_1000, value];
  }

  lemma ProtectSpelled3(b: bool, v: u32)
    ensures Spelled(When(b, [Op3(CP_SET_PROTECTED_MODE, [v])]), if b then [[0xC000_5F00, v]] else [])
    ensures Spelled([Op3(CP_SET_PROTECTED_MODE, [v])], [[0xC000_5F00, v]])
  {
    hide Starts3, Spelled;
    Headers3();
    ShortSpelled3(b, CP_SET_PROTECTED_MODE, [v], 0xC000_5F00);
    assert [0xC000_5F00] + [v] == [0xC000_5F00, v];
  }

  lemma IdleSpelled3(b: bool)
    ensures Spelled(When(b, [Op3(CP_WAIT_FOR_IDLE, [0])]), if b then [[0xC000_2600, 0]] else [])
    ensures Spelled([Op3(CP_WAIT_FOR_IDLE, [0])], [[0xC000_2600, 0]])
  {
    hide Starts3, Spelled;
    Headers3();
    ShortSpelled3(b, CP_WAIT_FOR_IDLE, [0], 0xC000_2600);
    assert [0xC000_2600] + [0] == [0xC000_2600, 0];
  }

  lemma IbSpelled3(b: bool, addr: u64, dwords: u32)
    ensures Spelled(When(b, [Ib3(addr, dwords)]), if b then [[0xC001_3F00, addr % 0x1_0000_0000, dwords]] else [])
    ensures Spelled([Ib3(addr, dwords)], [[0xC001_3F00, addr % 0x1_0000_0000, dwords]])
  {
    hide Starts3, Spelled;
    Headers3();
    ShortSpelled3(b, CP_INDIRECT_BUFFER_PFE, [Lo(addr), dwords], 0xC001_3F00);
    assert [0xC001_3F00] + [Lo(addr), dwords] == [0xC001_3F00, addr % 0x1_0000_0000, dwords];
  }

  lemma WriteSpelled3(gpu: Gpu, slot: nat, field: nat, value: u32)
    ensures Spelled([MemWrite3(MemstoreAddr(gpu, slot, field), value)],
                    [[0xC001_3D00, LowPlace(gpu, slot, field), value]])
  {
    hide Starts3, Spelled, MemstoreAddr, LowPlace, Lo;
    Headers3();
    LowPlaceIs(gpu, slot, field);
    ShortSpelled3(true, CP_MEM_WRITE, [Lo(MemstoreAddr(gpu, slot, field)), value], 0xC001_3D00);
    assert [0xC001_3D00] + [LowPlace(gpu, slot, field), value] == [0xC001_3D00, LowPlace(gpu, slot, field), value];
  }

  lemma SignalSpelled3(gpu: Gpu, event: u32, slot: nat, field: nat, value: u32)
    ensures Spelled([EventWrite3(event, MemstoreAddr(gpu, slot, field), value)],
                    [[0xC002_4600, event, LowPlace(gpu, slot, field), value]])
  {
    hide Starts3, Spelled, MemstoreAddr, LowPlace, Lo;
    Headers3();
    LowPlaceIs(gpu, slot, field);
    ShortSpelled3(true, CP_EVENT_WRITE, [event, Lo(MemstoreAddr(gpu, slot, field)), value], 0xC002_4600);
    assert [0xC002_4600] + [event, LowPlace(gpu, slot, field), value]
        == [0xC002_4600, event, LowPlace(gpu, slot, field), value];
  }

  lemma FixupSpelled(j: Job3)
    ensures Spelled(Fixup(j), FixupRows(j))
  {
    hide Spelled, IsPwronFixup, Ib3;
    NothingSpelled();
    ProtectSpelled3(true, 0);
    MarkSpelled3(PWRON_FIXUP_IDENTIFIER);
    IbSpelled3(true, j.fixup.addr, j.fixup.dwords);
    var a, b, c := [Op3(CP_SET_PROTECTED_MODE, [0])], [Op3(CP_NOP, [PWRON_FIXUP_IDENTIFIER])],
        [Ib3(j.fixup.addr, j.fixup.dwords)];
    var a', b', c' := [[0xC000_5F00, 0]], [[0xC000_1000, 0x2AFA_FAFA]],
        [[0xC001_3F00, j.fixup.addr % 0x1_0000_0000, j.fixup.dwords]];
    SpelledThree(a, a', b, b', c, c');
    SpelledConcat(a + b + c, a' + b' + c', a, a');
    assert IsPwronFixup(j.flags) ==> Fixup(j) == a + b + c + a && FixupRows(j) == a' + b' + c' + a';
  }

  lemma StartSpelled3(j: Job3)
    ensures Spelled(Started(j), StartRows3(j))
  {
    var own := if j.ctx.Some? then [MemWrite3(MemstoreAddr(j.gpu, j.ctx.value.id, SOPTIMESTAMP), j.timestamp)] else [];
    var own' := if j.ctx.Some? then [[0xC001_3D00, LowPlace(j.gpu, j.ctx.value.id, 0), j.timestamp]] else [];
    hide Spelled, MemstoreAddr, LowPlace, When, MemWrite3, Ib3, AllEncodable, Encodable, Header, EncodePacket;
    NothingSpelled();
    IbSpelled3(j.pre.addr != 0, j.pre.addr, j.pre.dwords);
    if j.ctx.Some? {
      WriteSpelled3(j.gpu, j.ctx.value.id, 0, j.timestamp);
    }
    WriteSpelled3(j.gpu, 813 + j.rb.id, 0, j.ringTimestamp);
    SpelledThree(When(j.pre.addr != 0, [Ib3(j.pre.addr, j.pre.dwords)]), IbRows3(j.pre), own, own',
        [MemWrite3(RingMemstoreAddr(j.gpu, j.rb, SOPTIMESTAMP), j.ringTimestamp)],
        [[0xC001_3D00, LowPlace(j.gpu, 813 + j.rb.id, 0), j.ringTimestamp]]);
  }

  lemma HeadSpelled3(j: Job3)
    ensures Spelled(Head3(j), HeadRows3(j))
  {
    var id := if j.ctx.Some? then CMD_IDENTIFIER else CMD_INTERNAL_IDENTIFIER;
    var d, d' := When(IsNotProtected(j.flags), [Op3(CP_SET_PROTECTED_MODE, [0])]),
        if IsNotProtected(j.flags) then [[0xC000_5F00, 0]] else [];
    hide Spelled, Fixup, FixupRows, Started, StartRows3, When, IsNotProtected;
    MarkSpelled3(id);
    FixupSpelled(j);
    StartSpelled3(j);
    ProtectSpelled3(IsNotProtected(j.flags), 0);
    SpelledThree([Op3(CP_NOP, [id])], [[0xC000_1000, id]], Fixup(j), FixupRows(j), Started(j), StartRows3(j));
    SpelledConcat([Op3(CP_NOP, [id])] + Fixup(j) + Started(j), [[0xC000_1000, id]] + FixupRows(j) + StartRows3(j),
        d, d');
  }

  lemma EndSpelled3(j: Job3)
    ensures Spelled(EndOfPipe3(j), EndRows3(j))
  {
    hide Spelled, MemstoreAddr, LowPlace, EventWrite3;
    match j.ctx
    case None => SignalSpelled3(j.gpu, CACHE_FLUSH_TS + EVENT_INTERRUPT, 813 + j.rb.id, 8, j.ringTimestamp);
    case Some(c) =>
      SignalSpelled3(j.gpu, CACHE_FLUSH_TS + EVENT_INTERRUPT, c.id, 8, j.timestamp);
      SignalSpelled3(j.gpu, CACHE_FLUSH_TS, 813 + j.rb.id, 8, j.ringTimestamp);
      var own, ring :=
        EventWrite3(CACHE_FLUSH_TS + EVENT_INTERRUPT, MemstoreAddr(j.gpu, c.id, EOPTIMESTAMP), j.timestamp),
        EventWrite3(CACHE_FLUSH_TS, RingMemstoreAddr(j.gpu, j.rb, EOPTIMESTAMP), j.ringTimestamp);
      var own', ring' := [0xC002_4600, 0x8000_0004, LowPlace(j.gpu, c.id, 8), j.timestamp],
          [0xC002_4600, 4, LowPlace(j.gpu, 813 + j.rb.id, 8), j.ringTimestamp];
      SpelledConcat([own], [own'], [ring], [ring']);
      assert [own] + [ring] == [own, ring] && [own'] + [ring'] == [own', ring'];
  }

  lemma FlushSpelled3()
    ensures Spelled([Op3(CP_EVENT_WRITE, [HLSQ_FLUSH]), Op3(CP_WAIT_FOR_IDLE, [0])],
        [[0xC000_4600, 7], [0xC000_2600, 0]])
    ensures Spelled([Op3(CP_SET_CONSTANT, [KERNEL_GROUP_X, 0])], [[0xC001_2D00, 0x4_0215, 0]])
  {
    hide Starts3;
    Headers3();
    Begins3(CP_EVENT_WRITE, [HLSQ_FLUSH], 0xC000_4600);
    Begins3(CP_WAIT_FOR_IDLE, [0], 0xC000_2600);
    Begins3(CP_SET_CONSTANT, [KERNEL_GROUP_X, 0], 0xC001_2D00);
  }

  lemma TailSpelled3(j: Job3)
    ensures Spelled(Tail3(j), TailRows3(j))
  {
    var a, a' := [Op3(CP_EVENT_WRITE, [HLSQ_FLUSH]), Op3(CP_WAIT_FOR_IDLE, [0])], [[0xC000_4600, 7], [0xC000_2600, 0]];
    var b, e := When(j.post.addr != 0, [Ib3(j.post.addr, j.post.dwords)]),
        When(IsWfi(j.flags), [Op3(CP_WAIT_FOR_IDLE, [0])]);
    var d, d' := [Op3(CP_SET_CONSTANT, [KERNEL_GROUP_X, 0])], [[0xC001_2D00, 0x4_0215, 0]];
    var e', f' := if IsWfi(j.flags) then [[0xC000_2600, 0]] else [],
        if IsNotProtected(j.flags) then [[0xC000_5F00, 1]] else [];
    hide Spelled, EndOfPipe3, EndRows3, When, IsNotProtected, IsWfi, Ib3;
    FlushSpelled3();
    IbSpelled3(j.post.addr != 0, j.post.addr, j.post.dwords);
    EndSpelled3(j);
    IdleSpelled3(IsWfi(j.flags));
    ProtectSpelled3(IsNotProtected(j.flags), 1);
    SpelledFive(a, a', b, IbRows3(j.post), EndOfPipe3(j), EndRows3(j), d, d', e, e');
    SpelledConcat(When(IsNotProtected(j.flags), [Op3(CP_SET_PROTECTED_MODE, [1])]), f', Retirement3(j),
        RetirementRows3(j));
  }

  /** An A3xx submission, dword by dword. */
  lemma SubmissionWords3(j: Job3, input: seq<u32>)
    ensures Submission3(j, input) == Joined(HeadRows3(j)) + input + Joined(TailRows3(j))
  {
    hide Spelled, Head3, HeadRows3, Tail3, TailRows3, Encode, Joined;
    HeadSpelled3(j);
    TailSpelled3(j);
    SpelledEncodes(Head3(j), HeadRows3(j));
    SpelledEncodes(Tail3(j), TailRows3(j));
  }

  function NodeRows3(ibs: seq<IbNode>, flags: u32): seq<seq<u32>> {
    if |ibs| == 0 then []
    else
      [(if IsSkipped(ibs[0], flags) then [0xC002_1000] else [])
       + [0xC001_3F00, ibs[0].addr % 0x1_0000_0000, (ibs[0].size / 4) % 0x1_0000_0000]]
      + NodeRows3(ibs[1..], flags)
  }

  lemma NodeWords3(ib: IbNode, flags: u32)
    ensures IbWords3(ib, flags) == (if IsSkipped(ib, flags) then [0xC002_1000] else [])
       + [0xC001_3F00, ib.addr % 0x1_0000_0000, (ib.size / 4) % 0x1_0000_0000]
  {
    hide IsSkipped;
  }

  lemma {:induction false} ListWords3(ibs: seq<IbNode>, flags: u32)
    ensures IbDwords3(ibs, flags) == Joined(NodeRows3(ibs, flags))
  {
    hide IbWords3, IsSkipped;
    if |ibs| != 0 {
      NodeWords3(ibs[0], flags);
      ListWords3(ibs[1..], flags);
    }
  }

  /** An A3xx command, dword by dword. */
  lemma CommandWords3(ibs: seq<IbNode>, flags: u32)
    ensures Command3(ibs, flags)
         == [0xC000_1000, 0x2EAD_EABE] + Joined(NodeRows3(if IsSkip(flags) then [] else ibs, flags))
            + [0xC000_1000, 0x2ABE_DEAD]
  {
    hide Spelled, Encode, NodeRows3, IbDwords3, IsSkip;
    MarkSpelled3(START_IB_IDENTIFIER);
    MarkSpelled3(END_IB_IDENTIFIER);
    ListWords3(ListedIbs(ibs, flags), flags);
    SpelledEncodes(Mark(START_IB_IDENTIFIER), [[0xC000_1000, 0x2EAD_EABE]]);
    SpelledEncodes(Mark(END_IB_IDENTIFIER), [[0xC000_1000, 0x2ABE_DEAD]]);
    assert Joined([[0xC000_1000, 0x2EAD_EABE]])
        == [0xC000_1000, 0x2EAD_EABE] + Joined([[0xC000_1000, 0x2EAD_EABE]][1..]);
    assert Joined([[0xC000_1000, 0x2ABE_DEAD]])
        == [0xC000_1000, 0x2ABE_DEAD] + Joined([[0xC000_1000, 0x2ABE_DEAD]][1..]);
  }

  function TableRows3(setstate: u64, ttbr0: u64): seq<seq<u32>> {
    [[0xC000_1300, 0], [0xC001_3F00, setstate % 0x1_0000_0000, 2], [0xC000_2600, 0], [0xC000_1300, 0],
     [0xC003_5200, 0x1F5, 1, 0xFFFF_FFFF, 0xF], [0xC002_2100, 0x3800, 0xFFFF_FFFE, 1],
     [0xC003_5200, 0x3801, 1, 0xFFFF_FFFF, 0xF]]
    + [[0xC002_7800, 0x2808] + Halves(ttbr0), [0xC002_2100, 0x3800, 0xFFFF_FFFE, 0], [0xC000_1300, 0]]
    + [[0xC001_7800, 0x2986, 1], [0xC001_7800, 0x29FC, 0], [0xC003_5200, 0x29FD, 0, 1, 0xF],
       [0xC000_1300, 0], [0xC000_2600, 0], [0xC000_3B00, 0x7_FFFF]]
  }

  function SwitchRows3(gpu: Gpu, rb: Ring, setstate: u64, active: Option<Context>, ctx: Context): seq<seq<u32>> {
    (if NeedsTable(gpu, active, ctx) then TableRows3(setstate, ctx.pagetable.ttbr0) else [])
    + [[0xC000_1000, 0x2EAD_BEEF]]
    + [[0xC001_3D00, LowPlace(gpu, 813 + rb.id, 32), ctx.id], [0xC001_3D00, LowPlace(gpu, 0, 32), ctx.id],
       [0x1_0EA0, 0, 0x9000_0000]]
  }

  lemma HaltSpelled(setstate: u64)
    ensures Spelled(HaltBus(setstate), [
      [0xC000_1300, 0], [0xC001_3F00, setstate % 0x1_0000_0000, 2], [0xC000_2600, 0], [0xC000_1300, 0],
      [0xC003_5200, 0x1F5, 1, 0xFFFF_FFFF, 0xF], [0xC002_2100, 0x3800, 0xFFFF_FFFE, 1],
      [0xC003_5200, 0x3801, 1, 0xFFFF_FFFF, 0xF]])
  {
    hide Header, Starts3, Encodable, AllEncodable;
    Headers3();
    Begins3(CP_WAIT_FOR_ME, [0], 0xC000_1300);
    Begins3(CP_INDIRECT_BUFFER_PFE, [Lo(setstate), 2], 0xC001_3F00);
    Begins3(CP_WAIT_FOR_IDLE, [0], 0xC000_2600);
    Begins3(CP_WAIT_REG_EQ, [WFI_PEND_CTR, 1, ALL_BITS, 0xF], 0xC003_5200);
    Begins3(CP_REG_RMW, [HALT_CTRL0, NOT_HALT_BIT, 1], 0xC002_2100);
    Begins3(CP_WAIT_REG_EQ, [HALT_CTRL1, 1, ALL_BITS, 0xF], 0xC003_5200);
  }

  lemma LoadSpelled(ttbr0: u64)
    ensures Spelled(LoadTable(ttbr0),
      [[0xC002_7800, 0x2808] + Halves(ttbr0), [0xC002_2100, 0x3800, 0xFFFF_FFFE, 0], [0xC000_1300, 0]])
  {
    hide Header, Starts3, Encodable, AllEncodable;
    Headers3();
    AddressIs(ttbr0);
    Begins3(CP_REG_WR_NO_CTXT, [SMMU_TTBR0] + [Lo(ttbr0), Hi(ttbr0)], 0xC002_7800);
    Begins3(CP_REG_RMW, [HALT_CTRL0, NOT_HALT_BIT, 0], 0xC002_2100);
    Begins3(CP_WAIT_FOR_ME, [0], 0xC000_1300);
  }

  lemma TlbSpelled()
    ensures Spelled(FlushTlb(), [
      [0xC001_7800, 0x2986, 1], [0xC001_7800, 0x29FC, 0], [0xC003_5200, 0x29FD, 0, 1, 0xF],
      [0xC000_1300, 0], [0xC000_2600, 0], [0xC000_3B00, 0x7_FFFF]])
  {
    hide Header, Starts3, Encodable, AllEncodable;
    Headers3();
    Begins3(CP_REG_WR_NO_CTXT, [SMMU_TLBIALL] + [1], 0xC001_7800);
    Begins3(CP_REG_WR_NO_CTXT, [SMMU_TLBSYNC] + [0], 0xC001_7800);
    Begins3(CP_WAIT_REG_EQ, [SMMU_TLBSTATUS, 0, 1, 0xF], 0xC003_5200);
    Begins3(CP_WAIT_FOR_ME, [0], 0xC000_1300);
    Begins3(CP_WAIT_FOR_IDLE, [0], 0xC000_2600);
    Begins3(CP_INVALIDATE_STATE, [0x7_FFFF], 0xC000_3B00);
  }

  lemma TableSpelled3(setstate: u64, ttbr0: u64)
    ensures Spelled(TableSwitch3(setstate, ttbr0), TableRows3(setstate, ttbr0))
  {
    hide Spelled, HaltBus, LoadTable, FlushTlb, Halves, AllEncodable;
    HaltSpelled(setstate);
    LoadSpelled(ttbr0);
    TlbSpelled();
    SpelledThree(HaltBus(setstate), [
      [0xC000_1300, 0], [0xC001_3F00, setstate % 0x1_0000_0000, 2], [0xC000_2600, 0], [0xC000_1300, 0],
      [0xC003_5200, 0x1F5, 1, 0xFFFF_FFFF, 0xF], [0xC002_2100, 0x3800, 0xFFFF_FFFE, 1],
      [0xC003_5200, 0x3801, 1, 0xFFFF_FFFF, 0xF]],
      LoadTable(ttbr0),
      [[0xC002_7800, 0x2808] + Halves(ttbr0), [0xC002_2100, 0x3800, 0xFFFF_FFFE, 0], [0xC000_1300, 0]],
      FlushTlb(), [
      [0xC001_7800, 0x2986, 1], [0xC001_7800, 0x29FC, 0], [0xC003_5200, 0x29FD, 0, 1, 0xF],
      [0xC000_1300, 0], [0xC000_2600, 0], [0xC000_3B00, 0x7_FFFF]]);
  }

  lemma CurrentSpelled3(gpu: Gpu, rb: Ring, ctx: Context)
    ensures Spelled(
      [MemWrite3(RingMemstoreAddr(gpu, rb, CURRENT_CONTEXT), ctx.id),
       MemWrite3(MemstoreAddr(gpu, MEMSTORE_GLOBAL, CURRENT_CONTEXT), ctx.id),
       Type0(UCHE_CACHE_INVALIDATE0_REG, [0, 0x9000_0000])],
      [[0xC001_3D00, LowPlace(gpu, 813 + rb.id, 32), ctx.id], [0xC001_3D00, LowPlace(gpu, 0, 32), ctx.id],
       [0x1_0EA0, 0, 0x9000_0000]])
  {
    hide MemstoreAddr, LowPlace, Lo;
    LowPlaceIs(gpu, 813 + rb.id, 32);
    LowPlaceIs(gpu, 0, 32);
  }

  /** An A3xx context switch, dword by dword. */
  lemma SwitchWords3(gpu: Gpu, rb: Ring, setstate: u64, active: Option<Context>, ctx: Context)
    ensures Encode(ContextSwitch3(gpu, rb, setstate, active, ctx))
        == Joined(SwitchRows3(gpu, rb, setstate, active, ctx))
  {
    var need := NeedsTable(gpu, active, ctx);
    hide Spelled, TableSwitch3, TableRows3, MemstoreAddr, LowPlace, Encode, Joined, NeedsTable, MemWrite3;
    NothingSpelled();
    TableSpelled3(setstate, ctx.pagetable.ttbr0);
    MarkSpelled3(CONTEXT_TO_MEM_IDENTIFIER);
    CurrentSpelled3(gpu, rb, ctx);
    SpelledThree(When(need, TableSwitch3(setstate, ctx.pagetable.ttbr0)),
        if need then TableRows3(setstate, ctx.pagetable.ttbr0) else [],
        Mark(CONTEXT_TO_MEM_IDENTIFIER), [[0xC000_1000, 0x2EAD_BEEF]],
        [MemWrite3(RingMemstoreAddr(gpu, rb, CURRENT_CONTEXT), ctx.id),
         MemWrite3(MemstoreAddr(gpu, MEMSTORE_GLOBAL, CURRENT_CONTEXT), ctx.id),
         Type0(UCHE_CACHE_INVALIDATE0_REG, [0, 0x9000_0000])],
        [[0xC001_3D00, LowPlace(gpu, 813 + rb.id, 32), ctx.id], [0xC001_3D00, LowPlace(gpu, 0, 32), ctx.id],
         [0x1_0EA0, 0, 0x9000_0000]]);
    SpelledEncodes(ContextSwitch3(gpu, rb, setstate, active, ctx), SwitchRows3(gpu, rb, setstate, active, ctx));
  }

  /** What SwitchContext3() adds to the ring. */
  lemma SwitchSubmissionWords3(gpu: Gpu, rb: Ring, setstate: u64, active: Option<Context>, ctx: Context,
      ringTimestamp: u32, fixup: ProfileIb)
    ensures var j := Job3(gpu, rb, None, NOTPROTECTED, 0, ringTimestamp, NoProfile, NoProfile, fixup);
      Submission3(j, Encode(ContextSwitch3(gpu, rb, setstate, active, ctx)))
        == Joined([[0xC000_1000, 0x2EED_D00D], [0xC001_3D00, LowPlace(gpu, 813 + rb.id, 0), ringTimestamp],
                   [0xC000_5F00, 0]])
         + Joined(SwitchRows3(gpu, rb, setstate, active, ctx))
         + Joined([[0xC000_5F00, 1], [0xC000_4600, 7], [0xC000_2600, 0],
                   [0xC002_4600, 0x8000_0004, LowPlace(gpu, 813 + rb.id, 8), ringTimestamp],
                       [0xC001_2D00, 0x4_0215, 0]])
  {
    var j := Job3(gpu, rb, None, NOTPROTECTED, 0, ringTimestamp, NoProfile, NoProfile, fixup);
    SwitchRowsAround3(j);
    hide *;
    SubmissionWords3(j, Encode(ContextSwitch3(gpu, rb, setstate, active, ctx)));
    SwitchWords3(gpu, rb, setstate, active, ctx);
  }

  lemma SwitchRowsAround3(j: Job3)
    requires j.ctx == None && j.flags == NOTPROTECTED && j.pre == j.post == NoProfile
    ensures HeadRows3(j) ==
      [[0xC000_1000, 0x2EED_D00D], [0xC001_3D00, LowPlace(j.gpu, 813 + j.rb.id, 0), j.ringTimestamp], [0xC000_5F00, 0]]
    ensures TailRows3(j) ==
      [[0xC000_5F00, 1], [0xC000_4600, 7], [0xC000_2600, 0],
       [0xC002_4600, 0x8000_0004, LowPlace(j.gpu, 813 + j.rb.id, 8), j.ringTimestamp], [0xC001_2D00, 0x4_0215, 0]]
  {
    hide LowPlace;
  }
}
