/**
  PM4 packets: the header words the driver emits, and a decoder that walks a
  dword stream the way the command processor does. `ParseEncode` is what makes
  every later statement about a stream a statement about its dwords.
 */
module Pm4 {
  import opened Words
  import opened MachineWords

  const CP_NOP: u32 := 0x10
  const CP_WAIT_MEM_WRITES: u32 := 0x12
  const CP_WAIT_FOR_ME: u32 := 0x13
  const CP_YIELD_ENABLE: u32 := 0x1C
  const CP_REG_RMW: u32 := 0x21
  const CP_WAIT_FOR_IDLE: u32 := 0x26
  const CP_SET_CONSTANT: u32 := 0x2D
  const CP_INVALIDATE_STATE: u32 := 0x3B
  const CP_MEM_WRITE: u32 := 0x3D
  const CP_REG_TO_MEM: u32 := 0x3E
  const CP_INDIRECT_BUFFER_PFE: u32 := 0x3F
  const CP_EVENT_WRITE: u32 := 0x46
  const CP_WAIT_REG_EQ: u32 := 0x52
  const CP_SMMU_TABLE_UPDATE: u32 := 0x53
  const CP_SET_PROTECTED_MODE: u32 := 0x5F
  const CP_WHERE_AM_I: u32 := 0x62
  const CP_SET_SECURE_MODE: u32 := 0x66
  const CP_PREEMPT_ENABLE_GLOBAL: u32 := 0x69
  const CP_PREEMPT_ENABLE_LOCAL: u32 := 0x6A
  const CP_CONTEXT_SWITCH_YIELD: u32 := 0x6B
  const CP_SET_RENDER_MODE: u32 := 0x6C
  const CP_REG_WR_NO_CTXT: u32 := 0x78

  /** A decoded packet: a register burst (types 0 and 4) or an opcode (types 3 and 7). */
  datatype Packet =
    | Type0(reg: u32, payload: seq<u32>)
    | Type3(op: u32, payload: seq<u32>)
    | Type4(reg: u32, payload: seq<u32>)
    | Type7(op: u32, payload: seq<u32>)

  // The widths of the header fields: outside them the OR-ed header words overlap.
  // A type 3 opcode has only seven usable bits: pkt_is_type3() wants bit 15 clear.
  predicate Encodable(p: Packet) {
    match p
    case Type0(reg, payload) => reg < 0x8000 && 1 <= |payload| <= 0x4000
    case Type3(op, payload) => op < 0x80 && 1 <= |payload| <= 0x4000
    case Type4(reg, payload) => reg < 0x4_0000 && |payload| < 0x80
    case Type7(op, payload) => op < 0x80 && |payload| < 0x4000
  }

  // ---------------------------------------------------------------- bit level

  // pm4_calc_odd_parity_bit().
  function ParityBits(v: bv32): bv32 {
    (0x9669 >> (0xf & (v ^ (v >> 4) ^ (v >> 8) ^ (v >> 12) ^ (v >> 16) ^ (v >> 20) ^ (v >> 24) ^ (v >> 28)))) & 1
  }

  // --------------------------------------------------------------- word level

  function OddParity(v: u32): (p: u32)
    ensures p <= 1
  {
    if ParityBits(Word(v)) == 1 then 1 else 0
  }

  // The header word as a sum of fields; HeaderWords ties it to the OR-ed word of the code.
  function Header(p: Packet): u32
    requires Encodable(p)
  {
    match p
    case Type0(reg, payload) => (|payload| - 1) * 0x1_0000 + reg
    case Type3(op, payload) => 0xC000_0000 + (|payload| - 1) * 0x1_0000 + op * 0x100
    case Type4(reg, payload) =>
      0x4000_0000 + |payload| + OddParity(|payload|) * 0x80 + reg * 0x100 + OddParity(reg) * 0x800_0000
    case Type7(op, payload) =>
      0x7000_0000 + |payload| + OddParity(|payload|) * 0x8000 + op * 0x1_0000 + OddParity(op) * 0x80_0000
  }

  function EncodePacket(p: Packet): (ws: seq<u32>)
    requires Encodable(p)
    ensures |ws| == 1 + |p.payload|
  {
    [Header(p)] + p.payload
  }

  predicate AllEncodable(ps: seq<Packet>) {
    forall p <- ps :: Encodable(p)
  }

  function Encode(ps: seq<Packet>): seq<u32>
    requires AllEncodable(ps)
  {
    if |ps| == 0 then [] else EncodePacket(ps[0]) + Encode(ps[1..])
  }

  datatype HeaderInfo = HeaderInfo(kind: u32, key: u32, count: u32)

  // The pkt_is_type*() checks and size/opcode macros, field by field.
  function ReadHeader(w: u32): Option<HeaderInfo> {
    if w / 0x4000_0000 == 0 then
      Some(HeaderInfo(0, w % 0x8000, (w / 0x1_0000) % 0x4000 + 1))
    else if w / 0x4000_0000 == 3 then
      if (w / 2) % 0x80 == 0 && (w / 0x8000) % 2 == 0
      then Some(HeaderInfo(3, (w / 0x100) % 0x100, (w / 0x1_0000) % 0x4000 + 1)) else None
    else if w / 0x1000_0000 == 4 then
      var reg, count := (w / 0x100) % 0x8_0000, w % 0x80;
      if (w / 0x800_0000) % 2 == OddParity(reg) && (w / 0x80) % 2 == OddParity(count)
      then Some(HeaderInfo(4, reg, count)) else None
    else if w / 0x1000_0000 == 7 then
      var op, count := (w / 0x1_0000) % 0x80, w % 0x4000;
      if (w / 0x100_0000) % 0x10 == 0 && (w / 0x80_0000) % 2 == OddParity(op) && (w / 0x8000) % 2 == OddParity(count)
      then Some(HeaderInfo(7, op, count)) else None
    else None
  }

  function MakePacket(kind: u32, key: u32, payload: seq<u32>): Packet {
    if kind == 0 then Type0(key, payload)
    else if kind == 3 then Type3(key, payload)
    else if kind == 4 then Type4(key, payload)
    else Type7(key, payload)
  }

  /** Splits a dword stream into packets; None when a header is bad or the stream ends inside a packet. */
  function Parse(ws: seq<u32>): Option<seq<Packet>> {
    if |ws| == 0 then Some([])
    else
      match ReadHeader(ws[0])
      case None => None
      case Some(h) =>
        if |ws| < 1 + h.count then None
        else
          match Parse(ws[1 + h.count..])
          case None => None
          case Some(rest) => Some([MakePacket(h.kind, h.key, ws[1..1 + h.count])] + rest)
  }

  // One lemma a packet type: the fields of a header do not overlap.
  lemma Type0Arithmetic(reg: nat, n: nat, w: nat)
    requires reg < 0x8000 && 1 <= n <= 0x4000 && w == (n - 1) * 0x1_0000 + reg
    ensures w / 0x4000_0000 == 0 && w % 0x8000 == reg && (w / 0x1_0000) % 0x4000 == n - 1
  {
    Field(w, 0x4000_0000, 0, w);
    Field(w, 0x8000, 2 * (n - 1), reg);
    Field(w, 0x1_0000, n - 1, reg);
    Field(n - 1, 0x4000, 0, n - 1);
  }

  lemma Type3Arithmetic(op: nat, n: nat, w: nat)
    requires op < 0x80 && 1 <= n <= 0x4000 && w == 0xC000_0000 + (n - 1) * 0x1_0000 + op * 0x100
    ensures w / 0x4000_0000 == 3 && (w / 2) % 0x80 == 0 && (w / 0x8000) % 2 == 0
    ensures (w / 0x100) % 0x100 == op && (w / 0x1_0000) % 0x4000 == n - 1
  {
    Field(w, 0x4000_0000, 3, (n - 1) * 0x1_0000 + op * 0x100);
    Field(w, 2, 0x80 * (0xC0_0000 + (n - 1) * 0x100 + op), 0);
    Field(w / 2, 0x80, 0xC0_0000 + (n - 1) * 0x100 + op, 0);
    Field(w, 0x8000, 2 * (0xC000 + n - 1), op * 0x100);
    Field(w / 0x8000, 2, 0xC000 + n - 1, 0);
    Field(w, 0x100, 0xC0_0000 + (n - 1) * 0x100 + op, 0);
    Field(w / 0x100, 0x100, 0xC000 + (n - 1), op);
    Field(w, 0x1_0000, 0xC000 + n - 1, op * 0x100);
    Field(w / 0x1_0000, 0x4000, 3, n - 1);
  }

  lemma Type4Arithmetic(reg: nat, n: nat, p: nat, q: nat, w: nat)
    requires reg < 0x8_0000 && n < 0x80 && p <= 1 && q <= 1
    requires w == 0x4000_0000 + n + q * 0x80 + reg * 0x100 + p * 0x800_0000
    ensures w / 0x4000_0000 == 1 && w / 0x1000_0000 == 4
    ensures (w / 0x100) % 0x8_0000 == reg && w % 0x80 == n && (w / 0x800_0000) % 2 == p && (w / 0x80) % 2 == q
  {
    var low := n + q * 0x80 + reg * 0x100;
    Field(w, 0x4000_0000, 1, low + p * 0x800_0000);
    Field(w, 0x1000_0000, 4, low + p * 0x800_0000);
    Field(w, 0x80, 0x80_0000 + q + reg * 2 + p * 0x10_0000, n);
    Field(w / 0x80, 2, 0x40_0000 + reg + p * 0x8_0000, q);
    Field(w, 0x100, 0x40_0000 + reg + p * 0x8_0000, n + q * 0x80);
    Field(w / 0x100, 0x8_0000, 8 + p, reg);
    Field(w, 0x800_0000, 8 + p, low);
    Field(8 + p, 2, 4, p);
  }

  lemma Type7Arithmetic(op: nat, n: nat, p: nat, q: nat, w: nat)
    requires op < 0x80 && n < 0x4000 && p <= 1 && q <= 1
    requires w == 0x7000_0000 + n + q * 0x8000 + op * 0x1_0000 + p * 0x80_0000
    ensures w / 0x4000_0000 == 1 && w / 0x1000_0000 == 7 && (w / 0x100_0000) % 0x10 == 0
    ensures (w / 0x1_0000) % 0x80 == op && w % 0x4000 == n && (w / 0x80_0000) % 2 == p && (w / 0x8000) % 2 == q
  {
    var low := n + q * 0x8000 + op * 0x1_0000;
    Field(w, 0x4000_0000, 1, 0x3000_0000 + low + p * 0x80_0000);
    Field(w, 0x1000_0000, 7, low + p * 0x80_0000);
    Field(w, 0x100_0000, 0x70, low + p * 0x80_0000);
    Field(0x70, 0x10, 7, 0);
    Field(w, 0x4000, 0x1C000 + q * 2 + op * 4 + p * 0x200, n);
    Field(w, 0x8000, 0xE000 + q + op * 2 + p * 0x100, n);
    Field(w / 0x8000, 2, 0x7000 + op + p * 0x80, q);
    Field(w, 0x1_0000, 0x7000 + op + p * 0x80, n + q * 0x8000);
    Field(w / 0x1_0000, 0x80, 0xE0 + p, op);
    Field(w, 0x80_0000, 0xE0 + p, low);
    Field(0xE0 + p, 2, 0x70, p);
  }

  lemma HeaderReadsBack(p: Packet)
    requires Encodable(p)
    ensures var h := ReadHeader(Header(p));
            && h.Some? && h.value.count == |p.payload|
            && MakePacket(h.value.kind, h.value.key, p.payload) == p
  {
    match p
    case Type0(reg, payload) => Type0Arithmetic(reg, |payload|, Header(p));
    case Type3(op, payload) => Type3Arithmetic(op, |payload|, Header(p));
    case Type4(reg, payload) => Type4Arithmetic(reg, |payload|, OddParity(reg), OddParity(|payload|), Header(p));
    case Type7(op, payload) => Type7Arithmetic(op, |payload|, OddParity(op), OddParity(|payload|), Header(p));
  }

  lemma ParseFirst(p: Packet, ws: seq<u32>)
    requires Encodable(p)
    ensures Parse(EncodePacket(p) + ws) ==
      match Parse(ws) case None => None case Some(rest) => Some([p] + rest)
  {
    HeaderReadsBack(p);
    var all := EncodePacket(p) + ws;
    assert all[0] == Header(p);
    assert all[1..1 + |p.payload|] == p.payload;
    assert all[1 + |p.payload|..] == ws;
  }

  lemma {:induction false} ParseEncodeThen(ps: seq<Packet>, ws: seq<u32>)
    requires AllEncodable(ps)
    ensures Parse(Encode(ps) + ws) ==
      match Parse(ws) case None => None case Some(rest) => Some(ps + rest)
  {
    hide Parse, ReadHeader, Header, EncodePacket;
    if |ps| == 0 {
      assert Encode(ps) + ws == ws;
      assert Parse(ws).Some? ==> ps + Parse(ws).value == Parse(ws).value;
    } else {
      ParseEncodeThen(ps[1..], ws);
      ParseFirst(ps[0], Encode(ps[1..]) + ws);
      assert Encode(ps) + ws == EncodePacket(ps[0]) + (Encode(ps[1..]) + ws);
      assert Parse(ws).Some? ==> [ps[0]] + (ps[1..] + Parse(ws).value) == ps + Parse(ws).value;
    }
  }

  /** No desynchronisation: the decoder recovers exactly the packets that were written. */
  lemma ParseEncode(ps: seq<Packet>)
    requires AllEncodable(ps)
    ensures Parse(Encode(ps)) == Some(ps)
  {
    ParseEncodeThen(ps, []);
    assert Encode(ps) + [] == Encode(ps);
    assert ps + [] == ps;
  }

  lemma {:induction false} EncodeConcat(ps: seq<Packet>, qs: seq<Packet>)
    requires AllEncodable(ps) && AllEncodable(qs)
    ensures AllEncodable(ps + qs)
    ensures Encode(ps + qs) == Encode(ps) + Encode(qs)
  {
    hide Header, EncodePacket;
    if |ps| == 0 {
      assert ps + qs == qs;
    } else {
      EncodeConcat(ps[1..], qs);
      assert (ps + qs)[1..] == ps[1..] + qs;
    }
  }

  // Dwords a packet list takes.
  function Dwords(ps: seq<Packet>): nat {
    if |ps| == 0 then 0 else 1 + |ps[0].payload| + Dwords(ps[1..])
  }

  lemma {:induction false} DwordsConcat(ps: seq<Packet>, qs: seq<Packet>)
    ensures Dwords(ps + qs) == Dwords(ps) + Dwords(qs)
  {
    if |ps| == 0 {
      assert ps + qs == qs;
    } else {
      DwordsConcat(ps[1..], qs);
      assert (ps + qs)[1..] == ps[1..] + qs;
    }
  }

  lemma {:induction false} EncodedLength(ps: seq<Packet>)
    requires AllEncodable(ps)
    ensures |Encode(ps)| == Dwords(ps)
  {
    hide Header;
    if |ps| != 0 {
      EncodedLength(ps[1..]);
    }
  }

  function When(b: bool, ps: seq<Packet>): seq<Packet> {
    if b then ps else []
  }

  lemma WhenSize(b: bool, p: Packet)
    ensures Dwords(When(b, [p])) == if b then 1 + |p.payload| else 0
    ensures Dwords([p]) == 1 + |p.payload| && Dwords([]) == 0
  {
    assert [p][1..] == [];
  }

  function Sum(ns: seq<nat>): nat {
    if |ns| == 0 then 0 else ns[0] + Sum(ns[1..])
  }

  // Dwords() packet by packet.
  lemma {:induction false} ListSize(ps: seq<Packet>, ns: seq<nat>)
    requires |ps| == |ns| && forall i | 0 <= i < |ps| :: ns[i] == 1 + |ps[i].payload|
    ensures Dwords(ps) == Sum(ns)
  {
    if |ps| != 0 {
      ListSize(ps[1..], ns[1..]);
    }
  }

  function Prepend(p: Packet, r: Option<seq<Packet>>): Option<seq<Packet>> {
    match r case None => None case Some(ps) => Some([p] + ps)
  }

  lemma ParseUnfold(ws: seq<u32>)
    ensures Parse(ws) ==
      if |ws| == 0 then Some([]) else
      match ReadHeader(ws[0])
      case None => None
      case Some(h) => if |ws| < 1 + h.count then None
                      else Prepend(MakePacket(h.kind, h.key, ws[1..1 + h.count]), Parse(ws[1 + h.count..]))
  {
    hide ReadHeader, MakePacket;
  }

  // What follows a parsable prefix is parsed from its own first dword.
  lemma {:induction false} ParseConcat(ws: seq<u32>, rest: seq<u32>)
    requires Parse(ws).Some?
    ensures Parse(ws + rest) ==
      match Parse(rest) case None => None case Some(qs) => Some(Parse(ws).value + qs)
  {
    hide Parse, ReadHeader, MakePacket;
    ParseUnfold(ws);
    if |ws| == 0 {
      assert ws + rest == rest;
      assert Parse(rest).Some? ==> [] + Parse(rest).value == Parse(rest).value;
    } else {
      ParseUnfold(ws + rest);
      var h := ReadHeader(ws[0]).value;
      var n := 1 + h.count;
      ParseConcat(ws[n..], rest);
      assert (ws + rest)[1..n] == ws[1..n];
      assert (ws + rest)[n..] == ws[n..] + rest;
      var first := [MakePacket(h.kind, h.key, ws[1..n])];
      assert Parse(rest).Some? ==>
        first + (Parse(ws[n..]).value + Parse(rest).value) == (first + Parse(ws[n..]).value) + Parse(rest).value;
    }
  }
}
