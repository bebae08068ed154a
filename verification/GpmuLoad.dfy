/**
  The command stream that loads the GPMU microcode: the code is cut into type 4
  packets, and running the stream writes it to the instruction RAM.
 */
module GpmuLoad {
  import opened Words
  import opened Pm4
  import opened CommandProcessor
  import opened RingMemory
  import Firmware

  const GPMU_INST_RAM_BASE: u32 := 0x8800
  const TYPE4_MAX_PAYLOAD: nat := 127

  function Protection(on: u32): (ps: seq<Packet>)
    ensures AllEncodable(ps)
  {
    [Type7(CP_SET_PROTECTED_MODE, [on])]
  }

  // The microcode fits the register space behind the RAM's base.
  predicate Loadable(ucode: seq<u32>, max: nat) {
    1 <= max < 0x80 && GPMU_INST_RAM_BASE + |ucode| <= 0x4_0000
  }

  function Chunk(ucode: seq<u32>, offset: nat, max: nat): (p: Packet)
    requires Loadable(ucode, max) && offset < |ucode|
    ensures Encodable(p) && 1 <= |p.payload| && offset + |p.payload| <= |ucode|
  {
    var n := if |ucode| - offset >= max then max else |ucode| - offset;
    Type4(GPMU_INST_RAM_BASE + offset, ucode[offset..offset + n])
  }

  function Chunks(ucode: seq<u32>, offset: nat, max: nat): (ps: seq<Packet>)
    requires Loadable(ucode, max) && offset <= |ucode|
    ensures AllEncodable(ps)
    decreases |ucode| - offset
  {
    if offset == |ucode| then []
    else
      var p := Chunk(ucode, offset, max);
      [p] + Chunks(ucode, offset + |p.payload|, max)
  }

  function LoadPackets(ucode: seq<u32>, max: nat): (ps: seq<Packet>)
    requires Loadable(ucode, max)
    ensures AllEncodable(ps)
  {
    Protection(0) + Chunks(ucode, 0, max) + Protection(1)
  }

  // ------------------------------------------------------------------ size

  function Packets(size: nat, max: nat): nat
    requires max >= 1
  {
    if size == 0 then 0 else if size >= max then 1 + Packets(size - max, max) else 1
  }

  lemma {:induction false} ChunksSize(ucode: seq<u32>, offset: nat, max: nat)
    requires Loadable(ucode, max) && offset <= |ucode|
    ensures Dwords(Chunks(ucode, offset, max)) == |ucode| - offset + Packets(|ucode| - offset, max)
    decreases |ucode| - offset
  {
    if offset < |ucode| {
      var p := Chunk(ucode, offset, max);
      ChunksSize(ucode, offset + |p.payload|, max);
    }
  }

  lemma Quotient(size: nat, max: nat)
    requires size >= max >= 1
    ensures (size - max) / max == size / max - 1 && (size - max) % max == size % max
  {
    Field(size - max, max, size / max - 1, size % max);
  }

  lemma SmallQuotient(size: nat, max: nat)
    requires size < max
    ensures size / max == 0 && size % max == size
  {
    Field(size, max, 0, size);
  }

  function LoadSize(size: nat, max: nat): nat
    requires max >= 1
  {
    size + (size / max + 1) + 4
  }

  /**
    The buffer is large enough for every size and chunk; one dword of it stays unused exactly when the last chunk is
    full.
   */
  lemma LoadFits(ucode: seq<u32>, max: nat)
    requires Loadable(ucode, max)
    ensures var n := Dwords(LoadPackets(ucode, max));
            n == LoadSize(|ucode|, max) - (if |ucode| % max == 0 then 1 else 0)
  {
    hide Dwords;
    ChunksSize(ucode, 0, max);
    PacketsExact(|ucode|, max);
    WhenSize(true, Type7(CP_SET_PROTECTED_MODE, [0]));
    WhenSize(true, Type7(CP_SET_PROTECTED_MODE, [1]));
    DwordsConcat(Protection(0), Chunks(ucode, 0, max));
    DwordsConcat(Protection(0) + Chunks(ucode, 0, max), Protection(1));
  }

  lemma {:induction false} PacketsExact(size: nat, max: nat)
    requires max >= 1
    ensures Packets(size, max) == size / max + (if size % max == 0 then 0 else 1)
  {
    if size >= max {
      PacketsExact(size - max, max);
      Quotient(size, max);
    } else {
      SmallQuotient(size, max);
    }
  }

  // --------------------------------------------------------------- meaning

  // The single register writes of an effect.
  function Writes(e: Effect): seq<(nat, u32)> {
    if e.RegWrite? then Burst(e.reg, e.data) else []
  }

  function Burst(reg: nat, data: seq<u32>): seq<(nat, u32)>
    decreases |data|
  {
    if |data| == 0 then [] else [(reg, data[0])] + Burst(reg + 1, data[1..])
  }

  function AllWrites(events: seq<Event>): seq<(nat, u32)> {
    if |events| == 0 then [] else Writes(events[0].effect) + AllWrites(events[1..])
  }

  lemma {:induction false} BurstConcat(reg: nat, xs: seq<u32>, ys: seq<u32>)
    ensures Burst(reg, xs + ys) == Burst(reg, xs) + Burst(reg + |xs|, ys)
    decreases |xs|
  {
    if |xs| == 0 {
      assert xs + ys == ys;
    } else {
      BurstConcat(reg + 1, xs[1..], ys);
      assert (xs + ys)[1..] == xs[1..] + ys;
    }
  }

  lemma {:induction false} BurstAt(reg: nat, data: seq<u32>)
    ensures |Burst(reg, data)| == |data|
    ensures forall k | 0 <= k < |data| :: Burst(reg, data)[k] == (reg + k, data[k])
    decreases |data|
  {
    if |data| != 0 {
      BurstAt(reg + 1, data[1..]);
    }
  }

  const Off := Mode(false, false)

  lemma {:induction false} ChunksRun(ucode: seq<u32>, offset: nat, max: nat)
    requires Loadable(ucode, max) && offset <= |ucode|
    ensures var ps := Chunks(ucode, offset, max);
            && AllWrites(Run(ps, Off)) == Burst(GPMU_INST_RAM_BASE + offset, ucode[offset..])
            && EndMode(ps, Off) == Off
            && forall e <- Run(ps, Off) :: e.mode == Off && e.effect.RegWrite?
    decreases |ucode| - offset
  {
    if offset == |ucode| {
      assert ucode[offset..] == [];
    } else {
      var p := Chunk(ucode, offset, max);
      var next := offset + |p.payload|;
      assert Chunks(ucode, offset, max) == [p] + Chunks(ucode, next, max);
      ChunksRun(ucode, next, max);
      assert ucode[offset..] == p.payload + ucode[next..];
      BurstConcat(GPMU_INST_RAM_BASE + offset, p.payload, ucode[next..]);
      var rest := Chunks(ucode, next, max);
      hide Run, EndMode, AllWrites, Burst, Chunks;
      FirstWrite(p.reg, p.payload, rest);
      assert Run([p] + rest, Off) == [Event(Off, RegWrite(p.reg, p.payload))] + Run(rest, Off);
    }
  }

  lemma FirstWrite(reg: u32, payload: seq<u32>, rest: seq<Packet>)
    ensures var ps, e := [Type4(reg, payload)] + rest, Event(Off, RegWrite(reg, payload));
            && Run(ps, Off) == [e] + Run(rest, Off) && EndMode(ps, Off) == EndMode(rest, Off)
            && AllWrites([e] + Run(rest, Off)) == Burst(reg, payload) + AllWrites(Run(rest, Off))
  {
    assert ([Type4(reg, payload)] + rest)[1..] == rest;
    var e := Event(Off, RegWrite(reg, payload));
    assert ([e] + Run(rest, Off))[1..] == Run(rest, Off);
  }

  /**
    Loading the microcode is a faithful compilation: decoded and run, the stream writes word k of the
    code to word k of the instruction RAM, in order, once each and nothing else; protection is off for
    the writes and on again behind them.
   */
  lemma LoadMeaning(ucode: seq<u32>, max: nat)
    requires Loadable(ucode, max)
    ensures var parsed := Parse(Encode(LoadPackets(ucode, max)));
            && parsed == Some(LoadPackets(ucode, max))
            && var events, writes := Run(parsed.value, HomeMode), AllWrites(Run(parsed.value, HomeMode));
               && |writes| == |ucode|
               && (forall k | 0 <= k < |ucode| :: writes[k] == (0x8800 + k, ucode[k]))
               && (forall e <- events :: e.mode == Off && e.effect.RegWrite?)
               && EndMode(parsed.value, HomeMode) == HomeMode
  {
    hide Run, EndMode, Parse, Encode, Chunks;
    var ps := Chunks(ucode, 0, max);
    ParseEncode(LoadPackets(ucode, max));
    RunSingle(Type7(CP_SET_PROTECTED_MODE, [0]), HomeMode, Protect(false));
    ChunksRun(ucode, 0, max);
    RunSingle(Type7(CP_SET_PROTECTED_MODE, [1]), Off, Protect(true));
    RunAround(Protection(0), ps, Protection(1), HomeMode);
    assert [] + Run(ps, Off) + [] == Run(ps, Off);
    assert ucode[0..] == ucode;
    BurstAt(GPMU_INST_RAM_BASE, ucode);
  }

  // The code of an accepted file.
  function Ucode(data: seq<u32>, major: u32): seq<u32>
    requires 1 <= |data| < TWO_32 && Firmware.LoadMicrocode(data, major).Code?
  {
    Firmware.MicrocodeExact(data, major);
    var s := Firmware.LoadMicrocode(data, major).slice;
    data[s.start..s.start + s.count]
  }

  /**
    From the file to the RAM: at the driver's packet size, running the stream built from an accepted file writes
    the words of the file's block behind its header, all of them, to the words of the instruction RAM.
   */
  lemma FirmwareReachesRam(data: seq<u32>, major: u32)
    requires 1 <= |data| < TWO_32 && Firmware.LoadMicrocode(data, major).Code?
    ensures Loadable(Ucode(data, major), 127)
    ensures var parsed := Parse(Encode(LoadPackets(Ucode(data, major), 127)));
            && parsed.Some?
            && var writes, first := AllWrites(Run(parsed.value, HomeMode)), data[2] + 3;
               && |writes| == data[0] + 1 - first <= 4095
               && forall k | 0 <= k < |writes| :: writes[k] == (0x8800 + k, data[first + k])
  {
    hide Parse, Encode, LoadPackets, Run, AllWrites, Firmware.LoadMicrocode;
    Firmware.MicrocodeExact(data, major);
    LoadMeaning(Ucode(data, major), TYPE4_MAX_PAYLOAD);
  }

  // -------------------------------------------------------------- the loop

  // One packet a turn: cmds, offset and size move together.
  method PutChunks(buf: array<u32>, at: nat, ghost done: seq<Packet>, ucode: seq<u32>, max: nat) returns (next: nat)
    requires Loadable(ucode, max) && at + Dwords(Chunks(ucode, 0, max)) <= buf.Length
    requires AllEncodable(done) && buf[0..at] == Encode(done)
    modifies buf
    ensures next == at + Dwords(Chunks(ucode, 0, max))
    ensures AllEncodable(done + Chunks(ucode, 0, max)) && buf[0..next] == Encode(done + Chunks(ucode, 0, max))
  {
    hide Encode, Dwords, Header, Encodable, Loadable, Chunk;
    ghost var all := Chunks(ucode, 0, max);
    ghost var put: seq<Packet> := [];
    assert done + put == done && put + all == all;
    next := at;
    var offset: nat, size: nat := 0, |ucode|;
    while size > 0
      invariant offset + size == |ucode| && AllEncodable(done + put)
      invariant put + Chunks(ucode, offset, max) == all
      invariant next + Dwords(Chunks(ucode, offset, max)) == at + Dwords(all)
      invariant next <= buf.Length && buf[0..next] == Encode(done + put)
    {
      var p := Chunk(ucode, offset, max);
      ghost var rest := Chunks(ucode, offset + |p.payload|, max);
      DwordsFirst(p, rest);
      next := PutPacket(buf, 0, next, done + put, p);
      assert done + put + [p] == done + (put + [p]) && put + ([p] + rest) == (put + [p]) + rest;
      put := put + [p];
      offset, size := offset + |p.payload|, size - |p.payload|;
    }
    assert put + [] == put;
    NoDwords();
  }

  lemma DwordsFirst(p: Packet, rest: seq<Packet>)
    ensures Dwords([p] + rest) == 1 + |p.payload| + Dwords(rest)
  {
    assert ([p] + rest)[1..] == rest;
  }

  lemma NoDwords()
    ensures Dwords([]) == 0
  {
  }

  class GpmuCommands {
    var cmds: array?<u32>
    var size: nat

    ghost predicate Valid()
      reads this
    {
      (cmds == null <==> size == 0) && (cmds != null ==> size <= cmds.Length)
    }

    constructor ()
      ensures Valid() && cmds == null
    {
      cmds, size := null, 0;
    }

    /** _gpmu_create_load_cmds(): a second call leaves the first stream in place. */
    method CreateLoadCmds(ucode: seq<u32>, max: nat)
      requires Loadable(ucode, max)
      modifies this
      ensures old(cmds) != null ==> cmds == old(cmds) && size == old(size)
      ensures old(cmds) == null ==>
        && cmds != null && fresh(cmds) && cmds.Length == LoadSize(|ucode|, max)
        && 0 < size <= cmds.Length && cmds[..size] == Encode(LoadPackets(ucode, max))
    {
      hide Encode, Dwords, Header, Chunks, Protection;
      if cmds != null {
        return;
      }
      var buf := new u32[LoadSize(|ucode|, max)];
      ghost var off, chunks, on := Protection(0), Chunks(ucode, 0, max), Protection(1);
      LoadFits(ucode, max);
      DwordsConcat(off, chunks);
      DwordsConcat(off + chunks, on);
      NothingEncoded(buf, 0);
      var at := PutPackets(buf, 0, 0, [], Protection(0));
      assert [] + off == off;
      at := PutChunks(buf, at, off, ucode, max);
      at := PutPackets(buf, 0, at, off + chunks, Protection(1));
      assert buf[..at] == buf[0..at];
      cmds, size := buf, at;
    }

    /** _load_gpmu_firmware(): what the file is refused for shows in the status only if its header is bad. */
    method LoadFirmware(data: seq<u32>, major: u32) returns (status: int)
      requires Valid() && 1 <= |data| < TWO_32
      modifies this
      ensures Valid()
      ensures status == if old(cmds) != null then 0 else Firmware.LoadStatus(Firmware.LoadMicrocode(data, major))
      ensures old(cmds) != null || !Firmware.LoadMicrocode(data, major).Code? ==> cmds == old(cmds) && size == old(size)
      ensures old(cmds) == null && Firmware.LoadMicrocode(data, major).Code? ==>
        && Loadable(Ucode(data, major), 127) && cmds != null && fresh(cmds)
        && cmds[..size] == Encode(LoadPackets(Ucode(data, major), 127))
    {
      hide Encode, LoadPackets, Firmware.LoadMicrocode;
      if size != 0 {
        return 0;
      }
      var microcode := Firmware.LoadGpmuFirmware(data, major);
      match microcode
      case Code(slice) =>
        Firmware.MicrocodeExact(data, major);
        CreateLoadCmds(data[slice.start..slice.start + slice.count], TYPE4_MAX_PAYLOAD);
        status := 0;
      case _ =>
        status := Firmware.LoadStatus(microcode);
    }
  }
}
