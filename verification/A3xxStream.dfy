/**
  The A3xx streams: type 3 packets, 32-bit addresses, one ring and no preemption.
 */
module A3xxStream {
  import opened Words
  import opened Pm4
  import opened CommandProcessor
  import opened Adreno
  import opened RingMemory

  const PWRON_FIXUP_IDENTIFIER: u32 := 0x2AFAFAFA
  const HLSQ_FLUSH: u32 := 7
  const KERNEL_GROUP_X: u32 := 0x2215 - 0x2000 + 0x4_0000
  const UCHE_CACHE_INVALIDATE0_REG: u32 := 0xEA0
  const WFI_PEND_CTR: u32 := 0x1F5
  const HALT_CTRL0: u32 := 0x3800
  const HALT_CTRL1: u32 := 0x3801
  const NOT_HALT_BIT: u32 := 0xFFFF_FFFE
  const ALL_BITS: u32 := 0xFFFF_FFFF

  // SMMU context registers, as dword offsets from the GPU.
  const SMMU_TTBR0: u32 := (0xA000 + 0x20) / 4
  const SMMU_TLBIALL: u32 := (0xA000 + 0x618) / 4
  const SMMU_TLBSYNC: u32 := (0xA000 + 0x7F0) / 4
  const SMMU_TLBSTATUS: u32 := (0xA000 + 0x7F4) / 4

  const A3XX_SUBMIT_MAX: nat := 55
  const A3XX_COMMAND_DWORDS: nat := 4

  predicate IsPwronFixup(flags: u32) { (flags / 4) % 2 == 1 }

  /** Everything that shapes one submission besides its payload. */
  datatype Job3 = Job3(gpu: Gpu, rb: Ring, ctx: Option<Context>, flags: u32, timestamp: u32, ringTimestamp: u32,
                       pre: ProfileIb, post: ProfileIb, fixup: ProfileIb)

  function Op3(op: u32, payload: seq<u32>): Packet {
    Type3(op, payload)
  }

  function Ib3(addr: u64, dwords: u32): Packet {
    Op3(CP_INDIRECT_BUFFER_PFE, [Lo(addr), dwords])
  }

  function MemWrite3(addr: u64, value: u32): Packet {
    Op3(CP_MEM_WRITE, [Lo(addr), value])
  }

  function EventWrite3(event: u32, addr: u64, value: u32): Packet {
    Op3(CP_EVENT_WRITE, [event, Lo(addr), value])
  }

  // The power-on fixup: protection is switched off in front of it, and off again behind it.
  function Fixup(j: Job3): (ps: seq<Packet>)
    ensures AllEncodable(ps)
  {
    When(IsPwronFixup(j.flags), [
      Op3(CP_SET_PROTECTED_MODE, [0]),
      Op3(CP_NOP, [PWRON_FIXUP_IDENTIFIER]),
      Ib3(j.fixup.addr, j.fixup.dwords),
      Op3(CP_SET_PROTECTED_MODE, [0])])
  }

  function Started(j: Job3): (ps: seq<Packet>)
    ensures AllEncodable(ps)
  {
    When(j.pre.addr != 0, [Ib3(j.pre.addr, j.pre.dwords)])
    + (if j.ctx.Some? then [MemWrite3(MemstoreAddr(j.gpu, j.ctx.value.id, SOPTIMESTAMP), j.timestamp)] else [])
    + [MemWrite3(RingMemstoreAddr(j.gpu, j.rb, SOPTIMESTAMP), j.ringTimestamp)]
  }

  function Head3(j: Job3): (ps: seq<Packet>)
    ensures AllEncodable(ps)
  {
    [Op3(CP_NOP, [if j.ctx.Some? then CMD_IDENTIFIER else CMD_INTERNAL_IDENTIFIER])]
    + Fixup(j)
    + Started(j)
    + When(IsNotProtected(j.flags), [Op3(CP_SET_PROTECTED_MODE, [0])])
  }

  function EndOfPipe3(j: Job3): (ps: seq<Packet>)
    ensures AllEncodable(ps)
  {
    match j.ctx
    case None => [EventWrite3(CACHE_FLUSH_TS + EVENT_INTERRUPT, RingMemstoreAddr(j.gpu, j.rb, EOPTIMESTAMP),
        j.ringTimestamp)]
    case Some(c) =>
      [EventWrite3(CACHE_FLUSH_TS + EVENT_INTERRUPT, MemstoreAddr(j.gpu, c.id, EOPTIMESTAMP), j.timestamp),
       EventWrite3(CACHE_FLUSH_TS, RingMemstoreAddr(j.gpu, j.rb, EOPTIMESTAMP), j.ringTimestamp)]
  }

  function Retirement3(j: Job3): (ps: seq<Packet>)
    ensures AllEncodable(ps)
  {
    [Op3(CP_EVENT_WRITE, [HLSQ_FLUSH]), Op3(CP_WAIT_FOR_IDLE, [0])]
    + When(j.post.addr != 0, [Ib3(j.post.addr, j.post.dwords)])
    + EndOfPipe3(j)
    + [Op3(CP_SET_CONSTANT, [KERNEL_GROUP_X, 0])]
    + When(IsWfi(j.flags), [Op3(CP_WAIT_FOR_IDLE, [0])])
  }

  function Tail3(j: Job3): (ps: seq<Packet>)
    ensures AllEncodable(ps)
  {
    When(IsNotProtected(j.flags), [Op3(CP_SET_PROTECTED_MODE, [1])]) + Retirement3(j)
  }

  // -------------------------------------------------------- what they do

  function StartedEffects(j: Job3): seq<Effect> {
    Maybe(j.pre.addr != 0, [RunIb(Lo(j.pre.addr), j.pre.dwords)])
    + (if j.ctx.Some? then [MemWrite(Lo(MemstoreAddr(j.gpu, j.ctx.value.id, SOPTIMESTAMP)), [j.timestamp])] else [])
    + [MemWrite(Lo(RingMemstoreAddr(j.gpu, j.rb, SOPTIMESTAMP)), [j.ringTimestamp])]
  }

  function EndOfPipeEffects3(j: Job3): seq<Effect> {
    match j.ctx
    case None => [EventWrite(CACHE_FLUSH_TS + EVENT_INTERRUPT, Lo(RingMemstoreAddr(j.gpu, j.rb, EOPTIMESTAMP)),
        j.ringTimestamp)]
    case Some(c) =>
      [EventWrite(CACHE_FLUSH_TS + EVENT_INTERRUPT, Lo(MemstoreAddr(j.gpu, c.id, EOPTIMESTAMP)), j.timestamp),
       EventWrite(CACHE_FLUSH_TS, Lo(RingMemstoreAddr(j.gpu, j.rb, EOPTIMESTAMP)), j.ringTimestamp)]
  }

  function Retire3(j: Job3): seq<Effect> {
    [Other(CP_EVENT_WRITE, [HLSQ_FLUSH]), Other(CP_WAIT_FOR_IDLE, [0])]
    + Maybe(j.post.addr != 0, [RunIb(Lo(j.post.addr), j.post.dwords)])
    + EndOfPipeEffects3(j)
    + [Other(CP_SET_CONSTANT, [KERNEL_GROUP_X, 0])]
    + Maybe(IsWfi(j.flags), [Other(CP_WAIT_FOR_IDLE, [0])])
  }

  function Unprotected(m: Mode): Mode {
    m.(protected := false)
  }

  // The mode once the fixup, if any, has run: protection stays off.
  function AfterFixup(flags: u32): Mode {
    Mode(!IsPwronFixup(flags), false)
  }

  function FixupEvents(j: Job3): seq<Event> {
    if IsPwronFixup(j.flags) then [Event(Unprotected(HomeMode), RunIb(Lo(j.fixup.addr), j.fixup.dwords))] else []
  }

  lemma FixupRuns(j: Job3)
    ensures Run(Fixup(j), HomeMode) == FixupEvents(j)
    ensures EndMode(Fixup(j), HomeMode) == AfterFixup(j.flags)
  {
    hide Run, EndMode, IsPwronFixup;
    var ps, off := Fixup(j), Unprotected(HomeMode);
    RunEmpty(HomeMode);
    if IsPwronFixup(j.flags) {
      RunFrom(ps, 0, HomeMode, Protect(false));
      RunFrom(ps, 1, off, Quiet);
      RunFrom(ps, 2, off, RunIb(Lo(j.fixup.addr), j.fixup.dwords));
      RunFrom(ps, 3, off, Protect(false));
      RunNone(ps, off);
    }
  }

  lemma StartedShows(j: Job3, m: Mode)
    ensures Shows(Started(j), StartedEffects(j), m)
  {
    hide Run, EndMode, MemstoreAddr, RingMemstoreAddr, Shows;
    var a, a' := When(j.pre.addr != 0, [Ib3(j.pre.addr, j.pre.dwords)]),
        Maybe(j.pre.addr != 0, [RunIb(Lo(j.pre.addr), j.pre.dwords)]);
    var b := if j.ctx.Some? then [MemWrite3(MemstoreAddr(j.gpu, j.ctx.value.id, SOPTIMESTAMP), j.timestamp)] else [];
    var b' := if j.ctx.Some? then [MemWrite(Lo(MemstoreAddr(j.gpu, j.ctx.value.id, SOPTIMESTAMP)), [j.timestamp])]
        else [];
    var c := [MemWrite3(RingMemstoreAddr(j.gpu, j.rb, SOPTIMESTAMP), j.ringTimestamp)];
    var c' := [MemWrite(Lo(RingMemstoreAddr(j.gpu, j.rb, SOPTIMESTAMP)), [j.ringTimestamp])];
    ListShows(a, a', m);
    ListShows(b, b', m);
    ListShows(c, c', m);
    RunsThen(a, a', b, b', m);
    RunsThen(a + b, a' + b', c, c', m);
  }

  lemma RetirementShows3(j: Job3, m: Mode)
    ensures Shows(Retirement3(j), Retire3(j), m)
  {
    hide Run, EndMode, MemstoreAddr, RingMemstoreAddr, Shows, IsWfi;
    var a, a' := [Op3(CP_EVENT_WRITE, [HLSQ_FLUSH]), Op3(CP_WAIT_FOR_IDLE, [0])],
                 [Other(CP_EVENT_WRITE, [HLSQ_FLUSH]), Other(CP_WAIT_FOR_IDLE, [0])];
    var b, b' := When(j.post.addr != 0, [Ib3(j.post.addr, j.post.dwords)]),
                 Maybe(j.post.addr != 0, [RunIb(Lo(j.post.addr), j.post.dwords)]);
    var c, c' := EndOfPipe3(j), EndOfPipeEffects3(j);
    var d, d' := [Op3(CP_SET_CONSTANT, [KERNEL_GROUP_X, 0])], [Other(CP_SET_CONSTANT, [KERNEL_GROUP_X, 0])];
    var e, e' := When(IsWfi(j.flags), [Op3(CP_WAIT_FOR_IDLE, [0])]),
        Maybe(IsWfi(j.flags), [Other(CP_WAIT_FOR_IDLE, [0])]);
    ListShows(a, a', m);
    ListShows(b, b', m);
    ListShows(c, c', m);
    ListShows(d, d', m);
    ListShows(e, e', m);
    hide EndOfPipe3, EndOfPipeEffects3;
    RunsThen(a, a', b, b', m);
    RunsThen(a + b, a' + b', c, c', m);
    RunsThen(a + b + c, a' + b' + c', d, d', m);
    RunsThen(a + b + c + d, a' + b' + c' + d', e, e', m);
  }

  function PayloadMode(flags: u32): Mode {
    Mode(!IsNotProtected(flags) && !IsPwronFixup(flags), false)
  }

  lemma HeadRuns3(j: Job3)
    ensures Run(Head3(j), HomeMode) == FixupEvents(j) + Stamp(AfterFixup(j.flags), StartedEffects(j))
    ensures EndMode(Head3(j), HomeMode) == PayloadMode(j.flags)
  {
    hide Run, EndMode, Fixup, Started, FixupEvents, StartedEffects, IsPwronFixup, IsNotProtected;
    var a := [Op3(CP_NOP, [if j.ctx.Some? then CMD_IDENTIFIER else CMD_INTERNAL_IDENTIFIER])];
    var off := Op3(CP_SET_PROTECTED_MODE, [0]);
    RunSingle(a[0], HomeMode, Quiet);
    FixupRuns(j);
    StartedShows(j, AfterFixup(j.flags));
    WhenRuns(IsNotProtected(j.flags), off, AfterFixup(j.flags), Protect(false));
    hide EffectOf;
    RunConcat(a, Fixup(j), HomeMode);
    RunConcat(a + Fixup(j), Started(j), HomeMode);
    RunConcat(a + Fixup(j) + Started(j), When(IsNotProtected(j.flags), [off]), HomeMode);
  }

  /** The dwords a3xx_ringbuffer_addcmds() leaves in the ring around `input`. */
  function Submission3(j: Job3, input: seq<u32>): seq<u32> {
    Encode(Head3(j)) + input + Encode(Tail3(j))
  }

  function AfterPayload3(flags: u32, m: Mode): Mode {
    m.(protected := IsNotProtected(flags) || m.protected)
  }

  lemma TailRuns3(j: Job3, m: Mode)
    ensures Run(Tail3(j), m) == Stamp(AfterPayload3(j.flags, m), Retire3(j))
    ensures EndMode(Tail3(j), m) == AfterPayload3(j.flags, m)
  {
    hide Run, EndMode, Retirement3, Retire3, IsNotProtected;
    var on := Op3(CP_SET_PROTECTED_MODE, [1]);
    WhenRuns(IsNotProtected(j.flags), on, m, Protect(true));
    RetirementShows3(j, AfterPayload3(j.flags, m));
    RunConcat(When(IsNotProtected(j.flags), [on]), Retirement3(j), m);
  }

  /**
    Protection is off for the payload under F_NOTPROTECTED, but also after a
    power-on fixup; the ring is left protected exactly when F_NOTPROTECTED was
    given or no fixup ran.
   */
  lemma SubmissionMeaning3(j: Job3, input: seq<u32>)
    requires Parse(input).Some?
    ensures var parsed, payload := Parse(Submission3(j, input)), Parse(input).value;
            var start := PayloadMode(j.flags);
            var end := EndMode(payload, start);
            && parsed.Some?
            && Run(parsed.value, HomeMode) ==
                 (FixupEvents(j) + Stamp(AfterFixup(j.flags), StartedEffects(j))) + Run(payload, start)
                 + Stamp(AfterPayload3(j.flags, end), Retire3(j))
            && EndMode(parsed.value, HomeMode) == AfterPayload3(j.flags, end)
            && (end == start ==>
                  (EndMode(parsed.value, HomeMode) == HomeMode <==> IsNotProtected(j.flags) || !IsPwronFixup(j.flags)))
  {
    hide Run, EndMode, Parse, Encode, Head3, Tail3, FixupEvents, StartedEffects, Retire3, IsPwronFixup, IsNotProtected;
    var payload := Parse(input).value;
    ParseAround(Head3(j), input, Tail3(j));
    HeadRuns3(j);
    TailRuns3(j, EndMode(payload, PayloadMode(j.flags)));
    RunAround(Head3(j), payload, Tail3(j), HomeMode);
  }

  // -------------------------------------------------------------- sizes

  lemma HeadSize3(j: Job3)
    ensures Dwords(Head3(j)) <= 22
  {
    hide MemstoreAddr, RingMemstoreAddr, Dwords, Fixup, Started;
    var a := [Op3(CP_NOP, [if j.ctx.Some? then CMD_IDENTIFIER else CMD_INTERNAL_IDENTIFIER])];
    var off := Op3(CP_SET_PROTECTED_MODE, [0]);
    WhenSize(true, a[0]);
    FixupSize(j);
    StartedSize(j);
    WhenSize(IsNotProtected(j.flags), off);
    DwordsConcat(a, Fixup(j));
    DwordsConcat(a + Fixup(j), Started(j));
    DwordsConcat(a + Fixup(j) + Started(j), When(IsNotProtected(j.flags), [off]));
  }

  lemma FixupSize(j: Job3)
    ensures Dwords(Fixup(j)) <= 9
  {
    hide Lo, Hi, Encodable, AllEncodable;
    if IsPwronFixup(j.flags) {
      assert Sum([2, 2, 3, 2]) == 9;
      hide Dwords, Sum;
      ListSize(Fixup(j), [2, 2, 3, 2]);
    }
  }

  lemma StartedSize(j: Job3)
    ensures Dwords(Started(j)) <= 9
  {
    hide MemstoreAddr, RingMemstoreAddr, Dwords;
    var a := When(j.pre.addr != 0, [Ib3(j.pre.addr, j.pre.dwords)]);
    var b := if j.ctx.Some? then [MemWrite3(MemstoreAddr(j.gpu, j.ctx.value.id, SOPTIMESTAMP), j.timestamp)] else [];
    var c := [MemWrite3(RingMemstoreAddr(j.gpu, j.rb, SOPTIMESTAMP), j.ringTimestamp)];
    WhenSize(j.pre.addr != 0, Ib3(j.pre.addr, j.pre.dwords));
    if j.ctx.Some? {
      WhenSize(true, b[0]);
    }
    WhenSize(true, c[0]);
    DwordsConcat(a, b);
    DwordsConcat(a + b, c);
  }

  lemma EndOfPipeSize3(j: Job3)
    ensures Dwords(EndOfPipe3(j)) <= 8
  {
    hide MemstoreAddr, RingMemstoreAddr, Dwords;
    var ps := EndOfPipe3(j);
    WhenSize(true, ps[0]);
    if |ps| == 2 {
      WhenSize(true, ps[1]);
      DwordsConcat([ps[0]], [ps[1]]);
      assert ps == [ps[0]] + [ps[1]];
    }
  }

  lemma TailSize3(j: Job3)
    ensures Dwords(Tail3(j)) <= 22
  {
    hide Dwords, EndOfPipe3;
    var on, wait := Op3(CP_SET_PROTECTED_MODE, [1]), Op3(CP_WAIT_FOR_IDLE, [0]);
    var flush, rollover := Op3(CP_EVENT_WRITE, [HLSQ_FLUSH]), Op3(CP_SET_CONSTANT, [KERNEL_GROUP_X, 0]);
    var a, b, c := [flush, wait], When(j.post.addr != 0, [Ib3(j.post.addr, j.post.dwords)]), EndOfPipe3(j);
    WhenSize(IsNotProtected(j.flags), on);
    WhenSize(true, flush);
    WhenSize(IsWfi(j.flags), wait);
    WhenSize(true, wait);
    DwordsConcat([flush], [wait]);
    assert a == [flush] + [wait];
    WhenSize(j.post.addr != 0, Ib3(j.post.addr, j.post.dwords));
    EndOfPipeSize3(j);
    WhenSize(true, rollover);
    hide When;
    DwordsConcat(a, b);
    DwordsConcat(a + b, c);
    DwordsConcat(a + b + c, [rollover]);
    DwordsConcat(a + b + c + [rollover], When(IsWfi(j.flags), [wait]));
    DwordsConcat(When(IsNotProtected(j.flags), [on]), Retirement3(j));
  }

  /** The space addcmds() asks for is enough, whatever the flags. */
  lemma SubmissionFits3(j: Job3, input: seq<u32>)
    ensures |Submission3(j, input)| <= A3XX_SUBMIT_MAX + |input|
  {
    hide Head3, Tail3, Encode, Dwords;
    EncodedLength(Head3(j));
    EncodedLength(Tail3(j));
    HeadSize3(j);
    TailSize3(j);
  }

  // ------------------------------------------------------- a command object

  // Without the mask of the A5xx code.
  function IbDwordCount3(ib: IbNode): u32 {
    (ib.size / 4) % TWO_32
  }

  function NopHeader3(count: u32): u32
    requires 1 <= count <= 0x4000
  {
    Header(Op3(CP_NOP, seq(count, i => 0)))
  }

  function IbWords3(ib: IbNode, flags: u32): seq<u32> {
    (if IsSkipped(ib, flags) then [NopHeader3(3)] else []) + EncodePacket(Ib3(ib.addr, IbDwordCount3(ib)))
  }

  function IbDwords3(ibs: seq<IbNode>, flags: u32): seq<u32> {
    if |ibs| == 0 then [] else IbWords3(ibs[0], flags) + IbDwords3(ibs[1..], flags)
  }

  // The IBs that are not skipped, in order, with the part of their address that is sent.
  function KeptIbs3(ibs: seq<IbNode>, flags: u32): seq<Effect> {
    if |ibs| == 0 then []
    else
      (if IsSkipped(ibs[0], flags) then [] else [RunIb(Lo(ibs[0].addr), IbDwordCount3(ibs[0]))])
      + KeptIbs3(ibs[1..], flags)
  }

  function IbAsPacket3(ib: IbNode, flags: u32): Packet {
    var p := Ib3(ib.addr, IbDwordCount3(ib));
    if IsSkipped(ib, flags) then Op3(CP_NOP, EncodePacket(p)) else p
  }

  lemma SkipSwallowsIb3(ib: IbNode, flags: u32)
    ensures Encodable(IbAsPacket3(ib, flags))
    ensures EncodePacket(IbAsPacket3(ib, flags)) == IbWords3(ib, flags)
  {
    hide IsSkipped;
  }

  lemma IbShows3(ib: IbNode, flags: u32, m: Mode)
    ensures Shows([IbAsPacket3(ib, flags)], if IsSkipped(ib, flags) then []
        else [RunIb(Lo(ib.addr), IbDwordCount3(ib))], m)
  {
    hide Run, EndMode, IsSkipped, Header;
    if IsSkipped(ib, flags) {
      RunSingle(Op3(CP_NOP, EncodePacket(Ib3(ib.addr, IbDwordCount3(ib)))), m, Quiet);
    } else {
      RunSingle(Ib3(ib.addr, IbDwordCount3(ib)), m, RunIb(Lo(ib.addr), IbDwordCount3(ib)));
    }
  }

  /** Exactly the IBs that are not skipped run, in list order: the three-dword NOP swallows the packet behind it. */
  lemma {:induction false} IbListMeaning3(ibs: seq<IbNode>, flags: u32, m: Mode)
    ensures var parsed := Parse(IbDwords3(ibs, flags));
            && parsed.Some? && |parsed.value| == |ibs|
            && Shows(parsed.value, KeptIbs3(ibs, flags), m)
  {
    hide Parse, Run, EndMode, EncodePacket, IsSkipped, NopHeader3, Ib3, IbDwordCount3;
    if |ibs| == 0 {
      ParseUnfold([]);
      RunEmpty(m);
    } else {
      var p, rest := IbAsPacket3(ibs[0], flags), IbDwords3(ibs[1..], flags);
      IbListMeaning3(ibs[1..], flags, m);
      SkipSwallowsIb3(ibs[0], flags);
      IbShows3(ibs[0], flags, m);
      ParseFirst(p, rest);
      RunsThen([p], if IsSkipped(ibs[0], flags) then [] else [RunIb(Lo(ibs[0].addr), IbDwordCount3(ibs[0]))],
               Parse(rest).value, KeptIbs3(ibs[1..], flags), m);
    }
  }

  lemma {:induction false} IbDwordsSize3(ibs: seq<IbNode>, flags: u32)
    ensures |IbDwords3(ibs, flags)| <= 4 * |ibs|
  {
    hide IsSkipped, NopHeader3, Header;
    if |ibs| != 0 {
      IbDwordsSize3(ibs[1..], flags);
    }
  }

  function Mark(identifier: u32): (ps: seq<Packet>)
    ensures AllEncodable(ps)
  {
    [Op3(CP_NOP, [identifier])]
  }

  /** The command buffer a3xx_ringbuffer_submitcmd() builds for one command object. */
  function Command3(ibs: seq<IbNode>, flags: u32): seq<u32> {
    Encode(Mark(START_IB_IDENTIFIER)) + IbDwords3(ListedIbs(ibs, flags), flags) + Encode(Mark(END_IB_IDENTIFIER))
  }

  lemma MarkShows(identifier: u32, m: Mode)
    ensures Shows(Mark(identifier), [], m)
  {
    hide Run, EndMode;
    RunSingle(Op3(CP_NOP, [identifier]), m, Quiet);
  }

  /** For every IB list and every flag word, the command buffer runs exactly the IBs it should. */
  lemma CommandMeaning3(ibs: seq<IbNode>, flags: u32, m: Mode)
    ensures var parsed := Parse(Command3(ibs, flags));
            parsed.Some? && Shows(parsed.value, KeptIbs3(ListedIbs(ibs, flags), flags), m)
  {
    hide Parse, Run, EndMode, Encode, Mark, IbDwords3, KeptIbs3;
    var a, c, list := Mark(START_IB_IDENTIFIER), Mark(END_IB_IDENTIFIER), ListedIbs(ibs, flags);
    IbListMeaning3(list, flags, m);
    var b, kept := Parse(IbDwords3(list, flags)).value, KeptIbs3(list, flags);
    ParseAround(a, IbDwords3(list, flags), c);
    MarkShows(START_IB_IDENTIFIER, m);
    MarkShows(END_IB_IDENTIFIER, m);
    RunsThen(a, [], b, kept, m);
    RunsThen(a + b, [] + kept, c, [], m);
    assert [] + kept + [] == kept;
  }

  lemma MarkSize(identifier: u32)
    ensures Dwords(Mark(identifier)) == 2
  {
    WhenSize(true, Op3(CP_NOP, [identifier]));
  }

  /** The kmalloc() in submitcmd() is large enough. */
  lemma CommandFits3(ibs: seq<IbNode>, flags: u32)
    ensures |Command3(ibs, flags)| <= A3XX_COMMAND_DWORDS + 4 * |ListedIbs(ibs, flags)|
  {
    hide Dwords, Encode, IbDwords3, Mark, ListedIbs;
    IbDwordsSize3(ListedIbs(ibs, flags), flags);
    MarkSize(START_IB_IDENTIFIER);
    MarkSize(END_IB_IDENTIFIER);
    EncodedLength(Mark(START_IB_IDENTIFIER));
    EncodedLength(Mark(END_IB_IDENTIFIER));
  }

  // ------------------------------------------------------- a context switch

  function WaitReg(reg: u32, value: u32, mask: u32): Packet {
    Op3(CP_WAIT_REG_EQ, [reg, value, mask, 0xF])
  }

  function SmmuWrite(reg: u32, values: seq<u32>): Packet {
    Op3(CP_REG_WR_NO_CTXT, [reg] + values)
  }

  // Drain the pipe and halt the bus; `setstate` is an IB of NOPs.
  function HaltBus(setstate: u64): (ps: seq<Packet>)
    ensures AllEncodable(ps)
  {
    [Op3(CP_WAIT_FOR_ME, [0]), Ib3(setstate, 2), Op3(CP_WAIT_FOR_IDLE, [0]), Op3(CP_WAIT_FOR_ME, [0]),
     WaitReg(WFI_PEND_CTR, 1, ALL_BITS),
     Op3(CP_REG_RMW, [HALT_CTRL0, NOT_HALT_BIT, 1]),
     WaitReg(HALT_CTRL1, 1, ALL_BITS)]
  }

  // Load the pagetable and let the bus go on.
  function LoadTable(ttbr0: u64): (ps: seq<Packet>)
    ensures AllEncodable(ps)
  {
    [SmmuWrite(SMMU_TTBR0, [Lo(ttbr0), Hi(ttbr0)]),
     Op3(CP_REG_RMW, [HALT_CTRL0, NOT_HALT_BIT, 0]),
     Op3(CP_WAIT_FOR_ME, [0])]
  }

  // Invalidate what was cached under the old pagetable.
  function FlushTlb(): (ps: seq<Packet>)
    ensures AllEncodable(ps)
  {
    [SmmuWrite(SMMU_TLBIALL, [1]), SmmuWrite(SMMU_TLBSYNC, [0]), WaitReg(SMMU_TLBSTATUS, 0, 1),
     Op3(CP_WAIT_FOR_ME, [0]), Op3(CP_WAIT_FOR_IDLE, [0]), Op3(CP_INVALIDATE_STATE, [0x7_FFFF])]
  }

  // a3xx_rb_pagetable_switch() for a pagetable that is not the default one.
  function TableSwitch3(setstate: u64, ttbr0: u64): (ps: seq<Packet>)
    ensures AllEncodable(ps)
  {
    HaltBus(setstate) + LoadTable(ttbr0) + FlushTlb()
  }

  // The payload of a3xx_rb_context_switch().
  function ContextSwitch3(gpu: Gpu, rb: Ring, setstate: u64, active: Option<Context>, ctx: Context): (ps: seq<Packet>)
    ensures AllEncodable(ps)
  {
    When(NeedsTable(gpu, active, ctx), TableSwitch3(setstate, ctx.pagetable.ttbr0))
    + Mark(CONTEXT_TO_MEM_IDENTIFIER)
    + [MemWrite3(RingMemstoreAddr(gpu, rb, CURRENT_CONTEXT), ctx.id),
       MemWrite3(MemstoreAddr(gpu, MEMSTORE_GLOBAL, CURRENT_CONTEXT), ctx.id),
       Type0(UCHE_CACHE_INVALIDATE0_REG, [0, 0x9000_0000])]
  }

  function HaltBusEffects(setstate: u64): seq<Effect> {
    [Other(CP_WAIT_FOR_ME, [0]), RunIb(Lo(setstate), 2), Other(CP_WAIT_FOR_IDLE, [0]), Other(CP_WAIT_FOR_ME, [0]),
     Other(CP_WAIT_REG_EQ, [WFI_PEND_CTR, 1, ALL_BITS, 0xF]),
     Other(CP_REG_RMW, [HALT_CTRL0, NOT_HALT_BIT, 1]),
     Other(CP_WAIT_REG_EQ, [HALT_CTRL1, 1, ALL_BITS, 0xF])]
  }

  function LoadTableEffects(ttbr0: u64): seq<Effect> {
    [RegWrite(SMMU_TTBR0, [Lo(ttbr0), Hi(ttbr0)]),
     Other(CP_REG_RMW, [HALT_CTRL0, NOT_HALT_BIT, 0]),
     Other(CP_WAIT_FOR_ME, [0])]
  }

  function FlushTlbEffects(): seq<Effect> {
    [RegWrite(SMMU_TLBIALL, [1]), RegWrite(SMMU_TLBSYNC, [0]), Other(CP_WAIT_REG_EQ, [SMMU_TLBSTATUS, 0, 1, 0xF]),
     Other(CP_WAIT_FOR_ME, [0]), Other(CP_WAIT_FOR_IDLE, [0]), Other(CP_INVALIDATE_STATE, [0x7_FFFF])]
  }

  function TableSwitchEffects3(setstate: u64, ttbr0: u64): seq<Effect> {
    HaltBusEffects(setstate) + LoadTableEffects(ttbr0) + FlushTlbEffects()
  }

  function ContextSwitchEffects3(gpu: Gpu, rb: Ring, setstate: u64, active: Option<Context>,
      ctx: Context): seq<Effect> {
    Maybe(NeedsTable(gpu, active, ctx), TableSwitchEffects3(setstate, ctx.pagetable.ttbr0))
    + [MemWrite(Lo(RingMemstoreAddr(gpu, rb, CURRENT_CONTEXT)), [ctx.id]),
       MemWrite(Lo(MemstoreAddr(gpu, MEMSTORE_GLOBAL, CURRENT_CONTEXT)), [ctx.id]),
       RegWrite(UCHE_CACHE_INVALIDATE0_REG, [0, 0x9000_0000])]
  }

  lemma TableSwitchShows3(setstate: u64, ttbr0: u64, m: Mode)
    ensures Shows(TableSwitch3(setstate, ttbr0), TableSwitchEffects3(setstate, ttbr0), m)
  {
    hide Shows;
    ListShows(HaltBus(setstate), HaltBusEffects(setstate), m);
    ListShows(LoadTable(ttbr0), LoadTableEffects(ttbr0), m);
    ListShows(FlushTlb(), FlushTlbEffects(), m);
    RunsThen(HaltBus(setstate), HaltBusEffects(setstate), LoadTable(ttbr0), LoadTableEffects(ttbr0), m);
    RunsThen(HaltBus(setstate) + LoadTable(ttbr0), HaltBusEffects(setstate) + LoadTableEffects(ttbr0), FlushTlb(),
        FlushTlbEffects(), m);
  }

  lemma ContextSwitchShows3(gpu: Gpu, rb: Ring, setstate: u64, active: Option<Context>, ctx: Context, m: Mode)
    ensures Shows(ContextSwitch3(gpu, rb, setstate, active, ctx),
        ContextSwitchEffects3(gpu, rb, setstate, active, ctx), m)
  {
    hide Run, EndMode, NeedsTable, MemstoreAddr, RingMemstoreAddr, TableSwitch3, TableSwitchEffects3, Mark;
    var need, ringSlot, slot := NeedsTable(gpu, active, ctx), RingMemstoreAddr(gpu, rb, CURRENT_CONTEXT),
                                MemstoreAddr(gpu, MEMSTORE_GLOBAL, CURRENT_CONTEXT);
    var a, b := When(need, TableSwitch3(setstate, ctx.pagetable.ttbr0)), Mark(CONTEXT_TO_MEM_IDENTIFIER);
    var c := [MemWrite3(ringSlot, ctx.id), MemWrite3(slot, ctx.id),
        Type0(UCHE_CACHE_INVALIDATE0_REG, [0, 0x9000_0000])];
    var a' := Maybe(need, TableSwitchEffects3(setstate, ctx.pagetable.ttbr0));
    var c' := [MemWrite(Lo(ringSlot), [ctx.id]), MemWrite(Lo(slot), [ctx.id]),
        RegWrite(UCHE_CACHE_INVALIDATE0_REG, [0, 0x9000_0000])];
    TableSwitchShows3(setstate, ctx.pagetable.ttbr0, m);
    RunEmpty(m);
    MarkShows(CONTEXT_TO_MEM_IDENTIFIER, m);
    ListShows(c, c', m);
    RunsThen(a, a', b, [], m);
    RunsThen(a + b, a' + [], c, c', m);
    assert a' + [] + c' == a' + c';
  }

  // Whether the effects load a pagetable: a write to TTBR0 of the GPU's SMMU context, at byte 0xA020.
  predicate Loads(es: seq<Effect>) {
    exists e <- es :: e.RegWrite? && e.reg == 0xA020 / 4
  }

  /** An A3xx context switch loads a pagetable exactly if the new context has its own and it is not the one before. */
  lemma SwitchLoads(gpu: Gpu, rb: Ring, setstate: u64, active: Option<Context>, ctx: Context)
    ensures var own := ctx.pagetable != gpu.defaultPagetable;
            var same := active.Some? && active.value.pagetable == ctx.pagetable;
            Loads(ContextSwitchEffects3(gpu, rb, setstate, active, ctx)) <==> own && !same
  {
    var xs := ContextSwitchEffects3(gpu, rb, setstate, active, ctx);
    if NeedsTable(gpu, active, ctx) {
      assert xs[7] == RegWrite(SMMU_TTBR0, [Lo(ctx.pagetable.ttbr0), Hi(ctx.pagetable.ttbr0)]);
      assert xs[7] in xs;
    }
  }

  lemma HaltBusSize(setstate: u64)
    ensures Dwords(HaltBus(setstate)) == 23
  {
    hide Lo, Hi, Encodable, AllEncodable;
    assert Sum([2, 3, 2, 2, 5, 4, 5]) == 23;
    hide Dwords, Sum;
    ListSize(HaltBus(setstate), [2, 3, 2, 2, 5, 4, 5]);
  }

  lemma LoadTableSize(ttbr0: u64)
    ensures Dwords(LoadTable(ttbr0)) == 10
  {
    hide Lo, Hi, Encodable, AllEncodable;
    assert Sum([4, 4, 2]) == 10;
    hide Dwords, Sum;
    ListSize(LoadTable(ttbr0), [4, 4, 2]);
  }

  lemma FlushTlbSize()
    ensures Dwords(FlushTlb()) == 17
  {
    hide Lo, Hi, Encodable, AllEncodable;
    assert Sum([3, 3, 5, 2, 2, 2]) == 17;
    hide Dwords, Sum;
    ListSize(FlushTlb(), [3, 3, 5, 2, 2, 2]);
  }

  // The 64 dwords on the stack of rb_context_switch() suffice.
  lemma SwitchSize3(gpu: Gpu, rb: Ring, setstate: u64, active: Option<Context>, ctx: Context)
    ensures Dwords(ContextSwitch3(gpu, rb, setstate, active, ctx)) <= 61
  {
    hide Dwords, NeedsTable, HaltBus, LoadTable, FlushTlb, MemstoreAddr, RingMemstoreAddr, Mark;
    var a, b := When(NeedsTable(gpu, active, ctx), TableSwitch3(setstate, ctx.pagetable.ttbr0)),
        Mark(CONTEXT_TO_MEM_IDENTIFIER);
    var c := [MemWrite3(RingMemstoreAddr(gpu, rb, CURRENT_CONTEXT), ctx.id),
              MemWrite3(MemstoreAddr(gpu, MEMSTORE_GLOBAL, CURRENT_CONTEXT), ctx.id),
              Type0(UCHE_CACHE_INVALIDATE0_REG, [0, 0x9000_0000])];
    HaltBusSize(setstate);
    LoadTableSize(ctx.pagetable.ttbr0);
    FlushTlbSize();
    DwordsConcat(HaltBus(setstate), LoadTable(ctx.pagetable.ttbr0));
    DwordsConcat(HaltBus(setstate) + LoadTable(ctx.pagetable.ttbr0), FlushTlb());
    WhenSize(false, Op3(CP_NOP, [0]));
    MarkSize(CONTEXT_TO_MEM_IDENTIFIER);
    DwordsConcat(a, b);
    DwordsConcat(a + b, c);
    ListSize(c, [3, 3, 3]);
    assert Sum([3, 3, 3]) == 9;
    WhenSize(true, c[0]);
  }
}
