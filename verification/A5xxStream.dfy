/**
  The dword streams the A5xx ringbuffer code builds, and what the command
  processor makes of them.
 */
module A5xxStream {
  import opened Words
  import opened Pm4
  import opened CommandProcessor
  import opened Adreno

  const CP_CNTL_REG: u32 := 0x831
  const SAVE_ADDR_LO_REG: u32 := 0x83E
  const SAVE_ADDR_HI_REG: u32 := 0x83F
  const UCHE_INVALIDATE0_REG: u32 := 0xE95
  const ALWAYSON_COUNTER_LO_REG: u32 := 0x4D2
  const A5XX_SUBMIT_MAX: nat := 64
  const A5XX_COMMAND_DWORDS: nat := 32
  const PROFILE_IB_SLOTS: nat := 256
  predicate IsSecureContext(ctx: Context) { (ctx.flags / 0x2_0000) % 2 == 1 }
  const STYLE_RINGBUFFER: nat := 1
  const STYLE_FINEGRAIN: nat := 2

  function PreemptStyle(ctx: Option<Context>): nat {
    match ctx
    case None => 0
    case Some(c) => if IsSecureContext(c) then STYLE_RINGBUFFER else (c.flags / 0x200_0000) % 8
  }

  function Op(op: u32, payload: seq<u32>): Packet {
    Type7(op, payload)
  }

  function Address(addr: u64): seq<u32> {
    [Lo(addr), Hi(addr)]
  }

  function IbPacket(addr: u64, dwords: u32): Packet {
    Op(CP_INDIRECT_BUFFER_PFE, Address(addr) + [dwords])
  }

  function MemWritePacket(addr: u64, data: seq<u32>): Packet {
    Op(CP_MEM_WRITE, Address(addr) + data)
  }

  function EventWritePacket(event: u32, addr: u64, value: u32): Packet {
    Op(CP_EVENT_WRITE, [event] + Address(addr) + [value])
  }

  // ------------------------------------------------- around every submission

  // a5xx_preemption_pre_ibsubmit()
  function PreIb(gpu: Gpu, rb: Ring, ctx: Option<Context>): (ps: seq<Packet>)
    ensures AllEncodable(ps)
  {
    var fine := PreemptStyle(ctx) == STYLE_FINEGRAIN;
    When(gpu.preemption, [
      Op(CP_PREEMPT_ENABLE_GLOBAL, [if fine then 2 else 0]),
      Op(CP_SET_PROTECTED_MODE, [0]),
      Type4(SAVE_ADDR_LO_REG, [Lo(rb.record)]),
      Type4(SAVE_ADDR_HI_REG, [Hi(rb.record)]),
      Op(CP_SET_PROTECTED_MODE, [1]),
      Op(CP_PREEMPT_ENABLE_LOCAL, [if fine then 1 else 0]),
      Op(CP_YIELD_ENABLE, [2])])
  }

  // a5xx_preemption_post_ibsubmit()
  function PostIb(gpu: Gpu): (ps: seq<Packet>)
    ensures AllEncodable(ps)
  {
    When(gpu.preemption, [Op(CP_CONTEXT_SWITCH_YIELD, Address(0) + [1, 1])])
  }

  function Profile(ib: ProfileIb): (ps: seq<Packet>)
    ensures AllEncodable(ps)
  {
    When(ib.addr != 0, [IbPacket(ib.addr, ib.dwords)])
  }

  /** Everything that shapes one submission besides its payload. */
  datatype Job = Job(gpu: Gpu, rb: Ring, ctx: Option<Context>, flags: u32, timestamp: u32, ringTimestamp: u32,
                     pre: ProfileIb, post: ProfileIb, sequence: u32)

  // Everything addcmds() writes in front of the payload.
  function Head(j: Job): (ps: seq<Packet>)
    ensures AllEncodable(ps)
  {
    [Op(CP_NOP, [if j.ctx.Some? then CMD_IDENTIFIER else CMD_INTERNAL_IDENTIFIER])]
    + PreIb(j.gpu, j.rb, j.ctx)
    + Profile(j.pre)
    + (if j.ctx.Some? then [MemWritePacket(MemstoreAddr(j.gpu, j.ctx.value.id, SOPTIMESTAMP), [j.timestamp])] else [])
    + [MemWritePacket(RingMemstoreAddr(j.gpu, j.rb, SOPTIMESTAMP), [j.ringTimestamp])]
    + When(IsSecure(j.flags), [Op(CP_SET_SECURE_MODE, [1])])
    + When(IsNotProtected(j.flags), [Op(CP_SET_PROTECTED_MODE, [0])])
  }

  // Everything it writes behind the payload.
  function Tail(j: Job): (ps: seq<Packet>)
    ensures AllEncodable(ps)
  {
    When(IsNotProtected(j.flags), [Op(CP_SET_PROTECTED_MODE, [1])])
    + Retirement(j)
    + When(IsSecure(j.flags), [Op(CP_SET_SECURE_MODE, [0])])
    + PostIb(j.gpu)
  }

  function Retirement(j: Job): (ps: seq<Packet>)
    ensures AllEncodable(ps)
  {
    Profile(j.post)
    + When(j.gpu.waitMemWrites, [Op(CP_WAIT_MEM_WRITES, [])])
    + [MemWritePacket(MemstoreAddr(j.gpu, MEMSTORE_GLOBAL, REF_WAIT_TS), [j.sequence])]
    + EndOfPipe(j.gpu, j.rb, j.ctx, j.timestamp, j.ringTimestamp)
    + When(IsWfi(j.flags), [Op(CP_WAIT_FOR_IDLE, [])])
  }

  function EndOfPipe(gpu: Gpu, rb: Ring, ctx: Option<Context>, timestamp: u32, ringTimestamp: u32): (ps: seq<Packet>)
    ensures AllEncodable(ps)
  {
    match ctx
    case None => [EventWritePacket(CACHE_FLUSH_TS + EVENT_INTERRUPT, RingMemstoreAddr(gpu, rb, EOPTIMESTAMP),
        ringTimestamp)]
    case Some(c) =>
      [EventWritePacket(CACHE_FLUSH_TS + EVENT_INTERRUPT, MemstoreAddr(gpu, c.id, EOPTIMESTAMP), timestamp),
       EventWritePacket(CACHE_FLUSH_TS, RingMemstoreAddr(gpu, rb, EOPTIMESTAMP), ringTimestamp)]
  }

  // ------------------------------------------------------- what they make happen

  function PreIbEvents(gpu: Gpu, rb: Ring, ctx: Option<Context>): seq<Event> {
    var fine := PreemptStyle(ctx) == STYLE_FINEGRAIN;
    var off := Mode(false, false);
    if !gpu.preemption then []
    else [
      Event(HomeMode, PreemptGlobal(if fine then 2 else 0)),
      Event(off, RegWrite(SAVE_ADDR_LO_REG, [Lo(rb.record)])),
      Event(off, RegWrite(SAVE_ADDR_HI_REG, [Hi(rb.record)])),
      Event(HomeMode, Other(CP_PREEMPT_ENABLE_LOCAL, [if fine then 1 else 0])),
      Event(HomeMode, Other(CP_YIELD_ENABLE, [2]))]
  }

  function ProfileEffects(ib: ProfileIb): seq<Effect> {
    Maybe(ib.addr != 0, [RunIb(ib.addr, ib.dwords)])
  }

  function StartOfPipe(gpu: Gpu, rb: Ring, ctx: Option<Context>, timestamp: u32, ringTimestamp: u32): seq<Effect> {
    (if ctx.Some? then [MemWrite(MemstoreAddr(gpu, ctx.value.id, SOPTIMESTAMP), [timestamp])] else [])
    + [MemWrite(RingMemstoreAddr(gpu, rb, SOPTIMESTAMP), [ringTimestamp])]
  }

  function EndOfPipeEffects(gpu: Gpu, rb: Ring, ctx: Option<Context>, timestamp: u32, ringTimestamp: u32): seq<Effect> {
    match ctx
    case None =>
      [EventWrite(CACHE_FLUSH_TS + EVENT_INTERRUPT, RingMemstoreAddr(gpu, rb, EOPTIMESTAMP), ringTimestamp)]
    case Some(c) =>
      [EventWrite(CACHE_FLUSH_TS + EVENT_INTERRUPT, MemstoreAddr(gpu, c.id, EOPTIMESTAMP), timestamp),
       EventWrite(CACHE_FLUSH_TS, RingMemstoreAddr(gpu, rb, EOPTIMESTAMP), ringTimestamp)]
  }

  lemma AddressReadsBack(addr: u64)
    ensures Join(Lo(addr), Hi(addr)) == addr
  {
    JoinSplit(addr);
  }

  lemma PreIbRuns(gpu: Gpu, rb: Ring, ctx: Option<Context>)
    ensures Run(PreIb(gpu, rb, ctx), HomeMode) == PreIbEvents(gpu, rb, ctx)
    ensures EndMode(PreIb(gpu, rb, ctx), HomeMode) == HomeMode
  {
    hide Run, EndMode;
    var ps := PreIb(gpu, rb, ctx);
    RunNone(ps, HomeMode);
    if gpu.preemption {
      var off := Mode(false, false);
      RunFrom(ps, 0, HomeMode, EffectOf(ps[0]));
      RunFrom(ps, 1, HomeMode, Protect(false));
      RunFrom(ps, 2, off, EffectOf(ps[2]));
      RunFrom(ps, 3, off, EffectOf(ps[3]));
      RunFrom(ps, 4, off, Protect(true));
      RunFrom(ps, 5, HomeMode, EffectOf(ps[5]));
      RunFrom(ps, 6, HomeMode, EffectOf(ps[6]));
    }
  }

  lemma ProfileRuns(ib: ProfileIb, m: Mode)
    ensures Run(Profile(ib), m) == Stamp(m, ProfileEffects(ib))
    ensures EndMode(Profile(ib), m) == m
  {
    RunEmpty(m);
    AddressReadsBack(ib.addr);
    RunSingle(IbPacket(ib.addr, ib.dwords), m, RunIb(ib.addr, ib.dwords));
  }

  lemma MemWriteRuns(addr: u64, value: u32, m: Mode)
    ensures Run([MemWritePacket(addr, [value])], m) == [Event(m, MemWrite(addr, [value]))]
    ensures EndMode([MemWritePacket(addr, [value])], m) == m
  {
    AddressReadsBack(addr);
    RunSingle(MemWritePacket(addr, [value]), m, MemWrite(addr, [value]));
  }

  lemma EventWriteRuns(event: u32, addr: u64, value: u32, m: Mode)
    ensures Run([EventWritePacket(event, addr, value)], m) == [Event(m, EventWrite(event, addr, value))]
    ensures EndMode([EventWritePacket(event, addr, value)], m) == m
  {
    AddressReadsBack(addr);
    RunSingle(EventWritePacket(event, addr, value), m, EventWrite(event, addr, value));
  }

  lemma {:induction false} HeadRuns(j: Job)
    ensures var ps := Head(j);
            && Run(ps, HomeMode) == PreIbEvents(j.gpu, j.rb, j.ctx)
                 + Stamp(HomeMode, ProfileEffects(j.pre)
                     + StartOfPipe(j.gpu, j.rb, j.ctx, j.timestamp, j.ringTimestamp))
            && EndMode(ps, HomeMode) == Mode(!IsNotProtected(j.flags), IsSecure(j.flags))
  {
    hide Run, EndMode, PreIb, PreIbEvents, Profile, MemWritePacket, MemstoreAddr, RingMemstoreAddr, EffectOf, When;
    var nop := Op(CP_NOP, [if j.ctx.Some? then CMD_IDENTIFIER else CMD_INTERNAL_IDENTIFIER]);
    var a, b, c := [nop], PreIb(j.gpu, j.rb, j.ctx), Profile(j.pre);
    var d := if j.ctx.Some? then [MemWritePacket(MemstoreAddr(j.gpu, j.ctx.value.id, SOPTIMESTAMP), [j.timestamp])]
        else [];
    var e := [MemWritePacket(RingMemstoreAddr(j.gpu, j.rb, SOPTIMESTAMP), [j.ringTimestamp])];
    var f := When(IsSecure(j.flags), [Op(CP_SET_SECURE_MODE, [1])]);
    var g := When(IsNotProtected(j.flags), [Op(CP_SET_PROTECTED_MODE, [0])]);
    var m := Mode(true, IsSecure(j.flags));
    NopRuns(nop.payload, HomeMode);
    PreIbRuns(j.gpu, j.rb, j.ctx);
    ProfileRuns(j.pre, HomeMode);
    RunEmpty(HomeMode);
    if j.ctx.Some? {
      MemWriteRuns(MemstoreAddr(j.gpu, j.ctx.value.id, SOPTIMESTAMP), j.timestamp, HomeMode);
    }
    MemWriteRuns(RingMemstoreAddr(j.gpu, j.rb, SOPTIMESTAMP), j.ringTimestamp, HomeMode);
    SecureRuns(IsSecure(j.flags), 1, HomeMode);
    ProtectRuns(IsNotProtected(j.flags), 0, m);
    RunConcat(a, b, HomeMode);
    RunConcat(a + b, c, HomeMode);
    RunConcat(a + b + c, d, HomeMode);
    RunConcat(a + b + c + d, e, HomeMode);
    RunConcat(a + b + c + d + e, f, HomeMode);
    RunConcat(a + b + c + d + e + f, g, HomeMode);
  }

  lemma NopRuns(payload: seq<u32>, m: Mode)
    ensures Run([Op(CP_NOP, payload)], m) == [] && EndMode([Op(CP_NOP, payload)], m) == m
  {
    RunSingle(Op(CP_NOP, payload), m, Quiet);
  }

  lemma SecureRuns(b: bool, v: u32, m: Mode)
    ensures Run(When(b, [Op(CP_SET_SECURE_MODE, [v])]), m) == []
    ensures EndMode(When(b, [Op(CP_SET_SECURE_MODE, [v])]), m) == if b then m.(secure := v != 0) else m
  {
    WhenRuns(b, Op(CP_SET_SECURE_MODE, [v]), m, Secure(v != 0));
  }

  lemma ProtectRuns(b: bool, v: u32, m: Mode)
    ensures Run(When(b, [Op(CP_SET_PROTECTED_MODE, [v])]), m) == []
    ensures EndMode(When(b, [Op(CP_SET_PROTECTED_MODE, [v])]), m) == if b then m.(protected := v != 0) else m
  {
    WhenRuns(b, Op(CP_SET_PROTECTED_MODE, [v]), m, Protect(v != 0));
  }

  function Retire(j: Job): seq<Effect>
  {
    ProfileEffects(j.post)
    + Maybe(j.gpu.waitMemWrites, [Other(CP_WAIT_MEM_WRITES, [])])
    + [MemWrite(MemstoreAddr(j.gpu, MEMSTORE_GLOBAL, REF_WAIT_TS), [j.sequence])]
    + EndOfPipeEffects(j.gpu, j.rb, j.ctx, j.timestamp, j.ringTimestamp)
    + Maybe(IsWfi(j.flags), [Other(CP_WAIT_FOR_IDLE, [])])
  }

  function AfterPayload(flags: u32, m: Mode): Mode {
    Mode(IsNotProtected(flags) || m.protected, m.secure)
  }

  function AfterSubmission(flags: u32, m: Mode): Mode {
    Mode(IsNotProtected(flags) || m.protected, !IsSecure(flags) && m.secure)
  }

  lemma EndOfPipeRuns(gpu: Gpu, rb: Ring, ctx: Option<Context>, timestamp: u32, ringTimestamp: u32, m: Mode)
    ensures Run(EndOfPipe(gpu, rb, ctx, timestamp, ringTimestamp), m)
         == Stamp(m, EndOfPipeEffects(gpu, rb, ctx, timestamp, ringTimestamp))
    ensures EndMode(EndOfPipe(gpu, rb, ctx, timestamp, ringTimestamp), m) == m
  {
    hide Run, EndMode, EventWritePacket, MemstoreAddr, RingMemstoreAddr;
    var ringEop := RingMemstoreAddr(gpu, rb, EOPTIMESTAMP);
    match ctx
    case None => EventWriteRuns(CACHE_FLUSH_TS + EVENT_INTERRUPT, ringEop, ringTimestamp, m);
    case Some(c) =>
      var eop := MemstoreAddr(gpu, c.id, EOPTIMESTAMP);
      EventWriteRuns(CACHE_FLUSH_TS + EVENT_INTERRUPT, eop, timestamp, m);
      EventWriteRuns(CACHE_FLUSH_TS, ringEop, ringTimestamp, m);
      var p, q := EventWritePacket(CACHE_FLUSH_TS + EVENT_INTERRUPT, eop, timestamp),
          EventWritePacket(CACHE_FLUSH_TS, ringEop, ringTimestamp);
      RunConcat([p], [q], m);
      assert [p] + [q] == [p, q];
  }

  lemma {:induction false} RetirementRuns(j: Job, m: Mode)
    ensures var ps := Retirement(j);
            && Run(ps, m) == Stamp(m, Retire(j))
            && EndMode(ps, m) == m
  {
    hide Run, EndMode, Profile, ProfileEffects, MemWritePacket, MemstoreAddr, EndOfPipe, EndOfPipeEffects, When;
    var refWait := MemstoreAddr(j.gpu, MEMSTORE_GLOBAL, REF_WAIT_TS);
    var a, b := Profile(j.post), When(j.gpu.waitMemWrites, [Op(CP_WAIT_MEM_WRITES, [])]);
    var c, d := [MemWritePacket(refWait, [j.sequence])], EndOfPipe(j.gpu, j.rb, j.ctx, j.timestamp, j.ringTimestamp);
    var e := When(IsWfi(j.flags), [Op(CP_WAIT_FOR_IDLE, [])]);
    var a', b' := ProfileEffects(j.post), Maybe(j.gpu.waitMemWrites, [Other(CP_WAIT_MEM_WRITES, [])]);
    var c', d' := [MemWrite(refWait, [j.sequence])], EndOfPipeEffects(j.gpu, j.rb, j.ctx, j.timestamp, j.ringTimestamp);
    var e' := Maybe(IsWfi(j.flags), [Other(CP_WAIT_FOR_IDLE, [])]);
    ProfileRuns(j.post, m);
    WhenRuns(j.gpu.waitMemWrites, Op(CP_WAIT_MEM_WRITES, []), m, Other(CP_WAIT_MEM_WRITES, []));
    MemWriteRuns(refWait, j.sequence, m);
    EndOfPipeRuns(j.gpu, j.rb, j.ctx, j.timestamp, j.ringTimestamp, m);
    WhenRuns(IsWfi(j.flags), Op(CP_WAIT_FOR_IDLE, []), m, Other(CP_WAIT_FOR_IDLE, []));
    hide EffectOf;
    RunsThen(a, a', b, b', m);
    RunsThen(a + b, a' + b', c, c', m);
    RunsThen(a + b + c, a' + b' + c', d, d', m);
    RunsThen(a + b + c + d, a' + b' + c' + d', e, e', m);
  }

  lemma {:induction false} TailRuns(j: Job, m: Mode)
    ensures var ps := Tail(j);
            && Run(ps, m) == Stamp(AfterPayload(j.flags, m), Retire(j))
                 + Stamp(AfterSubmission(j.flags, m), Maybe(j.gpu.preemption, [Yield(0, 1, 1)]))
            && EndMode(ps, m) == AfterSubmission(j.flags, m)
  {
    hide Run, EndMode, Retirement, Retire, When;
    var m1, m2 := AfterPayload(j.flags, m), AfterSubmission(j.flags, m);
    var a := When(IsNotProtected(j.flags), [Op(CP_SET_PROTECTED_MODE, [1])]);
    var b := Retirement(j);
    var c := When(IsSecure(j.flags), [Op(CP_SET_SECURE_MODE, [0])]);
    ProtectRuns(IsNotProtected(j.flags), 1, m);
    RetirementRuns(j, m1);
    SecureRuns(IsSecure(j.flags), 0, m1);
    AddressReadsBack(0);
    WhenRuns(j.gpu.preemption, Op(CP_CONTEXT_SWITCH_YIELD, Address(0) + [1, 1]), m2, Yield(0, 1, 1));
    hide EffectOf;
    RunConcat(a, b, m);
    RunConcat(a + b, c, m);
    RunConcat(a + b + c, PostIb(j.gpu), m);
  }

  // ------------------------------------------------------------- one submission

  /** The dwords a5xx_ringbuffer_addcmds() leaves in the ring around `input`. */
  function Submission(j: Job, input: seq<u32>): seq<u32>
  {
    Encode(Head(j))
    + input
    + Encode(Tail(j))
  }

  lemma PreIbSize(gpu: Gpu, rb: Ring, ctx: Option<Context>)
    ensures Dwords(PreIb(gpu, rb, ctx)) == if gpu.preemption then 14 else 0
  {
    hide Lo, Hi, Encodable, AllEncodable, PreemptStyle;
    if gpu.preemption {
      assert Sum([2, 2, 2, 2, 2, 2, 2]) == 14;
      hide Dwords, Sum;
      ListSize(PreIb(gpu, rb, ctx), [2, 2, 2, 2, 2, 2, 2]);
    }
  }

  lemma HeadSize(j: Job)
    ensures Dwords(Head(j)) <= if j.gpu.preemption then 32 else 18
  {
    hide MemstoreAddr, RingMemstoreAddr, Dwords, PreIb;
    var a, b, c := [Op(CP_NOP, [if j.ctx.Some? then CMD_IDENTIFIER else CMD_INTERNAL_IDENTIFIER])],
        PreIb(j.gpu, j.rb, j.ctx), Profile(j.pre);
    var d := if j.ctx.Some? then [MemWritePacket(MemstoreAddr(j.gpu, j.ctx.value.id, SOPTIMESTAMP), [j.timestamp])]
        else [];
    var e := [MemWritePacket(RingMemstoreAddr(j.gpu, j.rb, SOPTIMESTAMP), [j.ringTimestamp])];
    var f := When(IsSecure(j.flags), [Op(CP_SET_SECURE_MODE, [1])]);
    var g := When(IsNotProtected(j.flags), [Op(CP_SET_PROTECTED_MODE, [0])]);
    WhenSize(true, a[0]);
    PreIbSize(j.gpu, j.rb, j.ctx);
    WhenSize(j.pre.addr != 0, IbPacket(j.pre.addr, j.pre.dwords));
    if j.ctx.Some? {
      WhenSize(true, d[0]);
    }
    WhenSize(true, e[0]);
    WhenSize(IsSecure(j.flags), Op(CP_SET_SECURE_MODE, [1]));
    WhenSize(IsNotProtected(j.flags), Op(CP_SET_PROTECTED_MODE, [0]));
    hide When, Profile, MemWritePacket;
    DwordsConcat(a, b);
    DwordsConcat(a + b, c);
    DwordsConcat(a + b + c, d);
    DwordsConcat(a + b + c + d, e);
    DwordsConcat(a + b + c + d + e, f);
    DwordsConcat(a + b + c + d + e + f, g);
  }

  lemma EndOfPipeSize(gpu: Gpu, rb: Ring, ctx: Option<Context>, timestamp: u32, ringTimestamp: u32)
    ensures Dwords(EndOfPipe(gpu, rb, ctx, timestamp, ringTimestamp)) <= 10
  {
    hide MemstoreAddr, RingMemstoreAddr, Dwords;
    var ps := EndOfPipe(gpu, rb, ctx, timestamp, ringTimestamp);
    WhenSize(true, ps[0]);
    if |ps| == 2 {
      WhenSize(true, ps[1]);
      DwordsConcat([ps[0]], [ps[1]]);
      assert ps == [ps[0]] + [ps[1]];
    }
  }

  lemma RetirementSize(j: Job)
    ensures Dwords(Retirement(j)) <= 20
  {
    hide MemstoreAddr, RingMemstoreAddr, Dwords, EndOfPipe;
    var a, b := Profile(j.post), When(j.gpu.waitMemWrites, [Op(CP_WAIT_MEM_WRITES, [])]);
    var c := [MemWritePacket(MemstoreAddr(j.gpu, MEMSTORE_GLOBAL, REF_WAIT_TS), [j.sequence])];
    var d := EndOfPipe(j.gpu, j.rb, j.ctx, j.timestamp, j.ringTimestamp);
    var e := When(IsWfi(j.flags), [Op(CP_WAIT_FOR_IDLE, [])]);
    WhenSize(j.post.addr != 0, IbPacket(j.post.addr, j.post.dwords));
    WhenSize(j.gpu.waitMemWrites, Op(CP_WAIT_MEM_WRITES, []));
    WhenSize(true, c[0]);
    EndOfPipeSize(j.gpu, j.rb, j.ctx, j.timestamp, j.ringTimestamp);
    WhenSize(IsWfi(j.flags), Op(CP_WAIT_FOR_IDLE, []));
    hide When, Profile, MemWritePacket;
    DwordsConcat(a, b);
    DwordsConcat(a + b, c);
    DwordsConcat(a + b + c, d);
    DwordsConcat(a + b + c + d, e);
  }

  lemma TailSize(j: Job)
    ensures Dwords(Tail(j)) <= if j.gpu.preemption then 29 else 24
  {
    hide Dwords, Retirement;
    var a, c := When(IsNotProtected(j.flags), [Op(CP_SET_PROTECTED_MODE, [1])]),
        When(IsSecure(j.flags), [Op(CP_SET_SECURE_MODE, [0])]);
    var b := Retirement(j);
    WhenSize(IsNotProtected(j.flags), Op(CP_SET_PROTECTED_MODE, [1]));
    RetirementSize(j);
    WhenSize(IsSecure(j.flags), Op(CP_SET_SECURE_MODE, [0]));
    WhenSize(j.gpu.preemption, Op(CP_CONTEXT_SWITCH_YIELD, Address(0) + [1, 1]));
    hide When;
    DwordsConcat(a, b);
    DwordsConcat(a + b, c);
    DwordsConcat(a + b + c, PostIb(j.gpu));
  }

  /** The space addcmds() asks for is enough, whatever the j.flags. */
  lemma SubmissionFits(j: Job, input: seq<u32>)
    ensures |Submission(j, input)| <= A5XX_SUBMIT_MAX + |input|
    ensures !j.gpu.preemption ==> |Submission(j, input)| <= A5XX_SUBMIT_MAX - 22 + |input|
  {
    hide Head, Tail;
    EncodedLength(Head(j));
    EncodedLength(Tail(j));
    HeadSize(j);
    TailSize(j);
  }

  /**
    A submission decodes without losing step, and running it runs the payload in
    the mode the j.flags ask for, between the start-of-pipe and the end-of-pipe writes.
   */
  lemma SubmissionMeaning(j: Job, input: seq<u32>)
    requires Parse(input).Some?
    ensures var parsed := Parse(Submission(j, input));
            var payload, start := Parse(input).value, Mode(!IsNotProtected(j.flags), IsSecure(j.flags));
            var end := EndMode(payload, start);
            && parsed.Some?
            && Run(parsed.value, HomeMode) ==
                 (PreIbEvents(j.gpu, j.rb, j.ctx)
                  + Stamp(HomeMode, ProfileEffects(j.pre)
                      + StartOfPipe(j.gpu, j.rb, j.ctx, j.timestamp, j.ringTimestamp)))
                 + Run(payload, start)
                 + (Stamp(AfterPayload(j.flags, end), Retire(j))
                  + Stamp(AfterSubmission(j.flags, end), Maybe(j.gpu.preemption, [Yield(0, 1, 1)])))
            && EndMode(parsed.value, HomeMode) == AfterSubmission(j.flags, end)
            && (end == start ==> EndMode(parsed.value, HomeMode) == HomeMode)
  {
    hide Run, EndMode, Parse, Encode, Head, Tail, PreIbEvents, Retire, ProfileEffects, StartOfPipe;
    var payload, start := Parse(input).value, Mode(!IsNotProtected(j.flags), IsSecure(j.flags));
    ParseAround(Head(j), input, Tail(j));
    HeadRuns(j);
    TailRuns(j, EndMode(payload, start));
    RunAround(Head(j), payload, Tail(j), HomeMode);
  }

  function IbDwordCount(ib: IbNode): u32 {
    (ib.size / 4) % 0x10_0000
  }

  function NopHeader(count: u32): u32
    requires count < 0x4000
  {
    Header(Type7(CP_NOP, seq(count, i => 0)))
  }

  // As the loop writes it: a bare NOP header in front of a skipped IB packet.
  function IbWords(ib: IbNode, flags: u32): seq<u32> {
    (if IsSkipped(ib, flags) then [NopHeader(4)] else []) + EncodePacket(IbPacket(ib.addr, IbDwordCount(ib)))
  }

  function IbDwords(ibs: seq<IbNode>, flags: u32): seq<u32> {
    if |ibs| == 0 then [] else IbWords(ibs[0], flags) + IbDwords(ibs[1..], flags)
  }

  // What the list asks for: the IBs that are not skipped, in order.
  function KeptIbs(ibs: seq<IbNode>, flags: u32): seq<Effect> {
    if |ibs| == 0 then []
    else
      (if IsSkipped(ibs[0], flags) then [] else [RunIb(ibs[0].addr, IbDwordCount(ibs[0]))])
      + KeptIbs(ibs[1..], flags)
  }

  // A skipped IB is the payload of its NOP.
  function IbAsPacket(ib: IbNode, flags: u32): Packet {
    var p := IbPacket(ib.addr, IbDwordCount(ib));
    if IsSkipped(ib, flags) then Op(CP_NOP, EncodePacket(p)) else p
  }

  lemma SkipSwallowsIb(ib: IbNode, flags: u32)
    ensures Encodable(IbAsPacket(ib, flags))
    ensures EncodePacket(IbAsPacket(ib, flags)) == IbWords(ib, flags)
  {
    hide IsSkipped, OddParity;
  }

  lemma IbShows(ib: IbNode, flags: u32, m: Mode)
    ensures Shows([IbAsPacket(ib, flags)], if IsSkipped(ib, flags) then [] else [RunIb(ib.addr, IbDwordCount(ib))], m)
  {
    hide Run, EndMode, IsSkipped, Header;
    AddressReadsBack(ib.addr);
    if IsSkipped(ib, flags) {
      NopRuns(EncodePacket(IbPacket(ib.addr, IbDwordCount(ib))), m);
    } else {
      RunSingle(IbPacket(ib.addr, IbDwordCount(ib)), m, RunIb(ib.addr, IbDwordCount(ib)));
    }
  }

  /** Exactly the IBs that are not skipped run, in list order, with their address and masked size. */
  lemma {:induction false} IbListMeaning(ibs: seq<IbNode>, flags: u32, m: Mode)
    ensures var parsed := Parse(IbDwords(ibs, flags));
            && parsed.Some? && |parsed.value| == |ibs|
            && Shows(parsed.value, KeptIbs(ibs, flags), m)
  {
    hide Parse, Run, EndMode, EncodePacket, IsSkipped, NopHeader, IbPacket, IbDwordCount;
    if |ibs| == 0 {
      ParseUnfold([]);
      RunEmpty(m);
    } else {
      var p, rest := IbAsPacket(ibs[0], flags), IbDwords(ibs[1..], flags);
      IbListMeaning(ibs[1..], flags, m);
      SkipSwallowsIb(ibs[0], flags);
      IbShows(ibs[0], flags, m);
      ParseFirst(p, rest);
      RunsThen([p], if IsSkipped(ibs[0], flags) then [] else [RunIb(ibs[0].addr, IbDwordCount(ibs[0]))],
               Parse(rest).value, KeptIbs(ibs[1..], flags), m);
    }
  }

  lemma {:induction false} IbDwordsSize(ibs: seq<IbNode>, flags: u32)
    ensures |IbDwords(ibs, flags)| <= 5 * |ibs|
  {
    hide IsSkipped, NopHeader, Header;
    if |ibs| != 0 {
      IbDwordsSize(ibs[1..], flags);
    }
  }

  // ------------------------------------------------------- a command object

  /** Where the two kinds of profiling write; `slots` is None when the ring has no profile buffer. */
  datatype Profiling = Profiling(started: u64, retired: u64, slots: Option<u64>, index: u32)

  function SlotIb(slots: u64, index: u32): ProfileIb {
    ProfileIb(Add64(slots, index * 16), 4)
  }

  function CounterPacket(gpu: Gpu, addr: u64): Packet {
    Op(CP_REG_TO_MEM, [ALWAYSON_COUNTER_LO_REG + if gpu.wideCounter then 0x4008_0000 else 0] + Address(addr))
  }

  function UserIb(prof: Profiling, flags: u32, next: nat): seq<Packet> {
    if IsUserProfile(flags) && prof.slots.Some?
    then var ib := SlotIb(prof.slots.value, (prof.index + next) % PROFILE_IB_SLOTS); [IbPacket(ib.addr, ib.dwords)]
    else []
  }

  function BeforeIbs(gpu: Gpu, prof: Profiling, flags: u32): (ps: seq<Packet>)
    ensures AllEncodable(ps)
  {
    [Op(CP_NOP, [START_IB_IDENTIFIER])]
    + When(IsKernelProfile(flags), [CounterPacket(gpu, prof.started)])
    + UserIb(prof, flags, 0)
  }

  function AfterIbs(gpu: Gpu, prof: Profiling, flags: u32): (ps: seq<Packet>)
    ensures AllEncodable(ps)
  {
    [Op(CP_SET_RENDER_MODE, [0, 0, 0, 0, 0])]
    + [Op(CP_YIELD_ENABLE, [1])]
    + When(IsKernelProfile(flags), [CounterPacket(gpu, prof.retired)])
    + UserIb(prof, flags, 1)
    + [Op(CP_NOP, [END_IB_IDENTIFIER])]
  }

  /** The command buffer a5xx_ringbuffer_submitcmd() builds for one command object. */
  function Command(gpu: Gpu, prof: Profiling, ibs: seq<IbNode>, flags: u32): seq<u32> {
    Encode(BeforeIbs(gpu, prof, flags)) + IbDwords(ListedIbs(ibs, flags), flags) + Encode(AfterIbs(gpu, prof, flags))
  }

  function CounterEffect(gpu: Gpu, addr: u64): Effect {
    RegToMem(if gpu.wideCounter then 0x4008_04D2 else 0x4D2, addr)
  }

  function UserIbEffects(prof: Profiling, flags: u32, next: nat): seq<Effect> {
    if IsUserProfile(flags) && prof.slots.Some?
    then var ib := SlotIb(prof.slots.value, (prof.index + next) % PROFILE_IB_SLOTS); [RunIb(ib.addr, ib.dwords)]
    else []
  }

  function CommandEffects(gpu: Gpu, prof: Profiling, ibs: seq<IbNode>, flags: u32): seq<Effect> {
    (Maybe(IsKernelProfile(flags), [CounterEffect(gpu, prof.started)]) + UserIbEffects(prof, flags, 0))
    + KeptIbs(ListedIbs(ibs, flags), flags)
    + (((([Other(CP_SET_RENDER_MODE, [0, 0, 0, 0, 0])] + [Other(CP_YIELD_ENABLE, [1])])
         + Maybe(IsKernelProfile(flags), [CounterEffect(gpu, prof.retired)])) + UserIbEffects(prof, flags, 1)) + [])
  }

  lemma UserIbShows(prof: Profiling, flags: u32, next: nat, m: Mode)
    ensures Shows(UserIb(prof, flags, next), UserIbEffects(prof, flags, next), m)
  {
    hide Run, EndMode, IsUserProfile;
    RunEmpty(m);
    if prof.slots.Some? {
      var ib := SlotIb(prof.slots.value, (prof.index + next) % PROFILE_IB_SLOTS);
      AddressReadsBack(ib.addr);
      RunSingle(IbPacket(ib.addr, ib.dwords), m, RunIb(ib.addr, ib.dwords));
    }
  }

  lemma BeforeIbsShows(gpu: Gpu, prof: Profiling, flags: u32, m: Mode)
    ensures Shows(BeforeIbs(gpu, prof, flags),
                  Maybe(IsKernelProfile(flags), [CounterEffect(gpu, prof.started)]) + UserIbEffects(prof, flags, 0), m)
  {
    var a, b, c := [Op(CP_NOP, [START_IB_IDENTIFIER])],
        When(IsKernelProfile(flags), [CounterPacket(gpu, prof.started)]), UserIb(prof, flags, 0);
    var b', c' := Maybe(IsKernelProfile(flags), [CounterEffect(gpu, prof.started)]), UserIbEffects(prof, flags, 0);
    hide Run, EndMode, When, UserIb, UserIbEffects, IsKernelProfile;
    NopRuns([START_IB_IDENTIFIER], m);
    AddressReadsBack(prof.started);
    ShowsPacket(IsKernelProfile(flags), CounterPacket(gpu, prof.started), CounterEffect(gpu, prof.started), m);
    UserIbShows(prof, flags, 0, m);
    RunsThen(a, [], b, b', m);
    assert [] + b' == b';
    RunsThen(a + b, b', c, c', m);
  }

  lemma AfterIbsShows(gpu: Gpu, prof: Profiling, flags: u32, m: Mode)
    ensures Shows(AfterIbs(gpu, prof, flags),
                  ((([Other(CP_SET_RENDER_MODE, [0, 0, 0, 0, 0])] + [Other(CP_YIELD_ENABLE, [1])])
                    + Maybe(IsKernelProfile(flags), [CounterEffect(gpu, prof.retired)]))
                        + UserIbEffects(prof, flags, 1)) + [], m)
  {
    var a, b := [Op(CP_SET_RENDER_MODE, [0, 0, 0, 0, 0])], [Op(CP_YIELD_ENABLE, [1])];
    var c, d := When(IsKernelProfile(flags), [CounterPacket(gpu, prof.retired)]), UserIb(prof, flags, 1);
    var a', b' := [Other(CP_SET_RENDER_MODE, [0, 0, 0, 0, 0])], [Other(CP_YIELD_ENABLE, [1])];
    var c', d' := Maybe(IsKernelProfile(flags), [CounterEffect(gpu, prof.retired)]), UserIbEffects(prof, flags, 1);
    hide Run, EndMode, When, UserIb, UserIbEffects, IsKernelProfile;
    ShowsPacket(true, a[0], a'[0], m);
    ShowsPacket(true, b[0], b'[0], m);
    AddressReadsBack(prof.retired);
    ShowsPacket(IsKernelProfile(flags), CounterPacket(gpu, prof.retired), CounterEffect(gpu, prof.retired), m);
    UserIbShows(prof, flags, 1, m);
    NopRuns([END_IB_IDENTIFIER], m);
    RunsThen(a, a', b, b', m);
    RunsThen(a + b, a' + b', c, c', m);
    RunsThen(a + b + c, a' + b' + c', d, d', m);
    RunsThen(a + b + c + d, a' + b' + c' + d', [Op(CP_NOP, [END_IB_IDENTIFIER])], [], m);
  }

  /** For every IB list and every flag word, the command buffer runs exactly the IBs it should. */
  lemma CommandMeaning(gpu: Gpu, prof: Profiling, ibs: seq<IbNode>, flags: u32, m: Mode)
    ensures var parsed := Parse(Command(gpu, prof, ibs, flags));
            parsed.Some? && Shows(parsed.value, CommandEffects(gpu, prof, ibs, flags), m)
  {
    hide Parse, Run, EndMode, Encode, BeforeIbs, AfterIbs, IbDwords, KeptIbs, UserIbEffects, CounterEffect, Maybe,
        Visible, IsKernelProfile;
    var a, c, list := BeforeIbs(gpu, prof, flags), AfterIbs(gpu, prof, flags), ListedIbs(ibs, flags);
    var ws := IbDwords(list, flags);
    IbListMeaning(list, flags, m);
    ParseEncode(c);
    ParseConcat(ws, Encode(c));
    ParseEncodeThen(a, ws + Encode(c));
    assert Encode(a) + ws + Encode(c) == Encode(a) + (ws + Encode(c));
    var b := Parse(ws).value;
    assert a + (b + c) == a + b + c;
    BeforeIbsShows(gpu, prof, flags, m);
    AfterIbsShows(gpu, prof, flags, m);
    var a' := Maybe(IsKernelProfile(flags), [CounterEffect(gpu, prof.started)]) + UserIbEffects(prof, flags, 0);
    var c' := ((([Other(CP_SET_RENDER_MODE, [0, 0, 0, 0, 0])] + [Other(CP_YIELD_ENABLE, [1])])
                + Maybe(IsKernelProfile(flags), [CounterEffect(gpu, prof.retired)])) + UserIbEffects(prof, flags, 1))
                    + [];
    RunsThen(a, a', b, KeptIbs(list, flags), m);
    RunsThen(a + b, a' + KeptIbs(list, flags), c, c', m);
  }

  lemma UserIbSize(prof: Profiling, flags: u32, next: nat)
    ensures Dwords(UserIb(prof, flags, next)) <= 4
  {
    if IsUserProfile(flags) && prof.slots.Some? {
      var ib := SlotIb(prof.slots.value, (prof.index + next) % PROFILE_IB_SLOTS);
      WhenSize(true, IbPacket(ib.addr, ib.dwords));
    }
  }

  lemma BeforeIbsSize(gpu: Gpu, prof: Profiling, flags: u32)
    ensures Dwords(BeforeIbs(gpu, prof, flags)) <= 10
  {
    hide Dwords, UserIb, IsKernelProfile;
    var a, c := [Op(CP_NOP, [START_IB_IDENTIFIER])], UserIb(prof, flags, 0);
    var b := When(IsKernelProfile(flags), [CounterPacket(gpu, prof.started)]);
    WhenSize(true, a[0]);
    WhenSize(IsKernelProfile(flags), CounterPacket(gpu, prof.started));
    UserIbSize(prof, flags, 0);
    DwordsConcat(a, b);
    DwordsConcat(a + b, c);
  }

  lemma AfterIbsSize(gpu: Gpu, prof: Profiling, flags: u32)
    ensures Dwords(AfterIbs(gpu, prof, flags)) <= 18
  {
    hide Dwords, UserIb, IsKernelProfile;
    var a, b := [Op(CP_SET_RENDER_MODE, [0, 0, 0, 0, 0])], [Op(CP_YIELD_ENABLE, [1])];
    var c := When(IsKernelProfile(flags), [CounterPacket(gpu, prof.retired)]);
    var d, e := UserIb(prof, flags, 1), [Op(CP_NOP, [END_IB_IDENTIFIER])];
    WhenSize(true, a[0]);
    WhenSize(true, b[0]);
    WhenSize(IsKernelProfile(flags), CounterPacket(gpu, prof.retired));
    UserIbSize(prof, flags, 1);
    WhenSize(true, e[0]);
    DwordsConcat(a, b);
    DwordsConcat(a + b, c);
    DwordsConcat(a + b + c, d);
    DwordsConcat(a + b + c + d, e);
  }

  /** The kmalloc() in submitcmd() is large enough. */
  lemma CommandFits(gpu: Gpu, prof: Profiling, ibs: seq<IbNode>, flags: u32)
    ensures |Command(gpu, prof, ibs, flags)| <= A5XX_COMMAND_DWORDS + 5 * |ListedIbs(ibs, flags)|
  {
    hide Dwords, Encode, IbDwords, BeforeIbs, AfterIbs, ListedIbs;
    IbDwordsSize(ListedIbs(ibs, flags), flags);
    BeforeIbsSize(gpu, prof, flags);
    AfterIbsSize(gpu, prof, flags);
    EncodedLength(BeforeIbs(gpu, prof, flags));
    EncodedLength(AfterIbs(gpu, prof, flags));
  }

  function UpdateTable(ctx: Context): (ps: seq<Packet>)
    ensures AllEncodable(ps)
  {
    [Op(CP_SMMU_TABLE_UPDATE, Address(ctx.pagetable.ttbr0) + [ctx.id]),
     Op(CP_WAIT_FOR_IDLE, []),
     Op(CP_WAIT_FOR_ME, []),
     Type4(CP_CNTL_REG, [1])]
  }

  function RecordTable(gpu: Gpu, rb: Ring, ctx: Context): (ps: seq<Packet>)
    ensures AllEncodable(ps)
  {
    [MemWritePacket(ScratchTtbr0Addr(gpu, rb.id), Address(ctx.pagetable.ttbr0) + [ctx.id]),
     Op(CP_WAIT_FOR_IDLE, []),
     Op(CP_WAIT_FOR_ME, []),
     Type4(CP_CNTL_REG, [0])]
  }

  // a5xx_rb_pagetable_switch(): the new table, and its record for the way back from a preemption.
  function TableSwitch(gpu: Gpu, rb: Ring, ctx: Context): (ps: seq<Packet>)
    ensures AllEncodable(ps)
  {
    UpdateTable(ctx) + RecordTable(gpu, rb, ctx)
  }

  // The payload of a5xx_rb_context_switch().
  function ContextSwitch(gpu: Gpu, rb: Ring, active: Option<Context>, ctx: Context): (ps: seq<Packet>)
    ensures AllEncodable(ps)
  {
    When(NeedsTable(gpu, active, ctx), TableSwitch(gpu, rb, ctx))
    + [Op(CP_NOP, [CONTEXT_TO_MEM_IDENTIFIER])]
    + CurrentContext(gpu, rb, ctx)
  }

  function UpdateTableEffects(ctx: Context): seq<Effect> {
    [TableUpdate(ctx.pagetable.ttbr0, ctx.id), Other(CP_WAIT_FOR_IDLE, []), Other(CP_WAIT_FOR_ME, []),
        RegWrite(CP_CNTL_REG, [1])]
  }

  function RecordTableEffects(gpu: Gpu, rb: Ring, ctx: Context): seq<Effect> {
    [MemWrite(ScratchTtbr0Addr(gpu, rb.id), [Lo(ctx.pagetable.ttbr0), Hi(ctx.pagetable.ttbr0), ctx.id]),
     Other(CP_WAIT_FOR_IDLE, []), Other(CP_WAIT_FOR_ME, []), RegWrite(CP_CNTL_REG, [0])]
  }

  function TableSwitchEffects(gpu: Gpu, rb: Ring, ctx: Context): seq<Effect> {
    UpdateTableEffects(ctx) + RecordTableEffects(gpu, rb, ctx)
  }

  function ContextSwitchEffects(gpu: Gpu, rb: Ring, active: Option<Context>, ctx: Context): seq<Effect> {
    Maybe(NeedsTable(gpu, active, ctx), TableSwitchEffects(gpu, rb, ctx)) + CurrentContextEffects(gpu, rb, ctx)
  }

  lemma TableSwitchShows(gpu: Gpu, rb: Ring, ctx: Context, m: Mode)
    ensures Shows(TableSwitch(gpu, rb, ctx), TableSwitchEffects(gpu, rb, ctx), m)
  {
    hide Shows, ScratchTtbr0Addr, Encodable, AllEncodable, Run, EndMode;
    AddressReadsBack(ctx.pagetable.ttbr0);
    AddressReadsBack(ScratchTtbr0Addr(gpu, rb.id));
    ListShows(UpdateTable(ctx), UpdateTableEffects(ctx), m);
    ListShows(RecordTable(gpu, rb, ctx), RecordTableEffects(gpu, rb, ctx), m);
    hide UpdateTable, UpdateTableEffects, RecordTable, RecordTableEffects;
    RunsThen(UpdateTable(ctx), UpdateTableEffects(ctx), RecordTable(gpu, rb, ctx), RecordTableEffects(gpu, rb, ctx), m);
  }

  // The part of a context switch that does not depend on the pagetables.
  function CurrentContext(gpu: Gpu, rb: Ring, ctx: Context): (ps: seq<Packet>)
    ensures AllEncodable(ps)
  {
    [MemWritePacket(RingMemstoreAddr(gpu, rb, CURRENT_CONTEXT), [ctx.id]),
     MemWritePacket(MemstoreAddr(gpu, MEMSTORE_GLOBAL, CURRENT_CONTEXT), [ctx.id]),
     Type4(UCHE_INVALIDATE0_REG, [0x12])]
  }

  function CurrentContextEffects(gpu: Gpu, rb: Ring, ctx: Context): seq<Effect> {
    [MemWrite(RingMemstoreAddr(gpu, rb, CURRENT_CONTEXT), [ctx.id]),
     MemWrite(MemstoreAddr(gpu, MEMSTORE_GLOBAL, CURRENT_CONTEXT), [ctx.id]),
     RegWrite(UCHE_INVALIDATE0_REG, [0x12])]
  }

  lemma CurrentContextShows(gpu: Gpu, rb: Ring, ctx: Context, m: Mode)
    ensures Shows(CurrentContext(gpu, rb, ctx), CurrentContextEffects(gpu, rb, ctx), m)
  {
    hide Shows, MemstoreAddr, RingMemstoreAddr, Encodable;
    AddressReadsBack(RingMemstoreAddr(gpu, rb, CURRENT_CONTEXT));
    AddressReadsBack(MemstoreAddr(gpu, MEMSTORE_GLOBAL, CURRENT_CONTEXT));
    ListShows(CurrentContext(gpu, rb, ctx), CurrentContextEffects(gpu, rb, ctx), m);
  }

  lemma ContextSwitchShows(gpu: Gpu, rb: Ring, active: Option<Context>, ctx: Context, m: Mode)
    ensures Shows(ContextSwitch(gpu, rb, active, ctx), ContextSwitchEffects(gpu, rb, active, ctx), m)
  {
    hide Run, EndMode, EffectOf, NeedsTable, TableSwitch, TableSwitchEffects, CurrentContext, CurrentContextEffects,
        AllEncodable;
    var need, b := NeedsTable(gpu, active, ctx), [Op(CP_NOP, [CONTEXT_TO_MEM_IDENTIFIER])];
    var a, a' := When(need, TableSwitch(gpu, rb, ctx)), Maybe(need, TableSwitchEffects(gpu, rb, ctx));
    TableSwitchShows(gpu, rb, ctx, m);
    RunEmpty(m);
    NopRuns([CONTEXT_TO_MEM_IDENTIFIER], m);
    CurrentContextShows(gpu, rb, ctx, m);
    RunsThen(a, a', b, [], m);
    RunsThen(a + b, a' + [], CurrentContext(gpu, rb, ctx), CurrentContextEffects(gpu, rb, ctx), m);
    assert a' + [] == a';
  }
}
