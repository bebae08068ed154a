/**
  The memstore: the timestamps and context words that the streams write and that the driver and user space read, slot by
  slot, as the structure both sides agree on.
 */
module Memstore {
  import opened Words
  import opened Pm4
  import opened CommandProcessor
  import opened Adreno
  import opened A5xxStream
  import opened A3xxStream
  import opened PagetableStream
  import A5xxRing
  import A3xxRing

  // struct kgsl_devmemstore, ten dwords
  datatype Slot = Slot(sopTimestamp: u32, pad0: u32, eopTimestamp: u32, pad1: u32, preempted: u32, pad2: u32,
                       refWaitTs: u32, pad3: u32, currentContext: u32, pad4: u32)

  // Eight pages hold 819 of them: one for all, one a context, four for the rings, and some to spare.
  const SLOTS: nat := 819
  const GLOBAL_SLOT: nat := 0
  const FIRST_RING_SLOT: nat := 813

  // GPU memory, dword by dword.
  type Memory = u64 -> u32

  predicate Mapped(gpu: Gpu) {
    gpu.memstore % 4 == 0 && gpu.memstore + 0x8000 <= TWO_64
  }

  // Dword `i` of slot `s`.
  function DwordOf(gpu: Gpu, mem: Memory, s: nat, i: nat): u32
    requires Mapped(gpu) && s < SLOTS && i < 10
  {
    mem(gpu.memstore + s * 40 + 4 * i)
  }

  function SlotAt(gpu: Gpu, mem: Memory, s: nat): Slot
    requires Mapped(gpu) && s < SLOTS
  {
    var d := (i: nat) requires i < 10 => DwordOf(gpu, mem, s, i);
    Slot(d(0), d(1), d(2), d(3), d(4), d(5), d(6), d(7), d(8), d(9))
  }

  function View(gpu: Gpu, mem: Memory): (v: seq<Slot>)
    requires Mapped(gpu)
    ensures |v| == SLOTS
  {
    seq(SLOTS, s requires 0 <= s < SLOTS => SlotAt(gpu, mem, s))
  }

  // ------------------------------------------------- effects on memory

  /** What the effects take from elsewhere: the dwords a register copy stores, and the read pointer. */
  datatype Hardware = Hardware(read: u32 -> seq<u32>, rptr: u32)

  function Written(mem: Memory, a: u64, data: seq<u32>): Memory {
    (x: u64) => DwordAt(a, data, x, mem(x))
  }

  function After(hw: Hardware, mem: Memory, e: Effect): Memory {
    match e
    case MemWrite(a, data) => Written(mem, a, data)
    case EventWrite(_, a, value) => Written(mem, a, [value])
    case RegToMem(source, a) => Written(mem, a, hw.read(source))
    case ReportPointer(a) => Written(mem, a, [hw.rptr])
    case _ => mem
  }

  function AfterAll(hw: Hardware, mem: Memory, es: seq<Effect>): Memory {
    if |es| == 0 then mem else AfterAll(hw, After(hw, mem, es[0]), es[1..])
  }

  lemma {:induction false} AfterConcat(hw: Hardware, mem: Memory, xs: seq<Effect>, ys: seq<Effect>)
    ensures AfterAll(hw, mem, xs + ys) == AfterAll(hw, AfterAll(hw, mem, xs), ys)
  {
    hide After;
    if |xs| == 0 {
      assert xs + ys == ys;
    } else {
      AfterConcat(hw, After(hw, mem, xs[0]), xs[1..], ys);
      assert (xs + ys)[1..] == xs[1..] + ys && (xs + ys)[0] == xs[0];
    }
  }

  predicate Beside(gpu: Gpu, a: u64, dwords: nat) {
    a + 4 * dwords <= gpu.memstore || gpu.memstore + 0x8000 <= a
  }

  // Effects that write nothing into the memstore.
  predicate Outside(hw: Hardware, gpu: Gpu, e: Effect) {
    match e
    case MemWrite(a, data) => Beside(gpu, a, |data|)
    case EventWrite(_, a, _) => Beside(gpu, a, 1)
    case RegToMem(source, a) => Beside(gpu, a, |hw.read(source)|)
    case ReportPointer(a) => Beside(gpu, a, 1)
    case _ => true
  }

  predicate AllOutside(hw: Hardware, gpu: Gpu, es: seq<Effect>) {
    forall e <- es :: Outside(hw, gpu, e)
  }

  lemma WrittenBeside(gpu: Gpu, mem: Memory, a: u64, data: seq<u32>)
    requires Mapped(gpu) && Beside(gpu, a, |data|)
    ensures View(gpu, Written(mem, a, data)) == View(gpu, mem)
  {
    forall s | 0 <= s < SLOTS ensures SlotAt(gpu, Written(mem, a, data), s) == SlotAt(gpu, mem, s) {
    }
  }

  lemma OutsideKeeps(hw: Hardware, gpu: Gpu, mem: Memory, e: Effect)
    requires Mapped(gpu) && Outside(hw, gpu, e)
    ensures View(gpu, After(hw, mem, e)) == View(gpu, mem)
  {
    hide View, Written, Beside;
    match e
    case MemWrite(a, data) => WrittenBeside(gpu, mem, a, data);
    case EventWrite(_, a, value) => WrittenBeside(gpu, mem, a, [value]);
    case RegToMem(source, a) => WrittenBeside(gpu, mem, a, hw.read(source));
    case ReportPointer(a) => WrittenBeside(gpu, mem, a, [hw.rptr]);
    case _ =>
  }

  lemma {:induction false} AllOutsideKeep(hw: Hardware, gpu: Gpu, mem: Memory, es: seq<Effect>)
    requires Mapped(gpu) && AllOutside(hw, gpu, es)
    ensures View(gpu, AfterAll(hw, mem, es)) == View(gpu, mem)
  {
    hide View, After, Outside;
    if |es| != 0 {
      OutsideKeeps(hw, gpu, mem, es[0]);
      AllOutsideKeep(hw, gpu, After(hw, mem, es[0]), es[1..]);
    }
  }

  // ------------------------------------------------ the slots by name

  // A single dword, written to dword `field` of a slot.
  lemma OneDword(gpu: Gpu, mem: Memory, slot: nat, field: nat, value: u32, s: nat, f: nat)
    requires Mapped(gpu) && slot < SLOTS && field < 10 && s < SLOTS && f < 10
    ensures DwordOf(gpu, Written(mem, gpu.memstore + slot * 40 + 4 * field, [value]), s, f)
         == if s == slot && f == field then value else DwordOf(gpu, mem, s, f)
  {
    var a, x := gpu.memstore + slot * 40 + 4 * field, gpu.memstore + s * 40 + 4 * f;
    assert x - a == 4 * (10 * (s - slot) + (f - field));
    if s != slot {
      assert s > slot ==> x - a >= 4;
      assert s < slot ==> x - a <= -4;
    }
  }

  datatype Field = SopTimestamp | EopTimestamp | RefWaitTs | CurrentContext

  function Set(slot: Slot, f: Field, value: u32): Slot {
    match f
    case SopTimestamp => slot.(sopTimestamp := value)
    case EopTimestamp => slot.(eopTimestamp := value)
    case RefWaitTs => slot.(refWaitTs := value)
    case CurrentContext => slot.(currentContext := value)
  }

  function Put(v: seq<Slot>, s: nat, f: Field, value: u32): (w: seq<Slot>)
    requires s < |v|
    ensures |w| == |v|
  {
    v[s := Set(v[s], f, value)]
  }

  function OffsetOf(f: Field): nat {
    match f
    case SopTimestamp => SOPTIMESTAMP
    case EopTimestamp => EOPTIMESTAMP
    case RefWaitTs => REF_WAIT_TS
    case CurrentContext => CURRENT_CONTEXT
  }

  /** The offsets the streams use are those of the fields. */
  lemma FieldWritten(gpu: Gpu, mem: Memory, slot: nat, f: Field, value: u32)
    requires Mapped(gpu) && slot < SLOTS
    ensures View(gpu, Written(mem, MemstoreAddr(gpu, slot, OffsetOf(f)), [value]))
        == Put(View(gpu, mem), slot, f, value)
  {
    var mem' := Written(mem, MemstoreAddr(gpu, slot, OffsetOf(f)), [value]);
    forall s | 0 <= s < SLOTS ensures View(gpu, mem')[s] == Put(View(gpu, mem), slot, f, value)[s] {
      SlotWritten(gpu, mem, slot, f, value, s);
    }
  }

  // A slot all of whose dwords but one are as before.
  lemma SlotSet(gpu: Gpu, mem: Memory, mem': Memory, s: nat, f: Field, value: u32)
    requires Mapped(gpu) && s < SLOTS
    requires forall i: nat :: i < 10 ==>
      DwordOf(gpu, mem', s, i) == if 4 * i == OffsetOf(f) then value else DwordOf(gpu, mem, s, i)
    ensures SlotAt(gpu, mem', s) == Set(SlotAt(gpu, mem, s), f, value)
  {
  }

  lemma SlotSame(gpu: Gpu, mem: Memory, mem': Memory, s: nat)
    requires Mapped(gpu) && s < SLOTS
    requires forall i: nat :: i < 10 ==> DwordOf(gpu, mem', s, i) == DwordOf(gpu, mem, s, i)
    ensures SlotAt(gpu, mem', s) == SlotAt(gpu, mem, s)
  {
  }

  lemma SlotWritten(gpu: Gpu, mem: Memory, slot: nat, f: Field, value: u32, s: nat)
    requires Mapped(gpu) && slot < SLOTS && s < SLOTS
    ensures SlotAt(gpu, Written(mem, MemstoreAddr(gpu, slot, OffsetOf(f)), [value]), s)
         == if s == slot then Set(SlotAt(gpu, mem, s), f, value) else SlotAt(gpu, mem, s)
  {
    assert MemstoreAddr(gpu, slot, OffsetOf(f)) == gpu.memstore + slot * 40 + OffsetOf(f);
    var n: nat := OffsetOf(f) / 4;
    assert OffsetOf(f) == 4 * n && n < 10;
    var mem' := Written(mem, MemstoreAddr(gpu, slot, OffsetOf(f)), [value]);
    hide Written, OffsetOf, Set, SlotAt, DwordOf;
    forall i: nat | i < 10
      ensures DwordOf(gpu, mem', s, i) == if s == slot && i == n then value else DwordOf(gpu, mem, s, i)
    {
      OneDword(gpu, mem, slot, n, value, s, i);
    }
    if s == slot {
      SlotSet(gpu, mem, mem', s, f, value);
    } else {
      SlotSame(gpu, mem, mem', s);
    }
  }

  // ------------------------------------------- what a submission leaves there

  // The slots that exist: a context below 813, one of four rings.
  predicate Known(rb: Ring, ctx: Option<Context>) {
    rb.id < 4 && (ctx.Some? ==> ctx.value.id < 813)
  }

  // One timestamp of the context, if there is one, and one of the ring.
  function Both(v: seq<Slot>, rb: Ring, ctx: Option<Context>, f: Field, timestamp: u32,
      ringTimestamp: u32): (w: seq<Slot>)
    requires Known(rb, ctx) && |v| == SLOTS
    ensures |w| == |v|
  {
    var own := if ctx.Some? then Put(v, ctx.value.id, f, timestamp) else v;
    Put(own, FIRST_RING_SLOT + rb.id, f, ringTimestamp)
  }

  // e stores `value` in a field of a slot.
  predicate Stores(gpu: Gpu, e: Effect, slot: nat, f: Field, value: u32) {
    || e == MemWrite(MemstoreAddr(gpu, slot, OffsetOf(f)), [value])
    || (e.EventWrite? && e.addr == MemstoreAddr(gpu, slot, OffsetOf(f)) && e.value == value)
  }

  lemma StoredOne(hw: Hardware, gpu: Gpu, mem: Memory, e: Effect, slot: nat, f: Field, value: u32)
    requires Mapped(gpu) && slot < SLOTS && Stores(gpu, e, slot, f, value)
    ensures View(gpu, AfterAll(hw, mem, [e])) == Put(View(gpu, mem), slot, f, value)
  {
    AfterOne(hw, mem, e);
    hide View, Written, MemstoreAddr, OffsetOf, AfterAll;
    FieldWritten(gpu, mem, slot, f, value);
  }

  lemma AfterOne(hw: Hardware, mem: Memory, e: Effect)
    ensures AfterAll(hw, mem, [e]) == After(hw, mem, e) && AfterAll(hw, mem, []) == mem
  {
    hide After;
    assert [e][1..] == [];
  }

  // Two stores, the first only for a context.
  lemma StoredBoth(hw: Hardware, gpu: Gpu, mem: Memory, own: seq<Effect>, ring: Effect, rb: Ring, ctx: Option<Context>,
      f: Field, timestamp: u32, ringTimestamp: u32)
    requires Mapped(gpu) && Known(rb, ctx)
    requires if ctx.Some? then |own| == 1 && Stores(gpu, own[0], ctx.value.id, f, timestamp) else own == []
    requires Stores(gpu, ring, FIRST_RING_SLOT + rb.id, f, ringTimestamp)
    ensures View(gpu, AfterAll(hw, mem, own + [ring])) == Both(View(gpu, mem), rb, ctx, f, timestamp, ringTimestamp)
  {
    hide View, AfterAll, Stores, Put;
    AfterConcat(hw, mem, own, [ring]);
    AfterOne(hw, mem, ring);
    if ctx.Some? {
      assert own == [own[0]];
      StoredOne(hw, gpu, mem, own[0], ctx.value.id, f, timestamp);
    }
    StoredOne(hw, gpu, AfterAll(hw, mem, own), ring, FIRST_RING_SLOT + rb.id, f, ringTimestamp);
  }

  lemma BegunStored(hw: Hardware, gpu: Gpu, mem: Memory, rb: Ring, ctx: Option<Context>, timestamp: u32,
      ringTimestamp: u32)
    requires Mapped(gpu) && Known(rb, ctx)
    ensures View(gpu, AfterAll(hw, mem, StartOfPipe(gpu, rb, ctx, timestamp, ringTimestamp)))
         == Both(View(gpu, mem), rb, ctx, SopTimestamp, timestamp, ringTimestamp)
  {
    var own := if ctx.Some? then [MemWrite(MemstoreAddr(gpu, ctx.value.id, SOPTIMESTAMP), [timestamp])] else [];
    hide View, AfterAll, MemstoreAddr, Both;
    StoredBoth(hw, gpu, mem, own, MemWrite(RingMemstoreAddr(gpu, rb, SOPTIMESTAMP), [ringTimestamp]), rb, ctx,
        SopTimestamp, timestamp, ringTimestamp);
  }

  lemma EndedStored(hw: Hardware, gpu: Gpu, mem: Memory, rb: Ring, ctx: Option<Context>, timestamp: u32,
      ringTimestamp: u32)
    requires Mapped(gpu) && Known(rb, ctx)
    ensures View(gpu, AfterAll(hw, mem, EndOfPipeEffects(gpu, rb, ctx, timestamp, ringTimestamp)))
         == Both(View(gpu, mem), rb, ctx, EopTimestamp, timestamp, ringTimestamp)
  {
    var es := EndOfPipeEffects(gpu, rb, ctx, timestamp, ringTimestamp);
    var n := |es| - 1;
    assert es == es[..n] + [es[n]];
    hide View, AfterAll, MemstoreAddr, Both;
    StoredBoth(hw, gpu, mem, es[..n], es[n], rb, ctx, EopTimestamp, timestamp, ringTimestamp);
  }

  function Retired(v: seq<Slot>, j: Job): seq<Slot>
    requires Known(j.rb, j.ctx) && |v| == SLOTS
  {
    Both(Put(v, GLOBAL_SLOT, RefWaitTs, j.sequence), j.rb, j.ctx, EopTimestamp, j.timestamp, j.ringTimestamp)
  }

  lemma ProfileOutside(hw: Hardware, gpu: Gpu, ib: ProfileIb)
    ensures AllOutside(hw, gpu, ProfileEffects(ib))
  {
  }

  lemma RetiredStored(hw: Hardware, j: Job, mem: Memory)
    requires Mapped(j.gpu) && Known(j.rb, j.ctx)
    ensures View(j.gpu, AfterAll(hw, mem, Retire(j))) == Retired(View(j.gpu, mem), j)
  {
    var gpu, ref := j.gpu, MemWrite(MemstoreAddr(j.gpu, MEMSTORE_GLOBAL, REF_WAIT_TS), [j.sequence]);
    var a, b := ProfileEffects(j.post), Maybe(gpu.waitMemWrites, [Other(CP_WAIT_MEM_WRITES, [])]);
    var d := EndOfPipeEffects(gpu, j.rb, j.ctx, j.timestamp, j.ringTimestamp);
    var e := Maybe(IsWfi(j.flags), [Other(CP_WAIT_FOR_IDLE, [])]);
    assert AllOutside(hw, gpu, b) && AllOutside(hw, gpu, e);
    assert Stores(gpu, ref, GLOBAL_SLOT, RefWaitTs, j.sequence);
    ProfileOutside(hw, gpu, j.post);
    hide View, AfterAll, ProfileEffects, EndOfPipeEffects, Stores, Both, Put, AllOutside, Maybe, MemstoreAddr, IsWfi;
    var m1 := AfterAll(hw, mem, a);
    var m2 := AfterAll(hw, m1, b);
    var m3 := AfterAll(hw, m2, [ref]);
    var m4 := AfterAll(hw, m3, d);
    AfterConcat(hw, mem, a, b);
    AfterConcat(hw, mem, a + b, [ref]);
    AfterConcat(hw, mem, a + b + [ref], d);
    AfterConcat(hw, mem, a + b + [ref] + d, e);
    AllOutsideKeep(hw, gpu, mem, a);
    AllOutsideKeep(hw, gpu, m1, b);
    StoredOne(hw, gpu, m2, ref, GLOBAL_SLOT, RefWaitTs, j.sequence);
    EndedStored(hw, gpu, m3, j.rb, j.ctx, j.timestamp, j.ringTimestamp);
    AllOutsideKeep(hw, gpu, m4, e);
  }

  // Everything a submission does, in order, around the effects `xs` of its payload.
  function Whole(j: Job, xs: seq<Effect>): seq<Effect> {
    Strip(PreIbEvents(j.gpu, j.rb, j.ctx)) + ProfileEffects(j.pre)
    + StartOfPipe(j.gpu, j.rb, j.ctx, j.timestamp, j.ringTimestamp) + xs + Retire(j)
    + Maybe(j.gpu.preemption, [Yield(0, 1, 1)])
  }

  lemma WholeSubmission(j: Job, input: seq<u32>)
    requires Parse(input).Some?
    ensures var parsed := Parse(Submission(j, input));
            && parsed.Some?
            && Strip(Run(parsed.value, HomeMode)) == Whole(j, Strip(Run(Parse(input).value, StartMode(j.flags))))
  {
    hide Parse, Run, EndMode, Submission, PreIbEvents, ProfileEffects, StartOfPipe, Retire, Maybe;
    SubmissionMeaning(j, input);
  }

  lemma PreIbOutside(hw: Hardware, gpu: Gpu, rb: Ring, ctx: Option<Context>)
    ensures AllOutside(hw, gpu, Strip(PreIbEvents(gpu, rb, ctx)))
  {
  }

  // The memstore before and behind the payload.
  lemma WholeStored(hw: Hardware, j: Job, mem: Memory, xs: seq<Effect>) returns (m1: Memory)
    requires Mapped(j.gpu) && Known(j.rb, j.ctx)
    ensures View(j.gpu, m1) == Both(View(j.gpu, mem), j.rb, j.ctx, SopTimestamp, j.timestamp, j.ringTimestamp)
    ensures View(j.gpu, AfterAll(hw, mem, Whole(j, xs))) == Retired(View(j.gpu, AfterAll(hw, m1, xs)), j)
  {
    var gpu := j.gpu;
    var a, b := Strip(PreIbEvents(gpu, j.rb, j.ctx)), ProfileEffects(j.pre);
    var c := StartOfPipe(gpu, j.rb, j.ctx, j.timestamp, j.ringTimestamp);
    var d, e := Retire(j), Maybe(gpu.preemption, [Yield(0, 1, 1)]);
    assert AllOutside(hw, gpu, e);
    PreIbOutside(hw, gpu, j.rb, j.ctx);
    ProfileOutside(hw, gpu, j.pre);
    hide View, AfterAll, PreIbEvents, ProfileEffects, StartOfPipe, Retire, Maybe, Both, Retired, AllOutside;
    var ma := AfterAll(hw, mem, a);
    var mb := AfterAll(hw, ma, b);
    m1 := AfterAll(hw, mb, c);
    var m2 := AfterAll(hw, m1, xs);
    var m3 := AfterAll(hw, m2, d);
    AfterConcat(hw, mem, a, b);
    AfterConcat(hw, mem, a + b, c);
    AfterConcat(hw, mem, a + b + c, xs);
    AfterConcat(hw, mem, a + b + c + xs, d);
    AfterConcat(hw, mem, a + b + c + xs + d, e);
    AllOutsideKeep(hw, gpu, mem, a);
    AllOutsideKeep(hw, gpu, ma, b);
    BegunStored(hw, gpu, mb, j.rb, j.ctx, j.timestamp, j.ringTimestamp);
    RetiredStored(hw, j, m2);
    AllOutsideKeep(hw, gpu, m3, e);
  }

  // What the payload of a submission does once it is decoded.
  function Payload(flags: u32, input: seq<u32>): seq<Effect> {
    match Parse(input)
    case None => []
    case Some(ps) => Strip(Run(ps, StartMode(flags)))
  }

  function Decoded(j: Job, input: seq<u32>): seq<Effect> {
    match Parse(Submission(j, input))
    case None => []
    case Some(ps) => Strip(Run(ps, HomeMode))
  }

  lemma DecodedWhole(j: Job, input: seq<u32>)
    requires Parse(input).Some?
    ensures Decoded(j, input) == Whole(j, Payload(j.flags, input))
  {
    hide Parse, Run, Submission, Whole;
    WholeSubmission(j, input);
  }

  lemma AroundPayload(hw: Hardware, j: Job, mem: Memory, input: seq<u32>) returns (m1: Memory)
    requires Mapped(j.gpu) && Known(j.rb, j.ctx) && Parse(input).Some?
    ensures View(j.gpu, m1) == Both(View(j.gpu, mem), j.rb, j.ctx, SopTimestamp, j.timestamp, j.ringTimestamp)
    ensures View(j.gpu, AfterAll(hw, mem, Decoded(j, input)))
         == Retired(View(j.gpu, AfterAll(hw, m1, Payload(j.flags, input))), j)
  {
    hide View, AfterAll, Parse, Whole, Both, Retired, Payload, Decoded;
    DecodedWhole(j, input);
    m1 := WholeStored(hw, j, mem, Payload(j.flags, input));
  }

  /**
    Whatever its payload does elsewhere, a submission leaves its two timestamps, start and end, in the slots of its
    context and of its ring and the sequence number in the global slot, and every other word of the memstore as it was.
   */
  lemma SubmissionStamps(hw: Hardware, j: Job, mem: Memory, input: seq<u32>)
    requires Mapped(j.gpu) && Known(j.rb, j.ctx) && Parse(input).Some? && AllOutside(hw, j.gpu, Payload(j.flags, input))
    ensures View(j.gpu, AfterAll(hw, mem, Decoded(j, input)))
         == Retired(Both(View(j.gpu, mem), j.rb, j.ctx, SopTimestamp, j.timestamp, j.ringTimestamp), j)
  {
    hide View, AfterAll, Parse, Whole, Both, Retired, AllOutside, Payload, Decoded;
    var m1 := AroundPayload(hw, j, mem, input);
    AllOutsideKeep(hw, j.gpu, m1, Payload(j.flags, input));
  }

  // ---------------------------------------------------- a context switch

  function Recorded(v: seq<Slot>, rb: Ring, ctx: Context): (w: seq<Slot>)
    requires rb.id < 4 && |v| == SLOTS
    ensures |w| == |v|
  {
    Put(Put(v, FIRST_RING_SLOT + rb.id, CurrentContext, ctx.id), GLOBAL_SLOT, CurrentContext, ctx.id)
  }

  lemma CurrentStored(hw: Hardware, gpu: Gpu, mem: Memory, rb: Ring, ctx: Context)
    requires Mapped(gpu) && rb.id < 4
    ensures View(gpu, AfterAll(hw, mem, CurrentContextEffects(gpu, rb, ctx)))
         == Recorded(View(gpu, mem), rb, ctx)
  {
    var a, b := MemWrite(RingMemstoreAddr(gpu, rb, CURRENT_CONTEXT), [ctx.id]),
        MemWrite(MemstoreAddr(gpu, MEMSTORE_GLOBAL, CURRENT_CONTEXT), [ctx.id]);
    var c := RegWrite(UCHE_INVALIDATE0_REG, [0x12]);
    assert CurrentContextEffects(gpu, rb, ctx) == [a] + [b] + [c];
    assert Stores(gpu, a, FIRST_RING_SLOT + rb.id, CurrentContext, ctx.id);
    assert Stores(gpu, b, GLOBAL_SLOT, CurrentContext, ctx.id) && AllOutside(hw, gpu, [c]);
    hide View, AfterAll, Stores, Put, AllOutside, MemstoreAddr;
    AfterConcat(hw, mem, [a], [b]);
    AfterConcat(hw, mem, [a] + [b], [c]);
    StoredOne(hw, gpu, mem, a, FIRST_RING_SLOT + rb.id, CurrentContext, ctx.id);
    StoredOne(hw, gpu, AfterAll(hw, mem, [a]), b, GLOBAL_SLOT, CurrentContext, ctx.id);
    AllOutsideKeep(hw, gpu, AfterAll(hw, mem, [a] + [b]), [c]);
  }

  lemma TableOutside(hw: Hardware, gpu: Gpu, rb: Ring, ctx: Context)
    requires Beside(gpu, ScratchTtbr0Addr(gpu, rb.id), 3)
    ensures AllOutside(hw, gpu, TableSwitchEffects(gpu, rb, ctx))
  {
    hide ScratchTtbr0Addr, Beside;
  }

  lemma SwitchPayload(j: Job, active: Option<Context>, ctx: Context)
    ensures var input := A5xxRing.SwitchDwords(j.gpu, j.rb, active, ctx);
            && Parse(input).Some? && Payload(j.flags, input) == ContextSwitchEffects(j.gpu, j.rb, active, ctx)
  {
    hide Parse, A5xxRing.SwitchDwords, ContextSwitchEffects, Run, EndMode, Strip, Stamp;
    SwitchParses(j, active, ctx);
    StripStamp(StartMode(j.flags), ContextSwitchEffects(j.gpu, j.rb, active, ctx));
  }

  lemma SwitchStored(hw: Hardware, gpu: Gpu, mem: Memory, rb: Ring, active: Option<Context>, ctx: Context)
    requires Mapped(gpu) && rb.id < 4 && Beside(gpu, ScratchTtbr0Addr(gpu, rb.id), 3)
    ensures View(gpu, AfterAll(hw, mem, ContextSwitchEffects(gpu, rb, active, ctx)))
         == Recorded(View(gpu, mem), rb, ctx)
  {
    var a, b := Maybe(NeedsTable(gpu, active, ctx), TableSwitchEffects(gpu, rb, ctx)),
        CurrentContextEffects(gpu, rb, ctx);
    TableOutside(hw, gpu, rb, ctx);
    hide TableSwitchEffects, CurrentContextEffects, View, AfterAll, Outside, Recorded, Beside, ScratchTtbr0Addr;
    AfterConcat(hw, mem, a, b);
    AllOutsideKeep(hw, gpu, mem, a);
    CurrentStored(hw, gpu, AfterAll(hw, mem, a), rb, ctx);
  }

  /**
    A context switch, besides its ring's own timestamps, records the new context in the ring's slot and in the global
    one.
   */
  lemma SwitchStamps(hw: Hardware, j: Job, mem: Memory, active: Option<Context>, ctx: Context)
    requires Mapped(j.gpu) && j.rb.id < 4 && j.ctx == None && Beside(j.gpu, ScratchTtbr0Addr(j.gpu, j.rb.id), 3)
    ensures var v := Both(View(j.gpu, mem), j.rb, None, SopTimestamp, j.timestamp, j.ringTimestamp);
            var es := Decoded(j, A5xxRing.SwitchDwords(j.gpu, j.rb, active, ctx));
            View(j.gpu, AfterAll(hw, mem, es)) == Retired(Recorded(v, j.rb, ctx), j)
  {
    var input := A5xxRing.SwitchDwords(j.gpu, j.rb, active, ctx);
    assert Known(j.rb, j.ctx);
    hide *;
    hide View, AfterAll, Parse, Both, Retired, Decoded, Payload, Recorded;
    SwitchPayload(j, active, ctx);
    var m1 := AroundPayload(hw, j, mem, input);
    SwitchStored(hw, j.gpu, m1, j.rb, active, ctx);
  }

  /**
    A ring's words lie inside the memstore, apart from those of every context, of the global slot and of other rings.
   */
  lemma RingSlotApart(gpu: Gpu, rb: Ring, field: nat, slot: nat, rb': Ring, field': nat)
    requires Mapped(gpu) && rb.id < 4 && rb'.id < 4 && slot < 813 && field < 40 && field' < 40
    ensures gpu.memstore <= RingMemstoreAddr(gpu, rb, field) < gpu.memstore + 0x8000
    ensures RingMemstoreAddr(gpu, rb, field) != MemstoreAddr(gpu, slot, field')
    ensures RingMemstoreAddr(gpu, rb, field) == RingMemstoreAddr(gpu, rb', field')
        <==> rb.id == rb'.id && field == field'
  {
    assert RingMemstoreAddr(gpu, rb, field) == gpu.memstore + (rb.id + 813) * 40 + field;
    assert RingMemstoreAddr(gpu, rb', field') == gpu.memstore + (rb'.id + 813) * 40 + field';
    assert MemstoreAddr(gpu, slot, field') == gpu.memstore + slot * 40 + field';
  }

  // ---------------------------------------------------------- the interrupt

  // The writes that interrupt the host.
  function Interrupts(es: seq<Effect>): seq<Effect> {
    if |es| == 0 then []
    else (if es[0].EventWrite? && es[0].event >= 0x8000_0000 then [es[0]] else []) + Interrupts(es[1..])
  }

  lemma {:induction false} InterruptsConcat(xs: seq<Effect>, ys: seq<Effect>)
    ensures Interrupts(xs + ys) == Interrupts(xs) + Interrupts(ys)
  {
    if |xs| == 0 {
      assert xs + ys == ys;
    } else {
      assert (xs + ys)[1..] == xs[1..] + ys && (xs + ys)[0] == xs[0];
      hide Interrupts;
      InterruptsFirst(xs);
      InterruptsFirst(xs + ys);
      InterruptsConcat(xs[1..], ys);
    }
  }

  lemma InterruptsFirst(es: seq<Effect>)
    requires |es| != 0
    ensures Interrupts(es)
        == (if es[0].EventWrite? && es[0].event >= 0x8000_0000 then [es[0]] else []) + Interrupts(es[1..])
  {
  }

  lemma {:induction false} NoInterrupts(es: seq<Effect>)
    requires forall e <- es :: !e.EventWrite?
    ensures Interrupts(es) == []
  {
    if |es| != 0 {
      NoInterrupts(es[1..]);
    }
  }

  // The end of a job is the end-of-pipe timestamp of its context or, without one, of its ring.
  function Ending(gpu: Gpu, rb: Ring, ctx: Option<Context>, timestamp: u32, ringTimestamp: u32): Effect
    requires Mapped(gpu) && Known(rb, ctx)
  {
    match ctx
    case None => EventWrite(0x8000_0004, gpu.memstore + (FIRST_RING_SLOT + rb.id) * 40 + 8, ringTimestamp)
    case Some(c) => EventWrite(0x8000_0004, gpu.memstore + c.id * 40 + 8, timestamp)
  }

  lemma InterruptsOne(e: Effect)
    ensures Interrupts([e]) == if e.EventWrite? && e.event >= 0x8000_0000 then [e] else []
  {
    assert [e][1..] == [];
  }

  lemma EndInterrupts(gpu: Gpu, rb: Ring, ctx: Option<Context>, timestamp: u32, ringTimestamp: u32)
    requires Mapped(gpu) && Known(rb, ctx)
    ensures Interrupts(EndOfPipeEffects(gpu, rb, ctx, timestamp, ringTimestamp))
         == [Ending(gpu, rb, ctx, timestamp, ringTimestamp)]
  {
    var es := EndOfPipeEffects(gpu, rb, ctx, timestamp, ringTimestamp);
    assert es[0] == Ending(gpu, rb, ctx, timestamp, ringTimestamp) && es[0].event == 0x8000_0004;
    assert if ctx.Some? then es == [es[0]] + [es[1]] && es[1].event == 4 else es == [es[0]];
    hide Ending, EndOfPipeEffects, MemstoreAddr, Interrupts;
    InterruptsOne(es[0]);
    if ctx.Some? {
      InterruptsOne(es[1]);
      InterruptsConcat([es[0]], [es[1]]);
    }
  }

  lemma RetireInterrupts(j: Job)
    requires Mapped(j.gpu) && Known(j.rb, j.ctx)
    ensures Interrupts(Retire(j)) == [Ending(j.gpu, j.rb, j.ctx, j.timestamp, j.ringTimestamp)]
  {
    var gpu := j.gpu;
    var a, e := ProfileEffects(j.post) + Maybe(gpu.waitMemWrites, [Other(CP_WAIT_MEM_WRITES, [])])
        + [MemWrite(MemstoreAddr(gpu, MEMSTORE_GLOBAL, REF_WAIT_TS), [j.sequence])],
      Maybe(IsWfi(j.flags), [Other(CP_WAIT_FOR_IDLE, [])]);
    var d := EndOfPipeEffects(gpu, j.rb, j.ctx, j.timestamp, j.ringTimestamp);
    assert Retire(j) == a + d + e;
    NoInterrupts(a);
    NoInterrupts(e);
    hide Interrupts, EndOfPipeEffects, Ending, MemstoreAddr, ProfileEffects, Retire;
    EndInterrupts(gpu, j.rb, j.ctx, j.timestamp, j.ringTimestamp);
    InterruptsConcat(a, d);
    InterruptsConcat(a + d, e);
  }

  /** Besides those of its payload, a submission raises one interrupt: with the timestamp that its job has ended. */
  lemma SubmissionInterrupts(j: Job, input: seq<u32>)
    requires Mapped(j.gpu) && Known(j.rb, j.ctx) && Parse(input).Some?
    ensures Interrupts(Decoded(j, input))
         == Interrupts(Payload(j.flags, input)) + [Ending(j.gpu, j.rb, j.ctx, j.timestamp, j.ringTimestamp)]
  {
    hide *;
    hide Decoded, Payload, Retire, Front, Interrupts, Ending;
    var a, xs, d, e := Front(j), Payload(j.flags, input), Retire(j), Maybe(j.gpu.preemption, [Yield(0, 1, 1)]);
    DecodedParts(j, input);
    FrontSilent(j);
    RetireInterrupts(j);
    InterruptsConcat(a, xs);
    InterruptsConcat(a + xs, d);
    InterruptsConcat(a + xs + d, e);
  }

  function Front(j: Job): seq<Effect> {
    Strip(PreIbEvents(j.gpu, j.rb, j.ctx)) + ProfileEffects(j.pre)
    + StartOfPipe(j.gpu, j.rb, j.ctx, j.timestamp, j.ringTimestamp)
  }

  lemma FrontSilent(j: Job)
    ensures Interrupts(Front(j)) == [] && Interrupts(Maybe(j.gpu.preemption, [Yield(0, 1, 1)])) == []
  {
    hide Interrupts;
    NoInterrupts(Front(j));
    NoInterrupts(Maybe(j.gpu.preemption, [Yield(0, 1, 1)]));
  }

  lemma DecodedParts(j: Job, input: seq<u32>)
    requires Parse(input).Some?
    ensures Decoded(j, input)
         == Front(j) + Payload(j.flags, input) + Retire(j) + Maybe(j.gpu.preemption, [Yield(0, 1, 1)])
  {
    hide Parse, Retire, PreIbEvents, ProfileEffects, StartOfPipe, Decoded, Payload, Maybe;
    DecodedWhole(j, input);
  }

  // ------------------------------------------------------- a command object

  /** The buffer of a command writes nothing but the two counters of kernel profiling. */
  lemma CommandOutside(hw: Hardware, gpu: Gpu, prof: Profiling, ibs: seq<IbNode>, flags: u32)
    requires Beside(gpu, prof.started, |hw.read(if gpu.wideCounter then 0x4008_04D2 else 0x4D2)|)
    requires Beside(gpu, prof.retired, |hw.read(if gpu.wideCounter then 0x4008_04D2 else 0x4D2)|)
    ensures AllOutside(hw, gpu, CommandEffects(gpu, prof, ibs, flags))
  {
    hide Beside, ListedIbs, KeptIbs;
    KeptOutside(hw, gpu, ListedIbs(ibs, flags), flags);
  }

  lemma {:induction false} KeptOutside(hw: Hardware, gpu: Gpu, ibs: seq<IbNode>, flags: u32)
    ensures AllOutside(hw, gpu, KeptIbs(ibs, flags))
  {
    if |ibs| != 0 {
      KeptOutside(hw, gpu, ibs[1..], flags);
    }
  }

  // ----------------------------------------------------------------- A3xx

  // The addresses the A3xx streams send have 32 bits.
  predicate MappedLow(gpu: Gpu) {
    gpu.memstore % 4 == 0 && gpu.memstore + 0x8000 <= TWO_32
  }

  lemma LowAddress(gpu: Gpu, slot: nat, field: nat)
    requires MappedLow(gpu) && slot < SLOTS && field < 40
    ensures Lo(MemstoreAddr(gpu, slot, field)) == MemstoreAddr(gpu, slot, field)
  {
  }

  lemma StampsLow(j: Job3)
    requires MappedLow(j.gpu) && Known(j.rb, j.ctx)
    ensures StartedEffects(j) == Maybe(j.pre.addr != 0, [RunIb(Lo(j.pre.addr), j.pre.dwords)])
        + StartOfPipe(j.gpu, j.rb, j.ctx, j.timestamp, j.ringTimestamp)
    ensures EndOfPipeEffects3(j) == EndOfPipeEffects(j.gpu, j.rb, j.ctx, j.timestamp, j.ringTimestamp)
  {
    hide MemstoreAddr;
    LowAddress(j.gpu, FIRST_RING_SLOT + j.rb.id, SOPTIMESTAMP);
    LowAddress(j.gpu, FIRST_RING_SLOT + j.rb.id, EOPTIMESTAMP);
    if j.ctx.Some? {
      LowAddress(j.gpu, j.ctx.value.id, SOPTIMESTAMP);
      LowAddress(j.gpu, j.ctx.value.id, EOPTIMESTAMP);
    }
  }

  function Payload3(flags: u32, input: seq<u32>): seq<Effect> {
    match Parse(input)
    case None => []
    case Some(ps) => Strip(Run(ps, PayloadMode(flags)))
  }

  function Decoded3(j: Job3, input: seq<u32>): seq<Effect> {
    match Parse(Submission3(j, input))
    case None => []
    case Some(ps) => Strip(Run(ps, HomeMode))
  }

  // The effects of a submission around those of its payload.
  function Front3(j: Job3): seq<Effect> {
    Strip(FixupEvents(j)) + Maybe(j.pre.addr != 0, [RunIb(Lo(j.pre.addr), j.pre.dwords)])
  }

  function Back3(j: Job3): seq<Effect> {
    [Other(CP_EVENT_WRITE, [HLSQ_FLUSH]), Other(CP_WAIT_FOR_IDLE, [0])]
    + Maybe(j.post.addr != 0, [RunIb(Lo(j.post.addr), j.post.dwords)])
  }

  function Last3(j: Job3): seq<Effect> {
    [Other(CP_SET_CONSTANT, [KERNEL_GROUP_X, 0])] + Maybe(IsWfi(j.flags), [Other(CP_WAIT_FOR_IDLE, [0])])
  }

  lemma DecodedWhole3(j: Job3, input: seq<u32>)
    requires MappedLow(j.gpu) && Known(j.rb, j.ctx) && Parse(input).Some?
    ensures Decoded3(j, input)
         == Front3(j) + StartOfPipe(j.gpu, j.rb, j.ctx, j.timestamp, j.ringTimestamp) + Payload3(j.flags, input)
            + Back3(j) + EndOfPipeEffects(j.gpu, j.rb, j.ctx, j.timestamp, j.ringTimestamp) + Last3(j)
  {
    hide *;
    hide Decoded3, Payload3, StartedEffects, Retire3, FixupEvents, Front3, StartOfPipe, Back3, EndOfPipeEffects, Last3;
    DecodedParts3(j, input);
    PartsLow(j);
  }

  lemma DecodedParts3(j: Job3, input: seq<u32>)
    requires Parse(input).Some?
    ensures Decoded3(j, input) == Strip(FixupEvents(j)) + StartedEffects(j) + Payload3(j.flags, input) + Retire3(j)
  {
    hide Parse, Run, EndMode, Submission3, FixupEvents, StartedEffects, Retire3, PayloadMode, AfterFixup, AfterPayload3;
    SubmissionMeaning3(j, input);
  }

  lemma PartsLow(j: Job3)
    requires MappedLow(j.gpu) && Known(j.rb, j.ctx)
    ensures Strip(FixupEvents(j)) + StartedEffects(j)
         == Front3(j) + StartOfPipe(j.gpu, j.rb, j.ctx, j.timestamp, j.ringTimestamp)
    ensures Retire3(j) == Back3(j) + EndOfPipeEffects(j.gpu, j.rb, j.ctx, j.timestamp, j.ringTimestamp) + Last3(j)
  {
    StampsLow(j);
    hide FixupEvents, Strip, StartedEffects, EndOfPipeEffects3, EndOfPipeEffects, StartOfPipe, IsWfi, Maybe;
  }

  lemma AroundPayload3(hw: Hardware, j: Job3, mem: Memory, input: seq<u32>) returns (mb: Memory)
    requires MappedLow(j.gpu) && Known(j.rb, j.ctx) && Parse(input).Some?
    ensures View(j.gpu, mb) == Both(View(j.gpu, mem), j.rb, j.ctx, SopTimestamp, j.timestamp, j.ringTimestamp)
    ensures View(j.gpu, AfterAll(hw, mem, Decoded3(j, input)))
         == Both(View(j.gpu, AfterAll(hw, mb, Payload3(j.flags, input))), j.rb, j.ctx, EopTimestamp, j.timestamp,
                j.ringTimestamp)
  {
    var gpu := j.gpu;
    var a, b, c := Front3(j), StartOfPipe(gpu, j.rb, j.ctx, j.timestamp, j.ringTimestamp), Payload3(j.flags, input);
    var d, e, f := Back3(j), EndOfPipeEffects(gpu, j.rb, j.ctx, j.timestamp, j.ringTimestamp), Last3(j);
    assert AllOutside(hw, gpu, a) && AllOutside(hw, gpu, d) && AllOutside(hw, gpu, f);
    hide View, AfterAll, Parse, StartOfPipe, EndOfPipeEffects, Front3, Back3, Last3, Payload3, Decoded3, Both,
        AllOutside;
    DecodedWhole3(j, input);
    var ma := AfterAll(hw, mem, a);
    mb := AfterAll(hw, ma, b);
    var mc := AfterAll(hw, mb, c);
    var md := AfterAll(hw, mc, d);
    var me := AfterAll(hw, md, e);
    AfterConcat(hw, mem, a, b);
    AfterConcat(hw, mem, a + b, c);
    AfterConcat(hw, mem, a + b + c, d);
    AfterConcat(hw, mem, a + b + c + d, e);
    AfterConcat(hw, mem, a + b + c + d + e, f);
    AllOutsideKeep(hw, gpu, mem, a);
    BegunStored(hw, gpu, ma, j.rb, j.ctx, j.timestamp, j.ringTimestamp);
    AllOutsideKeep(hw, gpu, mc, d);
    EndedStored(hw, gpu, md, j.rb, j.ctx, j.timestamp, j.ringTimestamp);
    AllOutsideKeep(hw, gpu, me, f);
  }

  /** Likewise on A3xx: the timestamps of the context and the ring, and nothing else. */
  lemma SubmissionStamps3(hw: Hardware, j: Job3, mem: Memory, input: seq<u32>)
    requires MappedLow(j.gpu) && Known(j.rb, j.ctx) && Parse(input).Some?
    requires AllOutside(hw, j.gpu, Payload3(j.flags, input))
    ensures var v := Both(View(j.gpu, mem), j.rb, j.ctx, SopTimestamp, j.timestamp, j.ringTimestamp);
            View(j.gpu, AfterAll(hw, mem, Decoded3(j, input)))
                == Both(v, j.rb, j.ctx, EopTimestamp, j.timestamp, j.ringTimestamp)
  {
    hide View, AfterAll, Parse, Payload3, Decoded3, Both, AllOutside;
    var mb := AroundPayload3(hw, j, mem, input);
    AllOutsideKeep(hw, j.gpu, mb, Payload3(j.flags, input));
  }

  lemma SwitchPayload3(j: Job3, dev: A3xxRing.Legacy, active: Option<Context>, ctx: Context)
    ensures var input := A3xxRing.SwitchDwords3(dev, j.rb, active, ctx);
            && Parse(input).Some?
            && Payload3(j.flags, input) == ContextSwitchEffects3(dev.gpu, j.rb, dev.setstate, active, ctx)
  {
    hide Parse, Encode, ContextSwitch3, ContextSwitchEffects3, Run, EndMode, Strip, Stamp, PayloadMode;
    ParseEncode(ContextSwitch3(dev.gpu, j.rb, dev.setstate, active, ctx));
    ContextSwitchShows3(dev.gpu, j.rb, dev.setstate, active, ctx, PayloadMode(j.flags));
    StripStamp(PayloadMode(j.flags), ContextSwitchEffects3(dev.gpu, j.rb, dev.setstate, active, ctx));
  }

  lemma SwitchStored3(hw: Hardware, gpu: Gpu, mem: Memory, rb: Ring, setstate: u64, active: Option<Context>,
      ctx: Context)
    requires MappedLow(gpu) && rb.id < 4
    ensures View(gpu, AfterAll(hw, mem, ContextSwitchEffects3(gpu, rb, setstate, active, ctx)))
         == Recorded(View(gpu, mem), rb, ctx)
  {
    var table := Maybe(NeedsTable(gpu, active, ctx), TableSwitchEffects3(setstate, ctx.pagetable.ttbr0));
    var a, b := MemWrite(RingMemstoreAddr(gpu, rb, CURRENT_CONTEXT), [ctx.id]),
        MemWrite(MemstoreAddr(gpu, MEMSTORE_GLOBAL, CURRENT_CONTEXT), [ctx.id]);
    var c := RegWrite(UCHE_CACHE_INVALIDATE0_REG, [0, 0x9000_0000]);
    LowAddress(gpu, FIRST_RING_SLOT + rb.id, CURRENT_CONTEXT);
    LowAddress(gpu, GLOBAL_SLOT, CURRENT_CONTEXT);
    assert ContextSwitchEffects3(gpu, rb, setstate, active, ctx) == table + [a] + [b] + [c];
    assert Stores(gpu, a, FIRST_RING_SLOT + rb.id, CurrentContext, ctx.id);
    assert Stores(gpu, b, GLOBAL_SLOT, CurrentContext, ctx.id) && AllOutside(hw, gpu, [c])
        && AllOutside(hw, gpu, table);
    hide View, AfterAll, Stores, Put, AllOutside, MemstoreAddr, ContextSwitchEffects3, TableSwitchEffects3, NeedsTable;
    var m1 := AfterAll(hw, mem, table);
    AfterConcat(hw, mem, table, [a]);
    AfterConcat(hw, mem, table + [a], [b]);
    AfterConcat(hw, mem, table + [a] + [b], [c]);
    AllOutsideKeep(hw, gpu, mem, table);
    StoredOne(hw, gpu, m1, a, FIRST_RING_SLOT + rb.id, CurrentContext, ctx.id);
    StoredOne(hw, gpu, AfterAll(hw, m1, [a]), b, GLOBAL_SLOT, CurrentContext, ctx.id);
    AllOutsideKeep(hw, gpu, AfterAll(hw, mem, table + [a] + [b]), [c]);
  }

  /** A context switch on A3xx records the new context in the same two slots. */
  lemma SwitchStamps3(hw: Hardware, j: Job3, mem: Memory, dev: A3xxRing.Legacy, active: Option<Context>, ctx: Context)
    requires MappedLow(j.gpu) && j.rb.id < 4 && j.ctx == None && dev.gpu == j.gpu
    ensures var v := Both(View(j.gpu, mem), j.rb, None, SopTimestamp, j.timestamp, j.ringTimestamp);
            var es := Decoded3(j, A3xxRing.SwitchDwords3(dev, j.rb, active, ctx));
            View(j.gpu, AfterAll(hw, mem, es))
                == Both(Recorded(v, j.rb, ctx), j.rb, None, EopTimestamp, j.timestamp, j.ringTimestamp)
  {
    var input := A3xxRing.SwitchDwords3(dev, j.rb, active, ctx);
    assert Known(j.rb, j.ctx);
    hide *;
    hide View, AfterAll, Parse, Both, Decoded3, Payload3, Recorded, A3xxRing.SwitchDwords3;
    SwitchPayload3(j, dev, active, ctx);
    var mb := AroundPayload3(hw, j, mem, input);
    SwitchStored3(hw, j.gpu, mb, j.rb, dev.setstate, active, ctx);
  }

  /** And one interrupt. */
  lemma SubmissionInterrupts3(j: Job3, input: seq<u32>)
    requires MappedLow(j.gpu) && Known(j.rb, j.ctx) && Parse(input).Some?
    ensures Interrupts(Decoded3(j, input))
         == Interrupts(Payload3(j.flags, input)) + [Ending(j.gpu, j.rb, j.ctx, j.timestamp, j.ringTimestamp)]
  {
    assert Mapped(j.gpu);
    hide *;
    hide Decoded3, Payload3, StartOfPipe, EndOfPipeEffects, Front3, Back3, Last3, Interrupts, Ending;
    var a := Front3(j) + StartOfPipe(j.gpu, j.rb, j.ctx, j.timestamp, j.ringTimestamp);
    var c, d := Payload3(j.flags, input), Back3(j);
    var e, f := EndOfPipeEffects(j.gpu, j.rb, j.ctx, j.timestamp, j.ringTimestamp), Last3(j);
    Silent3(j);
    DecodedWhole3(j, input);
    EndInterrupts(j.gpu, j.rb, j.ctx, j.timestamp, j.ringTimestamp);
    InterruptsAround(a, c, d, e, f);
  }

  lemma InterruptsAround(a: seq<Effect>, c: seq<Effect>, d: seq<Effect>, e: seq<Effect>, f: seq<Effect>)
    requires Interrupts(a) == Interrupts(d) == Interrupts(f) == []
    ensures Interrupts(a + c + d + e + f) == Interrupts(c) + Interrupts(e)
  {
    hide Interrupts;
    InterruptsConcat(a, c);
    InterruptsConcat(a + c, d);
    InterruptsConcat(a + c + d, e);
    InterruptsConcat(a + c + d + e, f);
  }

  lemma Silent3(j: Job3)
    ensures Interrupts(Front3(j) + StartOfPipe(j.gpu, j.rb, j.ctx, j.timestamp, j.ringTimestamp)) == []
    ensures Interrupts(Back3(j)) == [] && Interrupts(Last3(j)) == []
  {
    hide Interrupts;
    NoInterrupts(Front3(j) + StartOfPipe(j.gpu, j.rb, j.ctx, j.timestamp, j.ringTimestamp));
    NoInterrupts(Back3(j));
    NoInterrupts(Last3(j));
  }
}
