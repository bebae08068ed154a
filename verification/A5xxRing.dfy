/**
  The A5xx ringbuffer operations, in place on the ring: each one adds exactly the
  stream that A5xxStream gives a meaning to.
 */
module A5xxRing {
  import opened Words
  import opened Pm4
  import opened CommandProcessor
  import opened Adreno
  import opened A5xxStream
  import opened RingMemory

  // ------------------------------------------------------------ the object

  const SHADOW_RPTR: nat := 0

  function WhereAmI(gpu: Gpu, id: nat): Packet {
    Op(CP_WHERE_AM_I, Address(Add64(gpu.scratch, id * 32 + SHADOW_RPTR)))
  }

  /** The request makes the command processor report its read pointer to the first dword of the ring's own shadow. */
  lemma RequestReports(gpu: Gpu, id: nat, m: Mode)
    ensures Run([WhereAmI(gpu, id)], m) == [Event(m, ReportPointer((gpu.scratch + 32 * id) % TWO_64))]
    ensures EndMode([WhereAmI(gpu, id)], m) == m
  {
    AddressReadsBack(Add64(gpu.scratch, id * 32));
    RunSingle(WhereAmI(gpu, id), m, ReportPointer(Add64(gpu.scratch, id * 32)));
  }

  // The counter behind the interrupt-storm detection, shared by all rings.
  class Device {
    var sequence: u32

    constructor ()
      ensures sequence == 0
    {
      sequence := 0;
    }
  }

  // Without preemption a submission is followed by a request to report the read pointer.
  ghost predicate Synced(gpu: Gpu, id: nat, x: seq<u32>, y: seq<u32>) {
    if gpu.preemption then y == x
    else exists pad: seq<Packet> ::
      AllEncodable(pad) && AllQuiet(pad) && y == x + Encode(pad) + EncodePacket(WhereAmI(gpu, id))
  }

  // Where the next allocation starts once the request to report the read pointer, if it finds room, is behind `next`.
  function AfterSync(gpu: Gpu, next: nat, rptr: nat): nat {
    if gpu.preemption then next
    else match Alloc(next, rptr, 3) case None => next case Some(s) => s.start + 3
  }

  // The write position behind a submission, or the old one when there is no room for it.
  function Behind(next: nat, rptr: nat, job: Job, input: seq<u32>): nat
    requires A5XX_SUBMIT_MAX + |input| < TWO_32
  {
    match Alloc(next, rptr, A5XX_SUBMIT_MAX + |input|)
    case None => next
    case Some(s) => s.start + |Submission(job, input)|
  }

  // Where the GPU may have come to on its way from `rptr` to `end`.
  predicate Between(rptr': nat, rptr: nat, end: nat) {
    rptr' == end || (rptr' < RB_DWORDS && Unread(rptr', rptr, end))
  }

  /**
    a5xx_ringbuffer_addcmds() ignores what a5xx_ringbuffer_submit() returns, and need not look: without preemption a
    submission leaves at least 22 of the dwords it asked for, so the request to report the read pointer always finds
    its three, however far the GPU has come meanwhile, and every submission is published.
   */
  lemma RequestFits(next: nat, rptr: nat, job: Job, input: seq<u32>, rptr': nat)
    requires next < RB_DWORDS - 1 && rptr < RB_DWORDS && RB_DWORDS + A5XX_SUBMIT_MAX + |input| < TWO_32
    requires !job.gpu.preemption && Alloc(next, rptr, A5XX_SUBMIT_MAX + |input|).Some?
    requires Between(rptr', rptr, Behind(next, rptr, job, input))
    ensures Behind(next, rptr, job, input) < RB_DWORDS - 1 && Alloc(Behind(next, rptr, job, input), rptr', 3).Some?
  {
    hide Submission;
    SubmissionFits(job, input);
    AllocIsFree(next, rptr, A5XX_SUBMIT_MAX + |input|);
  }

  // The 32 dwords on the stack of rb_context_switch() suffice.
  function SwitchDwords(gpu: Gpu, rb: Ring, active: Option<Context>, ctx: Context): (ws: seq<u32>)
    ensures |ws| <= 32
    ensures |ws| == if NeedsTable(gpu, active, ctx) then 30 else 12
  {
    SwitchSize(gpu, rb, active, ctx);
    EncodedLength(ContextSwitch(gpu, rb, active, ctx));
    Encode(ContextSwitch(gpu, rb, active, ctx))
  }

  lemma SwitchSize(gpu: Gpu, rb: Ring, active: Option<Context>, ctx: Context)
    ensures Dwords(ContextSwitch(gpu, rb, active, ctx)) == if NeedsTable(gpu, active, ctx) then 30 else 12
  {
    hide Dwords, NeedsTable, TableSwitch, CurrentContext;
    var need, b := NeedsTable(gpu, active, ctx), [Op(CP_NOP, [CONTEXT_TO_MEM_IDENTIFIER])];
    TableSwitchSize(gpu, rb, ctx);
    WhenSize(true, b[0]);
    CurrentContextSize(gpu, rb, ctx);
    DwordsConcat(When(need, TableSwitch(gpu, rb, ctx)), b);
    DwordsConcat(When(need, TableSwitch(gpu, rb, ctx)) + b, CurrentContext(gpu, rb, ctx));
  }

  lemma CurrentContextSize(gpu: Gpu, rb: Ring, ctx: Context)
    ensures Dwords(CurrentContext(gpu, rb, ctx)) == 10
  {
    hide Lo, Hi, MemstoreAddr, RingMemstoreAddr, Encodable, AllEncodable;
    assert Sum([4, 4, 2]) == 10;
    hide Dwords, Sum;
    ListSize(CurrentContext(gpu, rb, ctx), [4, 4, 2]);
  }

  lemma TableSwitchSize(gpu: Gpu, rb: Ring, ctx: Context)
    ensures Dwords(TableSwitch(gpu, rb, ctx)) == 18
  {
    hide Lo, Hi, ScratchTtbr0Addr, Encodable, AllEncodable;
    assert Sum([4, 1, 1, 2]) == 8 && Sum([6, 1, 1, 2]) == 10;
    hide Dwords, Sum;
    ListSize(UpdateTable(ctx), [4, 1, 1, 2]);
    ListSize(RecordTable(gpu, rb, ctx), [6, 1, 1, 2]);
    DwordsConcat(UpdateTable(ctx), RecordTable(gpu, rb, ctx));
  }

  // One turn of the IB loop: a bare NOP header goes in front of an IB that is skipped.
  method PutIb(buf: array<u32>, at: nat, ib: IbNode, flags: u32) returns (next: nat)
    requires at + 5 <= buf.Length
    modifies buf
    ensures at <= next <= at + 5
    ensures buf[at..next] == IbWords(ib, flags)
    ensures forall k :: 0 <= k < at || next <= k < buf.Length ==> buf[k] == old(buf[k])
  {
    hide Header, IsSkipped;
    next := at;
    if IsSkipped(ib, flags) {
      buf[next] := NopHeader(4);
      next := next + 1;
    }
    ghost var before, mid := buf[..], next;
    next := CopyWords(buf, next, EncodePacket(IbPacket(ib.addr, IbDwordCount(ib))));
    Spliced(before, buf[..], at, mid, next);
  }

  lemma NextIb(ibs: seq<IbNode>, i: nat, flags: u32)
    requires i < |ibs|
    ensures IbDwords(ibs[i..], flags) == IbWords(ibs[i], flags) + IbDwords(ibs[i + 1..], flags)
  {
    hide IbWords;
    assert ibs[i..][1..] == ibs[i + 1..];
  }

  lemma NoIbs(ibs: seq<IbNode>, flags: u32)
    ensures ibs[0..] == ibs && IbDwords(ibs[|ibs|..], flags) == []
  {
  }

  method PutIbs(buf: array<u32>, at: nat, ibs: seq<IbNode>, flags: u32) returns (next: nat)
    requires at + 5 * |ibs| <= buf.Length
    modifies buf
    ensures at <= next <= at + 5 * |ibs|
    ensures buf[at..next] == IbDwords(ibs, flags)
    ensures forall k :: 0 <= k < at || next <= k < buf.Length ==> buf[k] == old(buf[k])
  {
    hide IbWords, IbDwords;
    NoIbs(ibs, flags);
    next := at;
    for i := 0 to |ibs|
      invariant at <= next <= at + 5 * i
      invariant buf[at..next] + IbDwords(ibs[i..], flags) == IbDwords(ibs, flags)
      invariant forall k :: 0 <= k < at || next <= k < buf.Length ==> buf[k] == old(buf[k])
    {
      ghost var before, mid, words, rest := buf[..], next, IbWords(ibs[i], flags), IbDwords(ibs[i + 1..], flags);
      NextIb(ibs, i, flags);
      next := PutIb(buf, next, ibs[i], flags);
      Spliced(before, buf[..], at, mid, next);
      assert before[at..mid] + (words + rest) == (before[at..mid] + words) + rest;
    }
  }

  // What the submission of a command buffer allocates.
  function CommandSpace(gpu: Gpu, prof: Profiling, ibs: seq<IbNode>, flags: u32): (n: nat)
    ensures n <= A5XX_SUBMIT_MAX + A5XX_COMMAND_DWORDS + 5 * |ibs|
  {
    CommandFits(gpu, prof, ibs, flags);
    A5XX_SUBMIT_MAX + |Command(gpu, prof, ibs, flags)|
  }

  function BehindCommand(next: nat, rptr: nat, job: Job, prof: Profiling, ibs: seq<IbNode>): nat
    requires A5XX_SUBMIT_MAX + A5XX_COMMAND_DWORDS + 5 * |ibs| < TWO_32
  {
    CommandFits(job.gpu, prof, ibs, job.flags);
    Behind(next, rptr, job, Command(job.gpu, prof, ibs, job.flags))
  }

  /** The buffer submitcmd() fills: 32 dwords and five for each listed IB are enough. */
  method BuildCommand(gpu: Gpu, prof: Profiling, ibs: seq<IbNode>, flags: u32) returns (cmds: array<u32>, index: nat)
    ensures fresh(cmds) && cmds.Length == A5XX_COMMAND_DWORDS + 5 * |ListedIbs(ibs, flags)|
    ensures index <= cmds.Length && cmds[..index] == Command(gpu, prof, ibs, flags)
  {
    hide Encode, BeforeIbs, AfterIbs, Dwords, IbDwords;
    var list := ListedIbs(ibs, flags);
    cmds := new u32[A5XX_COMMAND_DWORDS + 5 * |list|];
    BeforeIbsSize(gpu, prof, flags);
    AfterIbsSize(gpu, prof, flags);
    NothingEncoded(cmds, 0);
    var a := PutPackets(cmds, 0, 0, [], BeforeIbs(gpu, prof, flags));
    assert [] + BeforeIbs(gpu, prof, flags) == BeforeIbs(gpu, prof, flags);
    ghost var first := cmds[..];
    var b := PutIbs(cmds, a, list, flags);
    Untouched(first, cmds[..], 0, a);
    ghost var second := cmds[..];
    NothingEncoded(cmds, b);
    index := PutPackets(cmds, b, b, [], AfterIbs(gpu, prof, flags));
    assert [] + AfterIbs(gpu, prof, flags) == AfterIbs(gpu, prof, flags);
    Untouched(second, cmds[..], 0, a);
    Untouched(second, cmds[..], a, b);
    ThreeParts(cmds[..], 0, a, b, index);
  }

  /** a5xx_ringbuffer_submit(); `current` says that no switch is going on and this is the current ring. */
  method Submit(rb: Ringbuffer, gpu: Gpu, rptr: nat, sync: bool, current: bool)
      returns (ok: bool, doorbell: Option<nat>)
    requires rb.Valid() && rptr < RB_DWORDS
    modifies rb`next, rb`wptr, rb.data
    ensures rb.Valid()
    ensures ok <==> !sync || Alloc(old(rb.next), rptr, 3).Some?
    ensures !ok || !sync ==> rb.next == old(rb.next) && rb.data[..] == old(rb.data[..])
    ensures !ok ==> rb.wptr == old(rb.wptr) && doorbell == None
    ensures ok ==> rb.wptr == rb.next && doorbell == if current then Some(rb.next) else None
    ensures ok && sync ==>
      var s := Alloc(old(rb.next), rptr, 3).value;
      && rb.next == s.start + 3
      && rb.Pending(rptr) == old(rb.Pending(rptr)) + Encode(Padding(rb.legacy, old(rb.data[..]), old(rb.next), s))
                               + EncodePacket(WhereAmI(gpu, rb.id))
  {
    hide Header, Encode, Alloc, Around;
    doorbell := None;
    if sync {
      EncodeOne(WhereAmI(gpu, rb.id));
      NothingEncoded(rb.data, 0);
      DwordsOne(WhereAmI(gpu, rb.id));
      ok := rb.Emplace([WhereAmI(gpu, rb.id)], [], [], 3, rptr);
      if !ok {
        return;
      }
      assert Encode([WhereAmI(gpu, rb.id)]) + [] + Encode([]) == EncodePacket(WhereAmI(gpu, rb.id));
    }
    if current {
      doorbell := Some(rb.next);
    }
    rb.wptr := rb.next;
    ok := true;
  }

  lemma DwordsOne(p: Packet)
    ensures Dwords([p]) == 1 + |p.payload| && Dwords([]) == 0
  {
    assert [p][1..] == [];
  }

  /**
    a5xx_ringbuffer_addcmds(): on success the GPU's future input grows by exactly
    one submission (behind a NOP when the ring wraps); on failure it is untouched.
   */
  method AddCmds(rb: Ringbuffer, gpu: Gpu, dev: Device, ctx: Option<Context>, flags: u32, input: seq<u32>,
      timestamp: u32, pre: ProfileIb, post: ProfileIb, detached: bool, faulted: bool, rptr: nat, current: bool)
    returns (status: Status, doorbell: Option<nat>)
    requires rb.Valid() && rptr < RB_DWORDS && RB_DWORDS + A5XX_SUBMIT_MAX + |input| < TWO_32
    requires detached ==> ctx.Some?
    modifies rb`next, rb`wptr, rb`timestamp, rb.data, dev
    ensures rb.Valid()
    ensures status ==
      if detached then NoEntry
      else if faulted then Proto
      else if Alloc(old(rb.next), rptr, A5XX_SUBMIT_MAX + |input|).None? then NoSpace
      else Ok
    ensures rb.timestamp == if detached || faulted then old(rb.timestamp) else (old(rb.timestamp) + 1) % TWO_32
    ensures status != Ok ==>
      && rb.next == old(rb.next) && rb.data[..] == old(rb.data[..]) && rb.wptr == old(rb.wptr)
      && dev.sequence == old(dev.sequence) && doorbell == None
    ensures status == Ok ==>
      var s := Alloc(old(rb.next), rptr, A5XX_SUBMIT_MAX + |input|).value;
      var job := Job(gpu, Ring(rb.id, rb.record), ctx, flags, timestamp, rb.timestamp, pre, post, dev.sequence);
      && dev.sequence == (old(dev.sequence) + 1) % TWO_32
      && var end := Behind(old(rb.next), rptr, job, input);
      && rb.next == AfterSync(gpu, end, rptr)
      && rb.wptr == rb.next && doorbell == (if current then Some(rb.next) else None)
      && Synced(gpu, rb.id,
                old(rb.Pending(rptr)) + Encode(Padding(rb.legacy, old(rb.data[..]), old(rb.next), s))
                    + Submission(job, input),
                rb.Pending(rptr))
  {
    hide Header, Encode, EffectOf, Alloc, Around, Head, Tail, Dwords;
    status, doorbell := Ok, None;
    if detached {
      return NoEntry, None;
    }
    if faulted {
      return Proto, None;
    }
    rb.timestamp := (rb.timestamp + 1) % TWO_32;
    var sequence := (dev.sequence + 1) % TWO_32;
    var job := Job(gpu, Ring(rb.id, rb.record), ctx, flags, timestamp, rb.timestamp, pre, post, sequence);
    HeadSize(job);
    TailSize(job);
    var placed := rb.Emplace(Head(job), input, Tail(job), A5XX_SUBMIT_MAX + |input|, rptr);
    if !placed {
      return NoSpace, None;
    }
    dev.sequence := sequence;
    ghost var appended, ring, next := rb.Pending(rptr), rb.data[..], rb.next;
    if !gpu.preemption {
      RequestFits(old(rb.next), rptr, job, input, rptr);
    }
    var ok;
    ok, doorbell := Submit(rb, gpu, rptr, !gpu.preemption, current);
    if ok && !gpu.preemption {
      ghost var pad := Padding(rb.legacy, ring, next, Alloc(next, rptr, 3).value);
      assert rb.Pending(rptr) == appended + Encode(pad) + EncodePacket(WhereAmI(gpu, rb.id));
    }
  }

  /**
    a5xx_drawctxt_switch(): whether the switch was queued or not, the new context
    becomes the active one.
   */
  method SwitchContext(rb: Ringbuffer, gpu: Gpu, dev: Device, ctx: Context, detached: bool, dying: bool, faulted: bool,
                       rptr: nat, current: bool)
    returns (status: Status, queued: bool, doorbell: Option<nat>)
    requires rb.Valid() && rptr < RB_DWORDS
    modifies rb`next, rb`wptr, rb`timestamp, rb`active, rb.data, dev
    ensures rb.Valid()
    ensures status == if old(rb.active) != Some(ctx) && (detached || dying) then NoEntry else Ok
    ensures rb.active == if status == Ok then Some(ctx) else old(rb.active)
    ensures queued <==>
      && status == Ok && old(rb.active) != Some(ctx) && !faulted
      && Alloc(old(rb.next), rptr,
          A5XX_SUBMIT_MAX + |SwitchDwords(gpu, Ring(rb.id, rb.record), old(rb.active), ctx)|).Some?
    ensures rb.timestamp ==
      if status == Ok && old(rb.active) != Some(ctx) && !faulted then (old(rb.timestamp) + 1) % TWO_32
      else old(rb.timestamp)
    ensures !queued ==>
      && rb.next == old(rb.next) && rb.data[..] == old(rb.data[..]) && rb.wptr == old(rb.wptr)
      && dev.sequence == old(dev.sequence) && doorbell == None
    ensures queued ==>
      var input := SwitchDwords(gpu, Ring(rb.id, rb.record), old(rb.active), ctx);
      var s := Alloc(old(rb.next), rptr, A5XX_SUBMIT_MAX + |input|).value;
      var job := Job(gpu, Ring(rb.id, rb.record), None, NOTPROTECTED, 0, rb.timestamp, NoProfile, NoProfile,
          dev.sequence);
      && dev.sequence == (old(dev.sequence) + 1) % TWO_32
      && var end := Behind(old(rb.next), rptr, job, input);
      && rb.next == AfterSync(gpu, end, rptr)
      && rb.wptr == rb.next && doorbell == (if current then Some(rb.next) else None)
      && Synced(gpu, rb.id,
             old(rb.Pending(rptr)) + Encode(Padding(rb.legacy, old(rb.data[..]), old(rb.next), s))
                 + Submission(job, input),
             rb.Pending(rptr))
  {
    hide Header, Encode, EffectOf, Submission, Alloc, Around, SwitchDwords, Synced;
    if rb.active == Some(ctx) {
      return Ok, false, None;
    }
    if detached || dying {
      return NoEntry, false, None;
    }
    var input := SwitchDwords(gpu, Ring(rb.id, rb.record), rb.active, ctx);
    var result;
    result, doorbell := AddCmds(rb, gpu, dev, None, NOTPROTECTED, input, 0, NoProfile, NoProfile, false, faulted, rptr,
        current);
    status, queued := Ok, result == Ok;
    rb.active := Some(ctx);
  }

  // `after` is `before` and one more submission, give or take what does nothing.
  ghost predicate Extended(gpu: Gpu, id: nat, before: seq<u32>, job: Job, input: seq<u32>, after: seq<u32>) {
    exists pad: seq<Packet> ::
      AllEncodable(pad) && AllQuiet(pad) && Synced(gpu, id, before + Encode(pad) + Submission(job, input), after)
  }

  /** a5xx_ringbuffer_submitcmd(): the context switch, if one is due and fits, and then the IBs. */
  method SubmitCommand(rb: Ringbuffer, gpu: Gpu, dev: Device, ctx: Context, prof: Profiling, ibs: seq<IbNode>,
      flags: u32, timestamp: u32, pre: ProfileIb, post: ProfileIb, detached: bool, dying: bool, faulted: bool,
                       rptr: nat, current: bool)
    returns (status: Status, doorbells: seq<nat>, ghost queued: bool, ghost switched: seq<u32>, ghost switchJob: Job,
             ghost at: nat)
    requires rb.Valid() && rptr < RB_DWORDS && RB_DWORDS + A5XX_SUBMIT_MAX + A5XX_COMMAND_DWORDS + 5 * |ibs| < TWO_32
    requires prof.index == rb.profileIndex
    modifies rb`next, rb`wptr, rb`timestamp, rb`profileIndex, rb`active, rb.data, dev
    ensures rb.Valid()
    ensures rb.profileIndex
        == (old(rb.profileIndex) + if IsUserProfile(flags) && prof.slots.Some? then 2 else 0) % PROFILE_IB_SLOTS
    ensures rb.active == if old(rb.active) != Some(ctx) && (detached || dying) then old(rb.active) else Some(ctx)
    ensures status ==
      if detached || (dying && old(rb.active) != Some(ctx)) then NoEntry
      else if faulted then Proto
      else if Alloc(at, rptr, CommandSpace(gpu, prof, ibs, flags)).None? then NoSpace
      else Ok
    ensures queued <==>
      && old(rb.active) != Some(ctx) && !detached && !dying && !faulted
      && Alloc(old(rb.next), rptr,
          A5XX_SUBMIT_MAX + |SwitchDwords(gpu, Ring(rb.id, rb.record), old(rb.active), ctx)|).Some?
    ensures !queued ==> switched == old(rb.Pending(rptr)) && at == old(rb.next)
    ensures queued ==>
      var input := SwitchDwords(gpu, Ring(rb.id, rb.record), old(rb.active), ctx);
      && at == AfterSync(gpu, Behind(old(rb.next), rptr, switchJob, input), rptr)
      && Extended(gpu, rb.id, old(rb.Pending(rptr)), switchJob,
          SwitchDwords(gpu, Ring(rb.id, rb.record), old(rb.active), ctx), switched)
      && switchJob == Job(gpu, Ring(rb.id, rb.record), None, NOTPROTECTED, 0, (old(rb.timestamp) + 1) % TWO_32,
          NoProfile, NoProfile,
                          (old(dev.sequence) + 1) % TWO_32)
    ensures status != Ok ==> 
      && rb.Pending(rptr) == switched && rb.next == at && rb.wptr == (if queued then at else old(rb.wptr))
      && doorbells == if queued && current then [at] else []
    ensures status == Ok ==>
      var job := Job(gpu, Ring(rb.id, rb.record), Some(ctx), flags, timestamp, rb.timestamp, pre, post, dev.sequence);
      && rb.next == rb.wptr == AfterSync(gpu, BehindCommand(at, rptr, job, prof, ibs), rptr)
      && doorbells == (if !current then [] else if queued then [at, rb.next] else [rb.next])
      && Extended(gpu, rb.id, switched, job, Command(gpu, prof, ibs, flags), rb.Pending(rptr))
  {
    hide Header, Encode, EffectOf, Submission, Alloc, Around, SwitchDwords, Synced, Command;
    var cmds, index := BuildCommand(gpu, prof, ibs, flags);
    if IsUserProfile(flags) && prof.slots.Some? {
      rb.profileIndex := (rb.profileIndex + 1) % PROFILE_IB_SLOTS;
      rb.profileIndex := (rb.profileIndex + 1) % PROFILE_IB_SLOTS;
    }
    var rung;
    status, queued, rung := SwitchContext(rb, gpu, dev, ctx, detached, dying, faulted, rptr, current);
    doorbells := if rung.Some? then [rung.value] else [];
    switched, at := rb.Pending(rptr), rb.next;
    switchJob := Job(gpu, Ring(rb.id, rb.record), None, NOTPROTECTED, 0, rb.timestamp, NoProfile, NoProfile,
        dev.sequence);
    if status != Ok {
      return;
    }
    status, rung := AddCmds(rb, gpu, dev, Some(ctx), flags, cmds[..index], timestamp, pre, post, detached, faulted,
        rptr, current);
    doorbells := doorbells + if rung.Some? then [rung.value] else [];
  }

  ghost predicate KeepsMode(ps: seq<Packet>, m: Mode) {
    EndMode(ps, m) == m
  }

  /**
    Submissions compose: a ring whose unread input is sound stays so under any
    submission whose payload ends in the mode it started in, and the GPU does the new
    submission's work right after the old one's.
   */
  lemma SubmissionsCompose(gpu: Gpu, id: nat, before: seq<u32>, job: Job, input: seq<u32>, after: seq<u32>)
    requires gpu.preemption && Sound(before) && Extended(gpu, id, before, job, input, after)
    requires Parse(input).Some? && KeepsMode(Parse(input).value, Mode(!IsNotProtected(job.flags), IsSecure(job.flags)))
    ensures Sound(after) && Parse(Submission(job, input)).Some?
    ensures Run(Parse(after).value, HomeMode)
         == Run(Parse(before).value, HomeMode) + Run(Parse(Submission(job, input)).value, HomeMode)
  {
    hide Parse, Run, EndMode, Encode, Submission, EffectOf, AllQuiet;
    var pad: seq<Packet> :| AllEncodable(pad) && AllQuiet(pad)
        && Synced(gpu, id, before + Encode(pad) + Submission(job, input), after);
    SubmissionMeaning(job, input);
    InputsCompose(before, pad, Submission(job, input));
  }

  /**
    Without preemption each submission moreover reports the read pointer, into its ring's own shadow, behind its work.
   */
  lemma SyncedCompose(gpu: Gpu, id: nat, before: seq<u32>, job: Job, input: seq<u32>, after: seq<u32>)
    requires !gpu.preemption && Sound(before) && Extended(gpu, id, before, job, input, after)
    requires Parse(input).Some? && KeepsMode(Parse(input).value, Mode(!IsNotProtected(job.flags), IsSecure(job.flags)))
    ensures Sound(after) && Parse(Submission(job, input)).Some?
    ensures Run(Parse(after).value, HomeMode)
         == Run(Parse(before).value, HomeMode) + Run(Parse(Submission(job, input)).value, HomeMode)
            + [Event(HomeMode, ReportPointer((gpu.scratch + 32 * id) % TWO_64))]
  {
    hide Parse, Run, EndMode, Encode, Submission, EffectOf, AllQuiet, WhereAmI, EncodePacket, Encodable;
    var pad: seq<Packet> :| AllEncodable(pad) && AllQuiet(pad)
        && Synced(gpu, id, before + Encode(pad) + Submission(job, input), after);
    SubmissionMeaning(job, input);
    InputsCompose(before, pad, Submission(job, input));
    ThenRequest(gpu, id, before + Encode(pad) + Submission(job, input), after);
  }

  lemma ThenRequest(gpu: Gpu, id: nat, x: seq<u32>, after: seq<u32>)
    requires !gpu.preemption && Sound(x) && Synced(gpu, id, x, after)
    ensures Sound(after)
    ensures Run(Parse(after).value, HomeMode)
         == Run(Parse(x).value, HomeMode) + [Event(HomeMode, ReportPointer((gpu.scratch + 32 * id) % TWO_64))]
  {
    assert Encodable(WhereAmI(gpu, id));
    hide Parse, Run, EndMode, Encode, EffectOf, AllQuiet, WhereAmI, EncodePacket, Encodable;
    var pad: seq<Packet> :| AllEncodable(pad) && AllQuiet(pad)
        && after == x + Encode(pad) + EncodePacket(WhereAmI(gpu, id));
    RequestParses(gpu, id);
    InputsCompose(x, pad, EncodePacket(WhereAmI(gpu, id)));
  }

  lemma RequestParses(gpu: Gpu, id: nat)
    ensures var parsed := Parse(EncodePacket(WhereAmI(gpu, id)));
            && parsed == Some([WhereAmI(gpu, id)]) && EndMode(parsed.value, HomeMode) == HomeMode
            && Run(parsed.value, HomeMode) == [Event(HomeMode, ReportPointer((gpu.scratch + 32 * id) % TWO_64))]
  {
    assert Encodable(WhereAmI(gpu, id));
    hide Parse, Run, EndMode, Encode, EffectOf, WhereAmI, EncodePacket, Encodable;
    EncodeOne(WhereAmI(gpu, id));
    ParseEncode([WhereAmI(gpu, id)]);
    RequestReports(gpu, id, HomeMode);
  }

  // ------------------------------------- a switch refused, its command placed

  /**
    When a full ring drops a context switch and yet takes the command behind it: exactly if the longest free
    run is long enough for the one and too short for the other. The read pointer may have moved in between.
   */
  lemma SwitchRefused(gpu: Gpu, rb: Ring, active: Option<Context>, ctx: Context, prof: Profiling, ibs: seq<IbNode>,
      flags: u32, next: nat, rptr: nat, rptr': nat)
    requires next < RB_DWORDS - 1 && rptr < RB_DWORDS && rptr' < RB_DWORDS
    requires RB_DWORDS + A5XX_SUBMIT_MAX + A5XX_COMMAND_DWORDS + 5 * |ibs| < TWO_32
    ensures
      && Alloc(next, rptr, A5XX_SUBMIT_MAX + |SwitchDwords(gpu, rb, active, ctx)|).None?
      && Alloc(next, rptr', CommandSpace(gpu, prof, ibs, flags)).Some?
      <==>
      && Room(next, rptr) < (if NeedsTable(gpu, active, ctx) then 94 else 76)
      && CommandSpace(gpu, prof, ibs, flags) <= Room(next, rptr')
  {
    hide Alloc, Room, SwitchDwords, CommandSpace, NeedsTable;
    AllocFindsRoom(next, rptr, A5XX_SUBMIT_MAX + |SwitchDwords(gpu, rb, active, ctx)|);
    AllocFindsRoom(next, rptr', CommandSpace(gpu, prof, ibs, flags));
  }

  // A command of one IB and no profiling asks for 80 dwords.
  lemma SmallCommand(gpu: Gpu, prof: Profiling, ib: IbNode, flags: u32)
    requires !IsSkip(flags) && !IsSkipped(ib, flags) && !IsUserProfile(flags) && !IsKernelProfile(flags)
    ensures CommandSpace(gpu, prof, [ib], flags) == 80
  {
    var before, after := BeforeIbs(gpu, prof, flags), AfterIbs(gpu, prof, flags);
    assert ListedIbs([ib], flags) == [ib] && [ib][1..] == [];
    assert IbDwords([ib], flags) == IbWords(ib, flags) + [] && |IbWords(ib, flags)| == 4;
    assert before == [Op(CP_NOP, [START_IB_IDENTIFIER])];
    assert after == [Op(CP_SET_RENDER_MODE, [0, 0, 0, 0, 0]), Op(CP_YIELD_ENABLE, [1]),
        Op(CP_NOP, [END_IB_IDENTIFIER])];
    assert Sum([2]) == 2 && Sum([6, 2, 2]) == 10;
    hide Dwords, Sum, Encode, IbWords, BeforeIbs, AfterIbs, AllEncodable;
    ListSize(before, [2]);
    ListSize(after, [6, 2, 2]);
    EncodedLength(before);
    EncodedLength(after);
  }

  /**
    The read pointer 50 dwords into a ring filled up to dword 8100: a switch of pagetables is refused, a small command
    is not.
   */
  lemma BusyRingDropsSwitch(gpu: Gpu, rb: Ring, active: Option<Context>, ctx: Context, prof: Profiling, ib: IbNode,
      flags: u32)
    requires NeedsTable(gpu, active, ctx)
    requires !IsSkip(flags) && !IsSkipped(ib, flags) && !IsUserProfile(flags) && !IsKernelProfile(flags)
    ensures Alloc(8100, 50, A5XX_SUBMIT_MAX + |SwitchDwords(gpu, rb, active, ctx)|).None?
    ensures Alloc(8100, 50, CommandSpace(gpu, prof, [ib], flags)).Some?
  {
    hide Alloc, SwitchDwords, CommandSpace;
    SmallCommand(gpu, prof, ib, flags);
    SwitchRefused(gpu, rb, active, ctx, prof, [ib], flags, 8100, 50, 50);
  }
}
