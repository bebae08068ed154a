/**
  The A3xx ringbuffer operations, in place on the ring: each one adds exactly the
  stream that A3xxStream gives a meaning to.
 */
module A3xxRing {
  import opened Words
  import opened Pm4
  import opened CommandProcessor
  import opened Adreno
  import opened A3xxStream
  import opened RingMemory

  /** What the streams take from the device: the power-on fixup and the IB of NOPs. */
  datatype Legacy = Legacy(gpu: Gpu, fixup: ProfileIb, setstate: u64)

  function SwitchDwords3(dev: Legacy, rb: Ring, active: Option<Context>, ctx: Context): (ws: seq<u32>)
    ensures |ws| <= 64
  {
    SwitchSize3(dev.gpu, rb, dev.setstate, active, ctx);
    EncodedLength(ContextSwitch3(dev.gpu, rb, dev.setstate, active, ctx));
    Encode(ContextSwitch3(dev.gpu, rb, dev.setstate, active, ctx))
  }

  // One turn of the IB loop: a bare NOP header goes in front of an IB that is skipped.
  method PutIb3(buf: array<u32>, at: nat, ib: IbNode, flags: u32) returns (next: nat)
    requires at + 4 <= buf.Length
    modifies buf
    ensures at <= next <= at + 4
    ensures buf[at..next] == IbWords3(ib, flags)
    ensures forall k :: 0 <= k < at || next <= k < buf.Length ==> buf[k] == old(buf[k])
  {
    hide Header, IsSkipped;
    next := at;
    if IsSkipped(ib, flags) {
      buf[next] := NopHeader3(3);
      next := next + 1;
    }
    ghost var before, mid := buf[..], next;
    next := CopyWords(buf, next, EncodePacket(Ib3(ib.addr, IbDwordCount3(ib))));
    Spliced(before, buf[..], at, mid, next);
  }

  lemma NextIb3(ibs: seq<IbNode>, i: nat, flags: u32)
    requires i < |ibs|
    ensures IbDwords3(ibs[i..], flags) == IbWords3(ibs[i], flags) + IbDwords3(ibs[i + 1..], flags)
  {
    hide IbWords3;
    assert ibs[i..][1..] == ibs[i + 1..];
  }

  lemma NoIbs3(ibs: seq<IbNode>, flags: u32)
    ensures ibs[0..] == ibs && IbDwords3(ibs[|ibs|..], flags) == []
  {
  }

  method PutIbs3(buf: array<u32>, at: nat, ibs: seq<IbNode>, flags: u32) returns (next: nat)
    requires at + 4 * |ibs| <= buf.Length
    modifies buf
    ensures at <= next <= at + 4 * |ibs|
    ensures buf[at..next] == IbDwords3(ibs, flags)
    ensures forall k :: 0 <= k < at || next <= k < buf.Length ==> buf[k] == old(buf[k])
  {
    hide IbWords3, IbDwords3;
    NoIbs3(ibs, flags);
    next := at;
    for i := 0 to |ibs|
      invariant at <= next <= at + 4 * i
      invariant buf[at..next] + IbDwords3(ibs[i..], flags) == IbDwords3(ibs, flags)
      invariant forall k :: 0 <= k < at || next <= k < buf.Length ==> buf[k] == old(buf[k])
    {
      ghost var before, mid, words, rest := buf[..], next, IbWords3(ibs[i], flags), IbDwords3(ibs[i + 1..], flags);
      NextIb3(ibs, i, flags);
      next := PutIb3(buf, next, ibs[i], flags);
      Spliced(before, buf[..], at, mid, next);
      assert before[at..mid] + (words + rest) == (before[at..mid] + words) + rest;
    }
  }

  /** The buffer submitcmd() fills: four dwords and four for each listed IB are enough. */
  method BuildCommand3(ibs: seq<IbNode>, flags: u32) returns (cmds: array<u32>, index: nat)
    ensures fresh(cmds) && cmds.Length == A3XX_COMMAND_DWORDS + 4 * |ListedIbs(ibs, flags)|
    ensures index <= cmds.Length && cmds[..index] == Command3(ibs, flags)
  {
    hide Encode, Dwords, IbDwords3, Mark;
    var list := ListedIbs(ibs, flags);
    cmds := new u32[A3XX_COMMAND_DWORDS + 4 * |list|];
    var start, end := Mark(START_IB_IDENTIFIER), Mark(END_IB_IDENTIFIER);
    MarkSize(START_IB_IDENTIFIER);
    MarkSize(END_IB_IDENTIFIER);
    NothingEncoded(cmds, 0);
    var a := PutPackets(cmds, 0, 0, [], start);
    assert [] + start == start;
    ghost var first := cmds[..];
    var b := PutIbs3(cmds, a, list, flags);
    Untouched(first, cmds[..], 0, a);
    ghost var second := cmds[..];
    NothingEncoded(cmds, b);
    index := PutPackets(cmds, b, b, [], end);
    assert [] + end == end;
    Untouched(second, cmds[..], 0, a);
    Untouched(second, cmds[..], a, b);
    ThreeParts(cmds[..], 0, a, b, index);
  }

  /**
    a3xx_ringbuffer_addcmds(): on success the GPU's future input grows by exactly one
    submission and is rung at once; on failure it is untouched.
   */
  method AddCmds3(rb: Ringbuffer, dev: Legacy, ctx: Option<Context>, flags: u32, input: seq<u32>, timestamp: u32,
                  pre: ProfileIb, post: ProfileIb, detached: bool, faulted: bool, rptr: nat)
    returns (status: Status, doorbell: Option<nat>)
    requires rb.Valid() && rptr < RB_DWORDS && RB_DWORDS + A3XX_SUBMIT_MAX + |input| < TWO_32
    requires detached ==> ctx.Some?
    modifies rb`next, rb`wptr, rb`timestamp, rb.data
    ensures rb.Valid()
    ensures status ==
      if detached then NoEntry
      else if faulted then Proto
      else if Alloc(old(rb.next), rptr, A3XX_SUBMIT_MAX + |input|).None? then NoSpace
      else Ok
    ensures rb.timestamp == if detached || faulted then old(rb.timestamp) else (old(rb.timestamp) + 1) % TWO_32
    ensures status != Ok ==>
      rb.next == old(rb.next) && rb.data[..] == old(rb.data[..]) && rb.wptr == old(rb.wptr) && doorbell == None
    ensures status == Ok ==>
      var s := Alloc(old(rb.next), rptr, A3XX_SUBMIT_MAX + |input|).value;
      var job := Job3(dev.gpu, Ring(rb.id, rb.record), ctx, flags, timestamp, rb.timestamp, pre, post, dev.fixup);
      && rb.wptr == rb.next && doorbell == Some(rb.next)
      && rb.Pending(rptr) == old(rb.Pending(rptr)) + Encode(Padding(rb.legacy, old(rb.data[..]), old(rb.next), s))
                             + Submission3(job, input)
  {
    hide Header, Encode, EffectOf, Alloc, Around, Head3, Tail3, Dwords;
    if detached {
      return NoEntry, None;
    }
    if faulted {
      return Proto, None;
    }
    rb.timestamp := (rb.timestamp + 1) % TWO_32;
    var job := Job3(dev.gpu, Ring(rb.id, rb.record), ctx, flags, timestamp, rb.timestamp, pre, post, dev.fixup);
    HeadSize3(job);
    TailSize3(job);
    var placed := rb.Emplace(Head3(job), input, Tail3(job), A3XX_SUBMIT_MAX + |input|, rptr);
    if !placed {
      return NoSpace, None;
    }
    rb.wptr := rb.next;
    status, doorbell := Ok, Some(rb.next);
  }

  /** a3xx_drawctxt_switch(): whether the switch was queued or not, the new context becomes the active one. */
  method SwitchContext3(rb: Ringbuffer, dev: Legacy, ctx: Context, detached: bool, dying: bool, faulted: bool,
      rptr: nat)
    returns (status: Status, queued: bool)
    requires rb.Valid() && rptr < RB_DWORDS
    modifies rb`next, rb`wptr, rb`timestamp, rb`active, rb.data
    ensures rb.Valid()
    ensures status == if old(rb.active) != Some(ctx) && (detached || dying) then NoEntry else Ok
    ensures rb.active == if status == Ok then Some(ctx) else old(rb.active)
    ensures queued <==>
      && status == Ok && old(rb.active) != Some(ctx) && !faulted
      && Alloc(old(rb.next), rptr,
          A3XX_SUBMIT_MAX + |SwitchDwords3(dev, Ring(rb.id, rb.record), old(rb.active), ctx)|).Some?
    ensures rb.timestamp ==
      if status == Ok && old(rb.active) != Some(ctx) && !faulted then (old(rb.timestamp) + 1) % TWO_32
      else old(rb.timestamp)
    ensures !queued ==> rb.next == old(rb.next) && rb.data[..] == old(rb.data[..]) && rb.wptr == old(rb.wptr)
    ensures queued ==>
      var input := SwitchDwords3(dev, Ring(rb.id, rb.record), old(rb.active), ctx);
      var s := Alloc(old(rb.next), rptr, A3XX_SUBMIT_MAX + |input|).value;
      var job := Job3(dev.gpu, Ring(rb.id, rb.record), None, NOTPROTECTED, 0, rb.timestamp, NoProfile, NoProfile,
          dev.fixup);
      && rb.wptr == rb.next
      && rb.Pending(rptr) == old(rb.Pending(rptr)) + Encode(Padding(rb.legacy, old(rb.data[..]), old(rb.next), s))
                             + Submission3(job, input)
  {
    hide Header, Encode, EffectOf, Submission3, Alloc, Around, SwitchDwords3;
    if rb.active == Some(ctx) {
      return Ok, false;
    }
    if detached || dying {
      return NoEntry, false;
    }
    var input := SwitchDwords3(dev, Ring(rb.id, rb.record), rb.active, ctx);
    var result, _ := AddCmds3(rb, dev, None, NOTPROTECTED, input, 0, NoProfile, NoProfile, false, faulted, rptr);
    status, queued := Ok, result == Ok;
    rb.active := Some(ctx);
  }
}
