/**
  The ringbuffer in memory: allocating space in it and filling it in place. The
  A3xx and A5xx code share it; they differ in the kind of NOP a wrap leaves behind.
 */
module RingMemory {
  import opened Words
  import opened Pm4
  import opened CommandProcessor
  import opened Adreno

  const RB_DWORDS: nat := 8192

  // ------------------------------------------------------------ allocation

  /** A contiguous run of dwords starting at `start`; `next` is the new write pointer. */
  datatype Space = Space(start: nat, next: nat, wrapped: bool)

  function Sum32(x: nat, y: nat): u32 {
    (x + y) % TWO_32
  }

  // adreno_ringbuffer_allocspace(), in 32-bit arithmetic; None is -ENOSPC.
  function Alloc(next: nat, rptr: nat, dwords: u32): Option<Space> {
    if rptr <= next && Sum32(next, dwords) <= RB_DWORDS - 2 then
      Some(Space(next, Sum32(next, dwords) % RB_DWORDS, false))
    else if rptr <= next && dwords < rptr then
      Some(Space(0, dwords, true))
    else if Sum32(next, dwords) < rptr then
      Some(Space(next, Sum32(next, dwords) % RB_DWORDS, false))
    else None
  }

  // Positions the GPU has yet to read.
  predicate Unread(k: nat, rptr: nat, next: nat) {
    if rptr <= next then rptr <= k < next else rptr <= k < RB_DWORDS || k < next
  }

  /**
    An allocation lies inside the ring exactly when the 32-bit sum did not wrap;
    it then covers no unread dword, loses none, and never makes a full ring look empty.
   */
  lemma AllocIsFree(next: nat, rptr: nat, dwords: u32)
    requires next < RB_DWORDS && rptr < RB_DWORDS && Alloc(next, rptr, dwords).Some?
    ensures var s := Alloc(next, rptr, dwords).value;
            && (s.start + dwords <= RB_DWORDS <==> next + dwords < TWO_32)
            && (next + dwords < TWO_32 ==>
                  && s.next == s.start + dwords < RB_DWORDS
                  && (forall k :: s.start <= k < s.start + dwords ==> !Unread(k, rptr, next))
                  && (forall k :: Unread(k, rptr, next) ==> Unread(k, rptr, s.next))
                  && (s.next == rptr ==> next == rptr && dwords == 0))
  {
  }

  // The longest of the contiguous free runs that are considered; -1 when there is none.
  function Room(next: nat, rptr: nat): int {
    var end, front := RB_DWORDS - 2 - next, rptr - 1;
    if next < rptr then rptr - 1 - next else if end < front then front else end
  }

  // Room is found whenever one contiguous free run is long enough.
  lemma AllocFindsRoom(next: nat, rptr: nat, dwords: u32)
    requires next < RB_DWORDS && rptr < RB_DWORDS && next + dwords < TWO_32
    ensures Alloc(next, rptr, dwords).Some? <==>
      if rptr <= next then next + dwords <= RB_DWORDS - 2 || dwords < rptr else next + dwords < rptr
    ensures Alloc(next, rptr, dwords).Some? <==> dwords <= Room(next, rptr)
  {
  }

  // --------------------------------------------------------------- writing

  // cmds[index++] = ..., packet by packet: `done` is what stands in front of `at` already.
  method PutPacket(buf: array<u32>, ghost from: nat, at: nat, ghost done: seq<Packet>, p: Packet) returns (next: nat)
    requires from <= at && at + 1 + |p.payload| <= buf.Length
    requires Encodable(p) && AllEncodable(done) && buf[from..at] == Encode(done)
    modifies buf
    ensures next == at + 1 + |p.payload|
    ensures AllEncodable(done + [p]) && buf[from..next] == Encode(done + [p])
    ensures forall k :: 0 <= k < at || next <= k < buf.Length ==> buf[k] == old(buf[k])
  {
    hide Header, Encode;
    buf[at] := Header(p);
    next := CopyWords(buf, at + 1, p.payload);
    EncodeConcat(done, [p]);
    EncodeOne(p);
    assert buf[from..next] == buf[from..at] + EncodePacket(p);
    assert buf[from..at] == old(buf[from..at]);
  }

  lemma EncodeOne(p: Packet)
    requires Encodable(p)
    ensures Encode([p]) == EncodePacket(p)
  {
    hide Header;
    assert [p][1..] == [];
  }

  // memcpy() of `words` to `at`.
  method CopyWords(buf: array<u32>, at: nat, words: seq<u32>) returns (next: nat)
    requires at + |words| <= buf.Length
    modifies buf
    ensures next == at + |words|
    ensures buf[at..next] == words
    ensures forall k :: 0 <= k < at || next <= k < buf.Length ==> buf[k] == old(buf[k])
  {
    next := at;
    for i := 0 to |words|
      invariant next == at + i
      invariant buf[at..next] == words[..i]
      invariant forall k :: 0 <= k < at || next <= k < buf.Length ==> buf[k] == old(buf[k])
    {
      buf[next] := words[i];
      next := next + 1;
    }
  }

  method PutPackets(buf: array<u32>, ghost from: nat, at: nat, ghost done: seq<Packet>, ps: seq<Packet>)
      returns (next: nat)
    requires from <= at && at + Dwords(ps) <= buf.Length
    requires AllEncodable(ps) && AllEncodable(done) && buf[from..at] == Encode(done)
    modifies buf
    ensures next == at + Dwords(ps)
    ensures AllEncodable(done + ps) && buf[from..next] == Encode(done + ps)
    ensures forall k :: 0 <= k < at || next <= k < buf.Length ==> buf[k] == old(buf[k])
  {
    hide Encode, Encodable;
    next := at;
    assert done + ps[..0] == done && ps[..0] == [];
    for i := 0 to |ps|
      invariant AllEncodable(done + ps[..i])
      invariant next == at + Dwords(ps[..i]) <= buf.Length
      invariant buf[from..next] == Encode(done + ps[..i])
      invariant forall k :: 0 <= k < at || next <= k < buf.Length ==> buf[k] == old(buf[k])
    {
      DwordsSplit(ps, i);
      next := PutPacket(buf, from, next, done + ps[..i], ps[i]);
      assert done + ps[..i] + [ps[i]] == done + ps[..i + 1];
    }
    assert ps[..|ps|] == ps;
  }

  lemma DwordsSplit(ps: seq<Packet>, i: nat)
    requires i < |ps|
    ensures Dwords(ps[..i + 1]) == Dwords(ps[..i]) + 1 + |ps[i].payload|
    ensures Dwords(ps[..i + 1]) <= Dwords(ps)
  {
    DwordsConcat(ps[..i], [ps[i]]);
    DwordsConcat(ps[..i + 1], ps[i + 1..]);
    assert ps[..i] + [ps[i]] == ps[..i + 1] && ps[..i + 1] + ps[i + 1..] == ps;
    assert [ps[i]][1..] == [];
  }

  lemma NothingEncoded(buf: array<u32>, at: nat)
    requires at <= buf.Length
    ensures AllEncodable([]) && buf[at..at] == Encode([])
  {
  }

  // What stood between `a` and `b` still does.
  lemma Untouched(before: seq<u32>, after: seq<u32>, a: nat, b: nat)
    requires a <= b <= |after| == |before|
    requires forall k :: a <= k < b ==> after[k] == before[k]
    ensures after[a..b] == before[a..b]
  {
  }

  // What stood between `at` and `mid` still does, and the new part follows it.
  lemma Spliced(before: seq<u32>, after: seq<u32>, at: nat, mid: nat, next: nat)
    requires at <= mid <= next <= |after| == |before|
    requires forall k :: at <= k < mid ==> after[k] == before[k]
    ensures after[at..next] == before[at..mid] + after[mid..next]
  {
  }

  lemma ThreeParts(ws: seq<u32>, at: nat, a: nat, b: nat, c: nat)
    requires at <= a <= b <= c <= |ws|
    ensures ws[at..c] == ws[at..a] + ws[a..b] + ws[b..c]
  {
  }

  method PutSubmission(buf: array<u32>, at: nat, head: seq<Packet>, input: seq<u32>, tail: seq<Packet>)
      returns (index: nat)
    requires AllEncodable(head) && AllEncodable(tail)
    requires at + Dwords(head) + |input| + Dwords(tail) <= buf.Length
    modifies buf
    ensures index == Dwords(head) + |input| + Dwords(tail) == |Encode(head) + input + Encode(tail)|
    ensures buf[at..at + index] == Encode(head) + input + Encode(tail)
    ensures forall k :: 0 <= k < at || at + index <= k < buf.Length ==> buf[k] == old(buf[k])
  {
    hide Encode, Dwords;
    EncodedLength(head);
    EncodedLength(tail);
    NothingEncoded(buf, at);
    var a := PutPackets(buf, at, at, [], head);
    assert [] + head == head;
    ghost var first := buf[..];
    var b := CopyWords(buf, a, input);
    Untouched(first, buf[..], at, a);
    ghost var second := buf[..];
    NothingEncoded(buf, b);
    var c := PutPackets(buf, b, b, [], tail);
    assert [] + tail == tail;
    Untouched(second, buf[..], at, a);
    Untouched(second, buf[..], a, b);
    ThreeParts(buf[..], at, a, b, c);
    index := c - at;
  }

  // ------------------------------------------------------------ the object

  // cp_packet(CP_NOP, ...)
  function Nop(legacy: bool, payload: seq<u32>): Packet {
    if legacy then Type3(CP_NOP, payload) else Type7(CP_NOP, payload)
  }

  // The dwords the GPU reads when it goes from `rptr` to `next` around the ring.
  function Around(ring: seq<u32>, rptr: nat, next: nat): seq<u32>
    requires |ring| == RB_DWORDS && rptr < RB_DWORDS && next < RB_DWORDS
  {
    if rptr <= next then ring[rptr..next] else ring[rptr..] + ring[..next]
  }

  /** Of the ring's 8192 dwords the GPU reads those from `rptr` up to `next`, counted modulo the size, in that order. */
  lemma ReadInOrder(ring: seq<u32>, rptr: nat, next: nat, k: nat)
    requires |ring| == 8192 && rptr < 8192 && next < 8192 && k < 8192
    ensures var n, at := (next - rptr) % 8192, (k - rptr) % 8192;
            && |Around(ring, rptr, next)| == n && (Unread(k, rptr, next) <==> at < n)
            && (Unread(k, rptr, next) ==> Around(ring, rptr, next)[at] == ring[k])
  {
  }

  /** What a wrapping allocation puts in front of itself: one NOP over the rest of the ring. */
  function Padding(legacy: bool, ring: seq<u32>, next: nat, s: Space): (pad: seq<Packet>)
    requires |ring| == RB_DWORDS && next < RB_DWORDS - 1
    ensures AllEncodable(pad) && AllQuiet(pad)
  {
    if s.wrapped then [Nop(legacy, ring[next + 1..])] else []
  }

  predicate AllQuiet(ps: seq<Packet>) {
    forall p <- ps :: EffectOf(p).Quiet?
  }

  lemma {:induction false} QuietDoesNothing(ps: seq<Packet>, m: Mode)
    requires AllQuiet(ps)
    ensures Run(ps, m) == [] && EndMode(ps, m) == m
  {
    hide EffectOf;
    if |ps| != 0 {
      QuietDoesNothing(ps[1..], m);
    }
  }

  // What the GPU has read parses, and leaves it in the mode it was in.
  ghost predicate Sound(input: seq<u32>) {
    Parse(input).Some? && EndMode(Parse(input).value, HomeMode) == HomeMode
  }

  // Input behind sound input is read from a packet boundary, in the home mode.
  lemma InputsCompose(before: seq<u32>, pad: seq<Packet>, sub: seq<u32>)
    requires Sound(before) && AllEncodable(pad) && AllQuiet(pad) && Parse(sub).Some?
    ensures var all := Parse(before + Encode(pad) + sub);
            && all.Some?
            && Run(all.value, HomeMode) == Run(Parse(before).value, HomeMode) + Run(Parse(sub).value, HomeMode)
            && EndMode(all.value, HomeMode) == EndMode(Parse(sub).value, HomeMode)
  {
    hide Parse, Run, EndMode, Encode, AllQuiet;
    ParseEncodeThen(pad, sub);
    ParseConcat(before, Encode(pad) + sub);
    assert before + Encode(pad) + sub == before + (Encode(pad) + sub);
    var p, q := Parse(before).value, Parse(sub).value;
    QuietDoesNothing(pad, HomeMode);
    RunConcat(pad, q, HomeMode);
    RunConcat(p, pad + q, HomeMode);
  }

  class Ringbuffer {
    const legacy: bool
    const id: nat
    const record: u64
    const data: array<u32>
    var next: nat  // _wptr
    var wptr: nat
    var timestamp: u32
    var profileIndex: u32
    var active: Option<Context>

    ghost predicate Valid()
      reads this
    {
      data.Length == RB_DWORDS && next < RB_DWORDS - 1 && wptr < RB_DWORDS && profileIndex < 256
    }

    // Everything written and not yet read, in the order the GPU will read it.
    ghost function Pending(rptr: nat): seq<u32>
      requires Valid() && rptr < RB_DWORDS
      reads this, data
    {
      Around(data[..], rptr, next)
    }

    constructor (legacy: bool, id: nat, record: u64)
      ensures Valid() && fresh(data)
      ensures this.legacy == legacy && this.id == id && this.record == record
      ensures next == 0 && wptr == 0 && timestamp == 0 && profileIndex == 0 && active == None
    {
      this.legacy, this.id, this.record := legacy, id, record;
      data := new u32[RB_DWORDS];
      next, wptr, timestamp, profileIndex, active := 0, 0, 0, 0, None;
    }

    method AllocSpace(rptr: nat, dwords: u32) returns (start: Option<nat>)
      requires Valid() && rptr < RB_DWORDS
      modifies this`next, data
      ensures Valid()
      ensures Alloc(old(next), rptr, dwords).None? ==> start == None && next == old(next) && data[..] == old(data[..])
      ensures Alloc(old(next), rptr, dwords).Some? ==>
        var s := Alloc(old(next), rptr, dwords).value;
        && start == Some(s.start) && next == s.next
        && (forall k :: 0 <= k < RB_DWORDS && !(s.wrapped && k == old(next)) ==> data[k] == old(data[k]))
        && (s.wrapped ==> data[old(next)] == Header(Nop(legacy, old(data[next + 1..]))))
    {
      hide Header;
      if rptr <= next {
        if Sum32(next, dwords) <= RB_DWORDS - 2 {
          start := Some(next);
          next := Sum32(next, dwords) % RB_DWORDS;
          return;
        }
        if dwords < rptr {
          data[next] := Header(Nop(legacy, data[next + 1..]));
          start := Some(0);
          next := dwords;
          return;
        }
      }
      if Sum32(next, dwords) < rptr {
        start := Some(next);
        next := Sum32(next, dwords) % RB_DWORDS;
        return;
      }
      start := None;
    }

    /** Allocate `size` dwords, write a submission into them, give back what was not used. */
    method Emplace(head: seq<Packet>, input: seq<u32>, tail: seq<Packet>, size: u32, rptr: nat) returns (ok: bool)
      requires Valid() && rptr < RB_DWORDS && next + size < TWO_32
      requires AllEncodable(head) && AllEncodable(tail) && Dwords(head) + |input| + Dwords(tail) <= size
      modifies this`next, data
      ensures Valid()
      ensures ok <==> Alloc(old(next), rptr, size).Some?
      ensures !ok ==> next == old(next) && data[..] == old(data[..])
      ensures ok ==>
        var s := Alloc(old(next), rptr, size).value;
        && next == s.start + |Encode(head) + input + Encode(tail)|
        && Pending(rptr) == old(Pending(rptr)) + Encode(Padding(legacy, old(data[..]), old(next), s))
             + (Encode(head) + input + Encode(tail))
    {
      hide Header, Encode, Dwords;
      ghost var before, next0 := data[..], next;
      var start := AllocSpace(rptr, size);
      if start.None? {
        return false;
      }
      AllocIsFree(next0, rptr, size);
      var index := PutSubmission(data, start.value, head, input, tail);
      next := next - (size - index);
      FillAppends(legacy, before, data[..], rptr, next0, size, Encode(head) + input + Encode(tail));
      ok := true;
    }
  }

  lemma NoneEncoded()
    ensures AllEncodable([]) && Encode([]) == []
  {
  }

  lemma WrapAppends(before: seq<u32>, after: seq<u32>, rptr: nat, next: nat, words: seq<u32>)
    requires |before| == |after| == RB_DWORDS && |words| < rptr <= next < RB_DWORDS - 1
    requires forall k :: rptr <= k < RB_DWORDS && k != next ==> after[k] == before[k]
    requires after[..|words|] == words
    ensures Around(after, rptr, |words|) == Around(before, rptr, next) + ([after[next]] + before[next + 1..]) + words
  {
    assert after[rptr..next] == before[rptr..next];
    assert after[next + 1..] == before[next + 1..];
    assert after[rptr..] == after[rptr..next] + [after[next]] + after[next + 1..];
  }

  lemma StraightAppends(before: seq<u32>, after: seq<u32>, rptr: nat, next: nat, words: seq<u32>)
    requires |before| == |after| == RB_DWORDS && rptr <= next && next + |words| < RB_DWORDS
    requires forall k :: rptr <= k < next ==> after[k] == before[k]
    requires after[next..next + |words|] == words
    ensures Around(after, rptr, next + |words|) == Around(before, rptr, next) + words
  {
    assert after[rptr..next] == before[rptr..next];
    assert after[rptr..next + |words|] == after[rptr..next] + after[next..next + |words|];
  }

  lemma AheadAppends(before: seq<u32>, after: seq<u32>, rptr: nat, next: nat, words: seq<u32>)
    requires |before| == |after| == RB_DWORDS && next <= next + |words| < rptr < RB_DWORDS
    requires forall k :: 0 <= k < next || rptr <= k < RB_DWORDS ==> after[k] == before[k]
    requires after[next..next + |words|] == words
    ensures Around(after, rptr, next + |words|) == Around(before, rptr, next) + words
  {
    assert after[rptr..] == before[rptr..];
    assert after[..next] == before[..next];
    assert after[..next + |words|] == after[..next] + after[next..next + |words|];
  }

  // Filling an allocation from its start appends to what the GPU will read.
  lemma FillAppends(legacy: bool, before: seq<u32>, after: seq<u32>, rptr: nat, next: nat, dwords: u32, words: seq<u32>)
    requires |before| == |after| == RB_DWORDS && next < RB_DWORDS - 1 && rptr < RB_DWORDS && next + dwords < TWO_32
    requires Alloc(next, rptr, dwords).Some? && |words| <= dwords
    requires var s := Alloc(next, rptr, dwords).value;
             && after[s.start..s.start + |words|] == words
             && (forall k :: 0 <= k < RB_DWORDS && !(s.start <= k < s.start + dwords) && !(s.wrapped && k == next) ==>
                   after[k] == before[k])
             && (s.wrapped ==> after[next] == Header(Nop(legacy, before[next + 1..])))
    ensures var s := Alloc(next, rptr, dwords).value;
            Around(after, rptr, s.start + |words|)
                == Around(before, rptr, next) + Encode(Padding(legacy, before, next, s)) + words
  {
    hide Header, Encode, Around;
    AllocIsFree(next, rptr, dwords);
    NoneEncoded();
    var s := Alloc(next, rptr, dwords).value;
    var pad := Padding(legacy, before, next, s);
    if s.wrapped {
      assert Encodable(pad[0]);
      EncodeOne(pad[0]);
      WrapAppends(before, after, rptr, next, words);
    } else if rptr <= next {
      StraightAppends(before, after, rptr, next, words);
    } else {
      AheadAppends(before, after, rptr, next, words);
    }
    assert Around(before, rptr, next) + [] == Around(before, rptr, next);
  }
}
