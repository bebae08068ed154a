/**
  What the command processor does with a packet, as far as the driver's streams
  use it: the effects of a packet list in order, each with the protection and
  secure mode it ran under.
 */
module CommandProcessor {
  import opened Words
  import opened Pm4
  datatype Mode = Mode(protected: bool, secure: bool)

  // The mode the ring is in between two submissions.
  const HomeMode := Mode(true, false)

  datatype Effect =
    | Quiet
    | Protect(on: bool)
    | Secure(on: bool)
    | RunIb(addr: u64, dwords: u32)
    | MemWrite(addr: u64, data: seq<u32>)
    | EventWrite(event: u32, addr: u64, value: u32)
    | TableUpdate(ttbr0: u64, contextId: u32)
    | PreemptGlobal(level: u32)
    | Yield(addr: u64, word: u32, interrupt: u32)
    | RegWrite(reg: u32, data: seq<u32>)
    | RegToMem(source: u32, addr: u64)
    | ReportPointer(addr: u64)
    | Other(op: u32, payload: seq<u32>)

  // A5xx: opcodes are type 7 packets and addresses take two dwords.
  function Effect7(op: u32, d: seq<u32>): Effect {
    if op == CP_NOP then Quiet
    else if op == CP_SET_PROTECTED_MODE && |d| == 1 then Protect(d[0] != 0)
    else if op == CP_SET_SECURE_MODE && |d| == 1 then Secure(d[0] != 0)
    else if op == CP_INDIRECT_BUFFER_PFE && |d| == 3 then RunIb(Join(d[0], d[1]), d[2])
    else if op == CP_MEM_WRITE && |d| >= 2 then MemWrite(Join(d[0], d[1]), d[2..])
    else if op == CP_EVENT_WRITE && |d| == 4 then EventWrite(d[0], Join(d[1], d[2]), d[3])
    else if op == CP_SMMU_TABLE_UPDATE && |d| == 3 then TableUpdate(Join(d[0], d[1]), d[2])
    else if op == CP_PREEMPT_ENABLE_GLOBAL && |d| == 1 then PreemptGlobal(d[0])
    else if op == CP_REG_TO_MEM && |d| == 3 then RegToMem(d[0], Join(d[1], d[2]))
    else if op == CP_WHERE_AM_I && |d| == 2 then ReportPointer(Join(d[0], d[1]))
    else if op == CP_CONTEXT_SWITCH_YIELD && |d| == 4 then Yield(Join(d[0], d[1]), d[2], d[3])
    else Other(op, d)
  }

  // A3xx: opcodes are type 3 packets and addresses take one dword.
  function Effect3(op: u32, d: seq<u32>): Effect {
    if op == CP_NOP then Quiet
    else if op == CP_SET_PROTECTED_MODE && |d| == 1 then Protect(d[0] != 0)
    else if op == CP_INDIRECT_BUFFER_PFE && |d| == 2 then RunIb(d[0], d[1])
    else if op == CP_MEM_WRITE && |d| >= 1 then MemWrite(d[0], d[1..])
    else if op == CP_EVENT_WRITE && |d| == 3 then EventWrite(d[0], d[1], d[2])
    else if op == CP_REG_WR_NO_CTXT && |d| >= 1 then RegWrite(d[0], d[1..])
    else Other(op, d)
  }

  function EffectOf(p: Packet): Effect {
    match p
    case Type0(reg, payload) => RegWrite(reg, payload)
    case Type3(op, payload) => Effect3(op, payload)
    case Type4(reg, payload) => RegWrite(reg, payload)
    case Type7(op, payload) => Effect7(op, payload)
  }

  datatype Event = Event(mode: Mode, effect: Effect)

  function NextMode(m: Mode, e: Effect): Mode {
    match e
    case Protect(on) => m.(protected := on)
    case Secure(on) => m.(secure := on)
    case _ => m
  }

  function EndMode(ps: seq<Packet>, m: Mode): Mode {
    if |ps| == 0 then m else EndMode(ps[1..], NextMode(m, EffectOf(ps[0])))
  }

  predicate Visible(e: Effect) {
    !e.Quiet? && !e.Protect? && !e.Secure?
  }

  /** The visible effects of a packet list, in order, started in mode `m`. */
  function Run(ps: seq<Packet>, m: Mode): seq<Event> {
    if |ps| == 0 then []
    else
      var e := EffectOf(ps[0]);
      (if Visible(e) then [Event(m, e)] else []) + Run(ps[1..], NextMode(m, e))
  }

  lemma {:induction false} RunConcat(ps: seq<Packet>, qs: seq<Packet>, m: Mode)
    ensures EndMode(ps + qs, m) == EndMode(qs, EndMode(ps, m))
    ensures Run(ps + qs, m) == Run(ps, m) + Run(qs, EndMode(ps, m))
  {
    hide EffectOf, Visible, NextMode;
    if |ps| == 0 {
      assert ps + qs == qs;
    } else {
      RunConcat(ps[1..], qs, NextMode(m, EffectOf(ps[0])));
      assert (ps + qs)[0] == ps[0];
      assert (ps + qs)[1..] == ps[1..] + qs;
    }
  }

  function Stamp(m: Mode, effects: seq<Effect>): (events: seq<Event>)
    ensures |events| == |effects|
    ensures forall i | 0 <= i < |effects| :: events[i] == Event(m, effects[i])
  {
    seq(|effects|, i requires 0 <= i < |effects| => Event(m, effects[i]))
  }

  function Maybe(b: bool, effects: seq<Effect>): seq<Effect> {
    if b then effects else []
  }

  function Shown(m: Mode, e: Effect): seq<Event> {
    if Visible(e) then [Event(m, e)] else []
  }

  // One step of Run() inside a longer list.
  lemma RunFrom(ps: seq<Packet>, k: nat, m: Mode, e: Effect)
    requires k < |ps| && e == EffectOf(ps[k])
    ensures Run(ps[k..], m) == Shown(m, e) + Run(ps[k + 1..], NextMode(m, e))
    ensures EndMode(ps[k..], m) == EndMode(ps[k + 1..], NextMode(m, e))
  {
    hide EffectOf;
    assert ps[k..][1..] == ps[k + 1..];
  }

  lemma RunNone(ps: seq<Packet>, m: Mode)
    ensures Run(ps[|ps|..], m) == [] && EndMode(ps[|ps|..], m) == m
  {
  }

  lemma RunSingle(p: Packet, m: Mode, e: Effect)
    requires e == EffectOf(p)
    ensures Run([p], m) == Shown(m, e)
    ensures EndMode([p], m) == NextMode(m, e)
  {
    RunFrom([p], 0, m, e);
    RunNone([p], NextMode(m, e));
    assert [p][0..] == [p];
  }

  lemma RunEmpty(m: Mode)
    ensures Run([], m) == [] && EndMode([], m) == m
  {
  }

  // A packet that is there only when `b` holds.
  lemma WhenRuns(b: bool, p: Packet, m: Mode, e: Effect)
    requires e == EffectOf(p)
    ensures Run(When(b, [p]), m) == if b then Shown(m, e) else []
    ensures EndMode(When(b, [p]), m) == if b then NextMode(m, e) else m
  {
    RunEmpty(m);
    RunSingle(p, m, e);
  }

  // Packet lists that show `xs` under one mode and leave it alone.
  predicate Shows(ps: seq<Packet>, xs: seq<Effect>, m: Mode) {
    Run(ps, m) == Stamp(m, xs) && EndMode(ps, m) == m
  }

  lemma RunsThen(ps: seq<Packet>, xs: seq<Effect>, qs: seq<Packet>, ys: seq<Effect>, m: Mode)
    requires Shows(ps, xs, m) && Shows(qs, ys, m)
    ensures Shows(ps + qs, xs + ys, m)
  {
    hide Run, EndMode;
    RunConcat(ps, qs, m);
  }

  lemma ShowsPacket(b: bool, p: Packet, e: Effect, m: Mode)
    requires e == EffectOf(p) && Visible(e)
    ensures Shows(When(b, [p]), Maybe(b, [e]), m) && Shows([p], [e], m)
  {
    hide Run, EndMode, EffectOf;
    WhenRuns(b, p, m, e);
    RunSingle(p, m, e);
  }

  // A packet list all of whose packets are visible shows their effects one by one.
  lemma {:induction false} ListShows(ps: seq<Packet>, es: seq<Effect>, m: Mode)
    requires |ps| == |es|
    requires forall i | 0 <= i < |ps| :: EffectOf(ps[i]) == es[i] && Visible(es[i])
    ensures Shows(ps, es, m)
  {
    hide EffectOf;
    if |ps| != 0 {
      assert EffectOf(ps[0]) == es[0];
      ListShows(ps[1..], es[1..], m);
    }
  }

  // A payload between two packet lists: it is decoded and run in place.
  lemma ParseAround(h: seq<Packet>, input: seq<u32>, t: seq<Packet>)
    requires AllEncodable(h) && AllEncodable(t) && Parse(input).Some?
    ensures Parse(Encode(h) + input + Encode(t)) == Some(h + Parse(input).value + t)
  {
    hide Parse, Encode;
    ParseEncode(t);
    ParseConcat(input, Encode(t));
    ParseEncodeThen(h, input + Encode(t));
    assert Encode(h) + input + Encode(t) == Encode(h) + (input + Encode(t));
    assert h + (Parse(input).value + t) == h + Parse(input).value + t;
  }

  lemma RunAround(h: seq<Packet>, payload: seq<Packet>, t: seq<Packet>, m: Mode)
    ensures var start := EndMode(h, m);
            var end := EndMode(payload, start);
            && Run(h + payload + t, m) == Run(h, m) + Run(payload, start) + Run(t, end)
            && EndMode(h + payload + t, m) == EndMode(t, end)
  {
    hide Run, EndMode;
    RunConcat(h, payload, m);
    RunConcat(h + payload, t, m);
  }
}
