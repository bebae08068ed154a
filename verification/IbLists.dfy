/**
  The IBs a command runs, said of the list it was given: which of its nodes come to run, and as what.
 */
module IbLists {
  import opened Words
  import opened MachineWords
  import opened Pm4
  import opened CommandProcessor
  import opened Adreno
  import opened A5xxStream
  import opened A3xxStream
  import opened FlagWords

  // A node runs unless the submission, the node's object or its preamble flag says that it is skipped.
  predicate Wanted(ib: IbNode, flags: u32) {
    && !Has(flags, 0x10)
    && !Has(ib.priv, 0x02)
    && (Has(ib.flags, 0x02) ==> Has(flags, 0x80))
  }

  // The positions of the wanted nodes, in order.
  ghost predicate Picks(ibs: seq<IbNode>, flags: u32, at: seq<nat>) {
    && (forall k, l :: 0 <= k < l < |at| ==> at[k] < at[l])
    && (forall k :: 0 <= k < |at| ==> at[k] < |ibs|)
    && (forall i :: 0 <= i < |ibs| ==> (i in at <==> Wanted(ibs[i], flags)))
  }

  // The IBs among the effects of a stream.
  function IbsOf(es: seq<Effect>): seq<Effect> {
    if |es| == 0 then [] else (if es[0].RunIb? then [es[0]] else []) + IbsOf(es[1..])
  }

  function Seen(events: seq<Event>): (es: seq<Effect>)
    ensures |es| == |events| && forall i | 0 <= i < |es| :: es[i] == events[i].effect
  {
    seq(|events|, i requires 0 <= i < |events| => events[i].effect)
  }

  lemma {:induction false} IbsConcat(xs: seq<Effect>, ys: seq<Effect>)
    ensures IbsOf(xs + ys) == IbsOf(xs) + IbsOf(ys)
  {
    if |xs| == 0 {
      assert xs + ys == ys;
    } else {
      IbsConcat(xs[1..], ys);
      assert (xs + ys)[1..] == xs[1..] + ys && (xs + ys)[0] == xs[0];
    }
  }

  lemma IbsNone()
    ensures IbsOf([]) == []
  {
  }

  lemma IbsOne(e: Effect)
    ensures IbsOf([e]) == if e.RunIb? then [e] else []
  {
    assert [e][1..] == [];
  }

  function Shift(at: seq<nat>): (to: seq<nat>)
    ensures |to| == |at| && forall k :: 0 <= k < |at| ==> to[k] == at[k] + 1
  {
    seq(|at|, k requires 0 <= k < |at| => at[k] + 1)
  }

  function Front(wanted: bool, rest: seq<nat>): seq<nat> {
    (if wanted then [0] else []) + Shift(rest)
  }

  lemma ShiftIn(at: seq<nat>, i: nat)
    ensures i + 1 in Shift(at) <==> i in at
    ensures 0 !in Shift(at)
  {
    if i in at {
      var k :| 0 <= k < |at| && at[k] == i;
      assert Shift(at)[k] == i + 1;
    }
  }

  lemma PicksNone(flags: u32)
    ensures Picks([], flags, [])
  {
  }

  lemma PicksFront(ibs: seq<IbNode>, flags: u32, rest: seq<nat>)
    requires |ibs| != 0 && Picks(ibs[1..], flags, rest)
    ensures Picks(ibs, flags, Front(Wanted(ibs[0], flags), rest))
  {
    hide Wanted;
    var at := Front(Wanted(ibs[0], flags), rest);
    forall i | 0 <= i < |ibs| ensures i in at <==> Wanted(ibs[i], flags) {
      if i == 0 {
        ShiftIn(rest, 0);
      } else {
        ShiftIn(rest, i - 1);
        assert ibs[1..][i - 1] == ibs[i];
      }
    }
  }

  /** The positions of the nodes that run, for every list. */
  function Places(ibs: seq<IbNode>, flags: u32): (at: seq<nat>)
    ensures Picks(ibs, flags, at)
  {
    if |ibs| == 0 then
      PicksNone(flags);
      []
    else
      PicksFront(ibs, flags, Places(ibs[1..], flags));
      Front(Wanted(ibs[0], flags), Places(ibs[1..], flags))
  }

  // A node as the command processor gets to see it: from the A5xx stream, or with a 32-bit address and an unmasked
  // size.
  function NodeIb(ib: IbNode, wide: bool): Effect {
    if wide then RunIb(ib.addr, (ib.size / 4) % 0x10_0000)
    else RunIb(ib.addr % 0x1_0000_0000, (ib.size / 4) % 0x1_0000_0000)
  }

  function NodeIbs(ibs: seq<IbNode>, at: seq<nat>, wide: bool): (es: seq<Effect>)
    requires forall k :: 0 <= k < |at| ==> at[k] < |ibs|
    ensures |es| == |at| && forall k :: 0 <= k < |at| ==> es[k] == NodeIb(ibs[at[k]], wide)
  {
    seq(|at|, k requires 0 <= k < |at| => NodeIb(ibs[at[k]], wide))
  }

  function Kept(ibs: seq<IbNode>, flags: u32, wide: bool): seq<Effect> {
    if wide then KeptIbs(ibs, flags) else KeptIbs3(ibs, flags)
  }

  lemma KeptFirst(ibs: seq<IbNode>, flags: u32, wide: bool)
    requires |ibs| != 0 && !Has(flags, 0x10)
    ensures Kept(ibs, flags, wide) ==
      (if Wanted(ibs[0], flags) then [NodeIb(ibs[0], wide)] else []) + Kept(ibs[1..], flags, wide)
  {
    hide Has, IsSkipped;
    SkippedNode(ibs[0], flags);
  }

  lemma PlacesFirst(ibs: seq<IbNode>, flags: u32)
    requires |ibs| != 0
    ensures Places(ibs, flags) == Front(Wanted(ibs[0], flags), Places(ibs[1..], flags))
  {
  }

  lemma NodesFirst(ibs: seq<IbNode>, wanted: bool, rest: seq<nat>, wide: bool)
    requires |ibs| != 0 && forall k :: 0 <= k < |rest| ==> rest[k] < |ibs| - 1
    ensures forall k :: 0 <= k < |Front(wanted, rest)| ==> Front(wanted, rest)[k] < |ibs|
    ensures NodeIbs(ibs, Front(wanted, rest), wide)
         == (if wanted then [NodeIb(ibs[0], wide)] else []) + NodeIbs(ibs[1..], rest, wide)
  {
    hide NodeIb;
  }

  lemma OnlyIb(wanted: bool, ib: IbNode, wide: bool)
    ensures var first := if wanted then [NodeIb(ib, wide)] else []; IbsOf(first) == first
  {
    hide IbsOf, NodeIb;
    IbsNone();
    IbsOne(NodeIb(ib, wide));
    NodeRuns(ib, wide);
  }

  lemma {:induction false} KeptAreNodes(ibs: seq<IbNode>, flags: u32, wide: bool)
    requires !Has(flags, 0x10)
    ensures Kept(ibs, flags, wide) == NodeIbs(ibs, Places(ibs, flags), wide)
    ensures IbsOf(Kept(ibs, flags, wide)) == Kept(ibs, flags, wide)
  {
    if |ibs| != 0 {
      hide *;
      hide Wanted, NodeIb, Kept, Places, NodeIbs, IbsOf, Front;
      KeptAreNodes(ibs[1..], flags, wide);
      KeptFirst(ibs, flags, wide);
      PlacesFirst(ibs, flags);
      PlacesWithin(ibs[1..], flags);
      NodesFirst(ibs, Wanted(ibs[0], flags), Places(ibs[1..], flags), wide);
      OnlyIb(Wanted(ibs[0], flags), ibs[0], wide);
      IbsConcat(if Wanted(ibs[0], flags) then [NodeIb(ibs[0], wide)] else [], Kept(ibs[1..], flags, wide));
    }
  }

  lemma PlacesWithin(ibs: seq<IbNode>, flags: u32)
    ensures forall k :: 0 <= k < |Places(ibs, flags)| ==> Places(ibs, flags)[k] < |ibs|
  {
  }

  lemma NodeRuns(ib: IbNode, wide: bool)
    ensures NodeIb(ib, wide).RunIb?
  {
  }

  lemma {:induction false} NoPlaces(ibs: seq<IbNode>, flags: u32)
    requires Has(flags, 0x10)
    ensures Places(ibs, flags) == []
  {
    if |ibs| != 0 {
      NoPlaces(ibs[1..], flags);
    }
  }

  lemma ListedKept(ibs: seq<IbNode>, flags: u32, wide: bool)
    ensures IbsOf(Kept(ListedIbs(ibs, flags), flags, wide)) == NodeIbs(ibs, Places(ibs, flags), wide)
  {
    hide Places, Has, IsSkip;
    SubmissionFlags(flags);
    if Has(flags, 0x10) {
      NoPlaces(ibs, flags);
    } else {
      KeptAreNodes(ibs, flags, wide);
    }
  }

  // A profiling IB: four dwords in one of the 256 slots of the ring's profiling page.
  function ProfilingIb(prof: Profiling, flags: u32, next: nat): seq<Effect> {
    if Has(flags, 0x20) && prof.slots.Some?
    then [RunIb((prof.slots.value + 16 * ((prof.index + next) % 256)) % TWO_64, 4)] else []
  }

  lemma ProfilingIs(prof: Profiling, flags: u32, next: nat)
    ensures IbsOf(UserIbEffects(prof, flags, next)) == UserIbEffects(prof, flags, next)
        == ProfilingIb(prof, flags, next)
  {
    hide Has, IsUserProfile;
    SubmissionFlags(flags);
    IbsNone();
    if prof.slots.Some? {
      IbsOne(RunIb((prof.slots.value + 16 * ((prof.index + next) % 256)) % TWO_64, 4));
    }
  }

  lemma SeenStamp(m: Mode, es: seq<Effect>)
    ensures Seen(Stamp(m, es)) == es
  {
  }

  // The IBs of a list in three parts, the outer ones with profiling at their ends.
  lemma IbsAround(a: seq<Effect>, b: seq<Effect>, c: seq<Effect>, d: seq<Effect>, e: seq<Effect>, f: seq<Effect>,
      g: seq<Effect>)
    requires IbsOf(a) == IbsOf(d) == IbsOf(e) == IbsOf(f) == []
    ensures IbsOf((a + b) + c + (((d + e) + f + g) + [])) == IbsOf(b) + IbsOf(c) + IbsOf(g)
  {
    hide *;
    hide IbsOf;
    IbsConcat(a, b);
    IbsConcat(d, e);
    IbsConcat(d + e, f);
    IbsConcat(d + e + f, g);
    IbsConcat(a + b, c);
    IbsConcat(a + b + c, d + e + f + g);
    assert ((d + e) + f + g) + [] == d + e + f + g;
  }

  lemma NoIb(b: bool, e: Effect)
    requires !e.RunIb?
    ensures IbsOf(Maybe(b, [e])) == [] && IbsOf([e]) == []
  {
    IbsNone();
    IbsOne(e);
  }

  lemma CommandEffectIbs(gpu: Gpu, prof: Profiling, ibs: seq<IbNode>, flags: u32)
    ensures IbsOf(CommandEffects(gpu, prof, ibs, flags))
         == ProfilingIb(prof, flags, 0) + NodeIbs(ibs, Places(ibs, flags), true) + ProfilingIb(prof, flags, 1)
  {
    var p, started := IsKernelProfile(flags), CounterEffect(gpu, prof.started);
    var mode, last, retired := Other(CP_SET_RENDER_MODE, [0, 0, 0, 0, 0]), Other(CP_YIELD_ENABLE, [1]),
        CounterEffect(gpu, prof.retired);
    var before, after, kept := UserIbEffects(prof, flags, 0), UserIbEffects(prof, flags, 1),
        KeptIbs(ListedIbs(ibs, flags), flags);
    assert !started.RunIb? && !retired.RunIb?;
    assert kept == Kept(ListedIbs(ibs, flags), flags, true);
    assert CommandEffects(gpu, prof, ibs, flags)
        == (Maybe(p, [started]) + before) + kept + (((([mode] + [last]) + Maybe(p, [retired])) + after) + []);
    hide *;
    NoIb(p, started);
    NoIb(p, retired);
    NoIb(true, mode);
    NoIb(true, last);
    ProfilingIs(prof, flags, 0);
    ProfilingIs(prof, flags, 1);
    ListedKept(ibs, flags, true);
    IbsAround(Maybe(p, [started]), before, kept, [mode], [last], Maybe(p, [retired]), after);
  }

  /**
    Of any list and flags, the IBs the command processor runs on reading an A5xx command are, in order, the nodes
    whose skip and preamble bits let them run, between the two profiling IBs.
   */
  lemma CommandRunsNodes(gpu: Gpu, prof: Profiling, ibs: seq<IbNode>, flags: u32, m: Mode)
    ensures var parsed, at := Parse(Command(gpu, prof, ibs, flags)), Places(ibs, flags);
            && parsed.Some? && Picks(ibs, flags, at)
            && IbsOf(Seen(Run(parsed.value, m)))
                == ProfilingIb(prof, flags, 0) + NodeIbs(ibs, at, true) + ProfilingIb(prof, flags, 1)
  {
    hide *;
    hide Parse, Command, Run, CommandEffects, IbsOf, Places, ProfilingIb, NodeIbs, Seen;
    CommandMeaning(gpu, prof, ibs, flags, m);
    CommandShows(gpu, prof, ibs, flags, m);
    SeenStamp(m, CommandEffects(gpu, prof, ibs, flags));
    CommandEffectIbs(gpu, prof, ibs, flags);
  }

  lemma CommandShows(gpu: Gpu, prof: Profiling, ibs: seq<IbNode>, flags: u32, m: Mode)
    ensures var parsed := Parse(Command(gpu, prof, ibs, flags));
            parsed.Some? && Run(parsed.value, m) == Stamp(m, CommandEffects(gpu, prof, ibs, flags))
  {
    hide Parse, Command, Run, CommandEffects, EndMode;
    CommandMeaning(gpu, prof, ibs, flags, m);
  }

  /** Likewise for an A3xx command, which has no profiling of its own. */
  lemma CommandRunsNodes3(ibs: seq<IbNode>, flags: u32, m: Mode)
    ensures var parsed, at := Parse(Command3(ibs, flags)), Places(ibs, flags);
            && parsed.Some? && Picks(ibs, flags, at)
            && IbsOf(Seen(Run(parsed.value, m))) == NodeIbs(ibs, at, false)
  {
    var kept := KeptIbs3(ListedIbs(ibs, flags), flags);
    hide Parse, Command3, Run, EndMode, KeptIbs3, ListedIbs, IbsOf, Places, NodeIb;
    CommandMeaning3(ibs, flags, m);
    SeenStamp(m, kept);
    ListedKept(ibs, flags, false);
  }
}
