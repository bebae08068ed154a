/**
  What a ring's queued work does to the pagetable: the hardware TTBR0, the copy
  in the ring's scratch memory that a preemption reads back, and the points at
  which the ring can be preempted.
 */
module PagetableStream {
  import opened Words
  import opened Pm4
  import opened CommandProcessor
  import opened Adreno
  import opened A5xxStream
  import A5xxRing
  import RingMemory

  const SCRATCH_BYTES: nat := 0x1000
  const MEMSTORE_BYTES: nat := 0x8000
  const MAX_RINGS: nat := 4

  // The memstore and the scratch page are two separate, dword-aligned allocations.
  predicate Layout(gpu: Gpu) {
    && gpu.preemption
    && gpu.memstore % 4 == 0 && gpu.memstore + MEMSTORE_BYTES <= TWO_64
    && gpu.scratch % 4 == 0 && gpu.scratch + SCRATCH_BYTES <= TWO_64
    && (gpu.memstore + MEMSTORE_BYTES <= gpu.scratch || gpu.scratch + SCRATCH_BYTES <= gpu.memstore)
  }

  predicate Inside(base: u64, bytes: nat, a: int) {
    base <= a < base + bytes
  }

  /** That is: eight pages and one, aligned, mapped without wrapping around, and with no byte in common. */
  lemma LayoutMeans(gpu: Gpu)
    ensures Layout(gpu) <==>
      && gpu.preemption && gpu.memstore % 4 == 0 && gpu.scratch % 4 == 0
      && gpu.memstore + 8 * 4096 <= TWO_64 && gpu.scratch + 4096 <= TWO_64
      && forall a: int :: !(Inside(gpu.memstore, 8 * 4096, a) && Inside(gpu.scratch, 4096, a))
  {
    if !Layout(gpu) {
      assert Inside(gpu.memstore, 8 * 4096, gpu.scratch) || Inside(gpu.scratch, 4096, gpu.memstore)
          || !(gpu.memstore < gpu.scratch + 4096 && gpu.scratch < gpu.memstore + 8 * 4096);
      assert Inside(gpu.scratch, 4096, gpu.scratch) && Inside(gpu.memstore, 8 * 4096, gpu.memstore);
    }
  }

  // ------------------------------------------------------- actions of a ring

  /** One visible effect of a ring's stream, with the context that submitted it; None is the driver itself. */
  datatype Action = Action(effect: Effect, ctx: Option<Context>)

  function Strip(events: seq<Event>): (es: seq<Effect>)
    ensures |es| == |events| && forall i | 0 <= i < |es| :: es[i] == events[i].effect
  {
    seq(|events|, i requires 0 <= i < |events| => events[i].effect)
  }

  function Tag(ctx: Option<Context>, es: seq<Effect>): (actions: seq<Action>)
    ensures |actions| == |es| && forall i | 0 <= i < |es| :: actions[i] == Action(es[i], ctx)
  {
    seq(|es|, i requires 0 <= i < |es| => Action(es[i], ctx))
  }

  // What the command processor does on reading the dwords of one submission.
  function Actions(j: Job, input: seq<u32>): seq<Action> {
    match Parse(Submission(j, input))
    case None => []
    case Some(ps) => Tag(j.ctx, Strip(Run(ps, HomeMode)))
  }

  // ------------------------------------------------- pagetables along a ring

  /** Of a running ring: the TTBR0 in effect, its scratch copy, and whether the ring may be preempted here. */
  datatype Tables = Tables(ttbr0: u64, scratch: u64, fine: bool, yielded: bool)

  // The dword at address `at` once `data` is written from address `a` on.
  function DwordAt(a: u64, data: seq<u32>, at: int, was: u32): u32 {
    if a <= at < a + 4 * |data| && (at - a) % 4 == 0 then data[(at - a) / 4] else was
  }

  function Poke(a: u64, data: seq<u32>, at: u64, was: u64): u64 {
    Join(DwordAt(a, data, at, Lo(was)), DwordAt(a, data, at + 4, Hi(was)))
  }

  // The scratch copy of ring `k` after an effect of any ring.
  function Scratch(gpu: Gpu, k: nat, e: Effect, was: u64): u64 {
    match e
    case MemWrite(a, data) => Poke(a, data, ScratchTtbr0Addr(gpu, k), was)
    case EventWrite(_, a, value) => Poke(a, [value], ScratchTtbr0Addr(gpu, k), was)
    case _ => was
  }

  function Step(gpu: Gpu, k: nat, e: Effect, v: Tables): Tables {
    Tables(if e.TableUpdate? then e.ttbr0 else v.ttbr0,
           Scratch(gpu, k, e, v.scratch),
           if e.PreemptGlobal? then e.level == 2 else v.fine,
           e.Yield?)
  }

  // A preemption here, and the way back, would not change the pagetable.
  predicate Safe(v: Tables) {
    v.fine || v.yielded ==> v.ttbr0 == v.scratch
  }

  predicate HasOwnTable(gpu: Gpu, ctx: Option<Context>) {
    ctx.Some? && ctx.value.pagetable != gpu.defaultPagetable
  }

  predicate RightTable(gpu: Gpu, a: Action, ttbr0: u64) {
    a.effect.RunIb? && HasOwnTable(gpu, a.ctx) ==> ttbr0 == a.ctx.value.pagetable.ttbr0
  }

  predicate Misses(gpu: Gpu, a: u64, dwords: nat) {
    a + 4 * dwords <= gpu.scratch || gpu.scratch + SCRATCH_BYTES <= a
  }

  // Effects that have nothing to do with pagetables or preemption points.
  predicate Neutral(gpu: Gpu, e: Effect) {
    match e
    case TableUpdate(_, _) => false
    case PreemptGlobal(_) => false
    case Yield(_, _, _) => false
    case MemWrite(a, data) => Misses(gpu, a, |data|)
    case EventWrite(_, a, _) => Misses(gpu, a, 1)
    case _ => true
  }

  predicate AllNeutral(gpu: Gpu, es: seq<Effect>) {
    forall e <- es :: Neutral(gpu, e)
  }

  // Writes nothing into the scratch memory of a ring other than `k`.
  predicate Apart(gpu: Gpu, k: nat, e: Effect) {
    match e
    case MemWrite(a, data) => Misses(gpu, a, |data|) || (a == ScratchTtbr0Addr(gpu, k) && |data| == 3)
    case EventWrite(_, a, _) => Misses(gpu, a, 1)
    case _ => true
  }

  lemma MissesScratch(gpu: Gpu, k: nat, a: u64, data: seq<u32>, was: u64)
    requires Layout(gpu) && k < MAX_RINGS && Misses(gpu, a, |data|)
    ensures Poke(a, data, ScratchTtbr0Addr(gpu, k), was) == was
  {
    JoinSplit(was);
  }

  lemma NeutralKeepsScratch(gpu: Gpu, k: nat, e: Effect, was: u64)
    requires Layout(gpu) && k < MAX_RINGS && Neutral(gpu, e)
    ensures Scratch(gpu, k, e, was) == was && Apart(gpu, k, e)
  {
    hide Layout, Poke, Misses;
    match e
    case MemWrite(a, data) => MissesScratch(gpu, k, a, data, was);
    case EventWrite(_, a, value) => MissesScratch(gpu, k, a, [value], was);
    case _ =>
  }

  lemma ApartKeepsOthers(gpu: Gpu, j: nat, k: nat, e: Effect, was: u64)
    requires Layout(gpu) && j < MAX_RINGS && k < MAX_RINGS && j != k && Apart(gpu, k, e)
    ensures Scratch(gpu, j, e, was) == was
  {
    JoinSplit(was);
    match e
    case MemWrite(a, data) =>
      if Misses(gpu, a, |data|) {
        MissesScratch(gpu, j, a, data, was);
      }
    case EventWrite(_, a, value) => MissesScratch(gpu, j, a, [value], was);
    case _ =>
  }

  // From here on, `actions` never run an IB under a foreign pagetable and are safe to preempt.
  predicate Good(gpu: Gpu, k: nat, actions: seq<Action>, v: Tables) {
    && Safe(v)
    && (|actions| != 0 ==>
          && RightTable(gpu, actions[0], v.ttbr0) && Apart(gpu, k, actions[0].effect)
          && Good(gpu, k, actions[1..], Step(gpu, k, actions[0].effect, v)))
  }

  function Final(gpu: Gpu, k: nat, actions: seq<Action>, v: Tables): Tables {
    if |actions| == 0 then v else Final(gpu, k, actions[1..], Step(gpu, k, actions[0].effect, v))
  }

  lemma {:induction false} GoodConcat(gpu: Gpu, k: nat, xs: seq<Action>, ys: seq<Action>, v: Tables)
    ensures Good(gpu, k, xs + ys, v) <==> Good(gpu, k, xs, v) && Good(gpu, k, ys, Final(gpu, k, xs, v))
    ensures Final(gpu, k, xs + ys, v) == Final(gpu, k, ys, Final(gpu, k, xs, v))
  {
    hide Safe, RightTable, Apart, Step;
    if |xs| == 0 {
      assert xs + ys == ys;
    } else {
      assert (xs + ys)[1..] == xs[1..] + ys && (xs + ys)[0] == xs[0];
      GoodConcat(gpu, k, xs[1..], ys, Step(gpu, k, xs[0].effect, v));
    }
  }

  predicate RunsIb(es: seq<Effect>) {
    exists e <- es :: e.RunIb?
  }

  // A neutral stretch is good exactly when its IBs, if any, find the right table.
  lemma {:induction false} NeutralStretch(gpu: Gpu, k: nat, ctx: Option<Context>, es: seq<Effect>, v: Tables)
    requires Layout(gpu) && k < MAX_RINGS && AllNeutral(gpu, es) && Safe(v)
    ensures Good(gpu, k, Tag(ctx, es), v) <==>
      (RunsIb(es) && HasOwnTable(gpu, ctx) ==> v.ttbr0 == ctx.value.pagetable.ttbr0)
    ensures Final(gpu, k, Tag(ctx, es), v) == v.(yielded := v.yielded && |es| == 0)
  {
    hide Layout, HasOwnTable, Neutral, Scratch, Apart;
    if |es| != 0 {
      var w := v.(yielded := false);
      NeutralKeepsScratch(gpu, k, es[0], v.scratch);
      assert Neutral(gpu, es[0]);
      NeutralIsInert(gpu, es[0]);
      NeutralStretch(gpu, k, ctx, es[1..], w);
      assert Tag(ctx, es)[1..] == Tag(ctx, es[1..]);
      assert RunsIb(es) <==> es[0].RunIb? || RunsIb(es[1..]) by {
        assert forall e :: e in es <==> e == es[0] || e in es[1..];
      }
    }
  }

  lemma NeutralIsInert(gpu: Gpu, e: Effect)
    requires Neutral(gpu, e)
    ensures !e.TableUpdate? && !e.PreemptGlobal? && !e.Yield?
  {
  }

  // -------------------------------------------------- one submission's share

  function Setup(j: Job): seq<Effect> {
    [RegWrite(SAVE_ADDR_LO_REG, [Lo(j.rb.record)]), RegWrite(SAVE_ADDR_HI_REG, [Hi(j.rb.record)]),
     Other(CP_PREEMPT_ENABLE_LOCAL, [if PreemptStyle(j.ctx) == STYLE_FINEGRAIN then 1 else 0]),
         Other(CP_YIELD_ENABLE, [2])]
    + (ProfileEffects(j.pre) + StartOfPipe(j.gpu, j.rb, j.ctx, j.timestamp, j.ringTimestamp))
  }

  function Level(j: Job): Effect {
    PreemptGlobal(if PreemptStyle(j.ctx) == STYLE_FINEGRAIN then 2 else 0)
  }

  function StartMode(flags: u32): Mode {
    Mode(!IsNotProtected(flags), IsSecure(flags))
  }

  lemma StripConcat(xs: seq<Event>, ys: seq<Event>)
    ensures Strip(xs + ys) == Strip(xs) + Strip(ys)
  {
  }

  lemma StripStamp(m: Mode, es: seq<Effect>)
    ensures Strip(Stamp(m, es)) == es
  {
  }

  lemma PreIbStrips(j: Job)
    requires j.gpu.preemption
    ensures Strip(PreIbEvents(j.gpu, j.rb, j.ctx)
        + Stamp(HomeMode, ProfileEffects(j.pre) + StartOfPipe(j.gpu, j.rb, j.ctx, j.timestamp, j.ringTimestamp)))
         == [Level(j)] + Setup(j)
  {
    hide PreemptStyle, ProfileEffects, StartOfPipe;
  }

  // What was decoded of a submission, with its payload in the middle.
  lemma ActionsAround(j: Job, input: seq<u32>, xs: seq<Effect>)
    requires j.gpu.preemption && Parse(input).Some? && Shows(Parse(input).value, xs, StartMode(j.flags))
    ensures Actions(j, input) == Tag(j.ctx, [Level(j)] + (Setup(j) + xs + Retire(j)) + [Yield(0, 1, 1)])
  {
    hide Run, EndMode, Parse, Submission, Retire, PreIbEvents, Setup, Level, StartOfPipe, ProfileEffects;
    SubmissionMeaning(j, input);
    PreIbStrips(j);
    StripStamp(StartMode(j.flags), xs);
    assert Strip(Run(Parse(Submission(j, input)).value, HomeMode))
        == [Level(j)] + (Setup(j) + xs + Retire(j)) + [Yield(0, 1, 1)];
  }

  // The memstore slots in use: contexts, rings and the global slot.
  predicate InRange(j: Job) {
    j.rb.id < MAX_RINGS && (j.ctx.Some? ==> j.ctx.value.id < MEMSTORE_MAX)
  }

  lemma MemstoreMissesScratch(gpu: Gpu, slot: nat, field: nat, dwords: nat)
    requires Layout(gpu) && slot < MEMSTORE_MAX + MAX_RINGS && field + 4 * dwords <= 40
    ensures Misses(gpu, MemstoreAddr(gpu, slot, field), dwords)
  {
  }

  /** No two timestamps or context words share a memstore address. */
  lemma MemstoreDistinct(gpu: Gpu, slot: nat, field: nat, slot': nat, field': nat)
    requires Layout(gpu) && slot < MEMSTORE_MAX + MAX_RINGS && slot' < MEMSTORE_MAX + MAX_RINGS && field < 40
        && field' < 40
    ensures MemstoreAddr(gpu, slot, field) == MemstoreAddr(gpu, slot', field') <==> slot == slot' && field == field'
  {
    assert MemstoreAddr(gpu, slot, field) == gpu.memstore + slot * 40 + field;
    assert MemstoreAddr(gpu, slot', field') == gpu.memstore + slot' * 40 + field';
  }

  lemma SetupNeutral(j: Job)
    requires Layout(j.gpu) && InRange(j)
    ensures AllNeutral(j.gpu, Setup(j))
  {
    hide Layout, Misses, MemstoreAddr, PreemptStyle;
    MemstoreMissesScratch(j.gpu, j.rb.id + MEMSTORE_MAX, SOPTIMESTAMP, 1);
    if j.ctx.Some? {
      MemstoreMissesScratch(j.gpu, j.ctx.value.id, SOPTIMESTAMP, 1);
    }
  }

  lemma RetireNeutral(j: Job)
    requires Layout(j.gpu) && InRange(j)
    ensures AllNeutral(j.gpu, Retire(j))
  {
    hide Layout, Misses, MemstoreAddr;
    MemstoreMissesScratch(j.gpu, j.rb.id + MEMSTORE_MAX, EOPTIMESTAMP, 1);
    MemstoreMissesScratch(j.gpu, MEMSTORE_GLOBAL, REF_WAIT_TS, 1);
    if j.ctx.Some? {
      MemstoreMissesScratch(j.gpu, j.ctx.value.id, EOPTIMESTAMP, 1);
    }
  }

  // A ring between two submissions.
  predicate AtRest(v: Tables) {
    v.yielded && v.ttbr0 == v.scratch
  }

  /**
    A submission whose payload leaves the pagetable alone keeps it; it is good
    exactly when its IBs, if it has any, belong to the pagetable in effect.
   */
  lemma WorkKeepsTable(k: nat, j: Job, input: seq<u32>, xs: seq<Effect>, v: Tables)
    requires Layout(j.gpu) && InRange(j) && j.rb.id == k && AtRest(v)
    requires Parse(input).Some? && Shows(Parse(input).value, xs, StartMode(j.flags)) && AllNeutral(j.gpu, xs)
    ensures Good(j.gpu, k, Actions(j, input), v) <==>
      (RunsIb(Setup(j) + xs + Retire(j)) && HasOwnTable(j.gpu, j.ctx) ==> v.ttbr0 == j.ctx.value.pagetable.ttbr0)
    ensures Final(j.gpu, k, Actions(j, input), v) == v.(fine := PreemptStyle(j.ctx) == STYLE_FINEGRAIN)
  {
    assert j.gpu.preemption;
    hide *;
    ActionsAround(j, input, xs);
    WorkTagged(k, j, input, xs, v, j.ctx);
  }

  // The same whoever the effects are said to belong to.
  lemma WorkTagged(k: nat, j: Job, input: seq<u32>, xs: seq<Effect>, v: Tables, ctx: Option<Context>)
    requires Layout(j.gpu) && InRange(j) && j.rb.id == k && AtRest(v)
    requires Parse(input).Some? && Shows(Parse(input).value, xs, StartMode(j.flags)) && AllNeutral(j.gpu, xs)
    ensures var actions := Tag(ctx, [Level(j)] + (Setup(j) + xs + Retire(j)) + [Yield(0, 1, 1)]);
            && (Good(j.gpu, k, actions, v) <==>
                  (RunsIb(Setup(j) + xs + Retire(j)) && HasOwnTable(j.gpu, ctx) ==>
                     v.ttbr0 == ctx.value.pagetable.ttbr0))
            && Final(j.gpu, k, actions, v) == v.(fine := PreemptStyle(j.ctx) == STYLE_FINEGRAIN)
  {
    var es, start, end := Setup(j) + xs + Retire(j), Level(j), Yield(0, 1, 1);
    var v1 := v.(fine := PreemptStyle(j.ctx) == STYLE_FINEGRAIN, yielded := false);
    assert j.gpu.preemption && Apart(j.gpu, k, start) && Apart(j.gpu, k, end);
    assert Step(j.gpu, k, start, v) == v1 && Step(j.gpu, k, end, v1) == v1.(yielded := true);
    assert Safe(v) && Safe(v1) && Safe(v1.(yielded := true));
    hide *;
    SetupNeutral(j);
    RetireNeutral(j);
    assert AllNeutral(j.gpu, es) by {
      NeutralConcat(j.gpu, Setup(j), xs);
      NeutralConcat(j.gpu, Setup(j) + xs, Retire(j));
    }
    NeutralStretch(j.gpu, k, ctx, es, v1);
    BorderSteps(j.gpu, k, ctx, start, v);
    BorderSteps(j.gpu, k, ctx, end, v1);
    SandwichTag(ctx, start, es, end);
    GoodConcat(j.gpu, k, Tag(ctx, [start]), Tag(ctx, es), v);
    GoodConcat(j.gpu, k, Tag(ctx, [start]) + Tag(ctx, es), Tag(ctx, [end]), v);
  }

  lemma SandwichTag(ctx: Option<Context>, start: Effect, es: seq<Effect>, end: Effect)
    ensures Tag(ctx, [start] + es + [end]) == Tag(ctx, [start]) + Tag(ctx, es) + Tag(ctx, [end])
  {
    hide Tag;
  }

  lemma NeutralConcat(gpu: Gpu, xs: seq<Effect>, ys: seq<Effect>)
    requires AllNeutral(gpu, xs) && AllNeutral(gpu, ys)
    ensures AllNeutral(gpu, xs + ys)
  {
    hide Neutral;
  }

  lemma SandwichPrefix(ctx: Option<Context>, start: Effect, xs: seq<Effect>, end: Effect, i: nat)
    requires i <= |xs|
    ensures var actions := Tag(ctx, [start] + xs + [end]);
            actions[..i + 1] == Tag(ctx, [start]) + Tag(ctx, xs[..i])
                && (i < |xs| ==> actions[i + 1] == Action(xs[i], ctx))
  {
    hide Tag;
  }

  lemma NeutralPrefix(gpu: Gpu, xs: seq<Effect>, i: nat)
    requires AllNeutral(gpu, xs) && i <= |xs|
    ensures AllNeutral(gpu, xs[..i])
  {
    hide Neutral;
  }

  // The tables inside a plain submission: behind its first action and in front of its last, nothing moves.
  lemma InsideSubmission(j: Job, input: seq<u32>, payload: seq<Effect>, v: Tables, i: nat)
    requires Layout(j.gpu) && InRange(j) && AtRest(v)
    requires Parse(input).Some? && Shows(Parse(input).value, payload, StartMode(j.flags)) && AllNeutral(j.gpu, payload)
    requires i <= |Setup(j) + payload + Retire(j)|
    ensures var actions, xs := Actions(j, input), Setup(j) + payload + Retire(j);
            && |actions| == |xs| + 2 && (i < |xs| ==> actions[i + 1] == Action(xs[i], j.ctx))
            && Final(j.gpu, j.rb.id, actions[..i + 1], v)
                == v.(fine := PreemptStyle(j.ctx) == STYLE_FINEGRAIN, yielded := false)
  {
    var xs, k, start, end := Setup(j) + payload + Retire(j), j.rb.id, Level(j), Yield(0, 1, 1);
    var v1 := v.(fine := PreemptStyle(j.ctx) == STYLE_FINEGRAIN, yielded := false);
    assert Step(j.gpu, k, start, v) == v1 && Safe(v1) && j.gpu.preemption;
    assert v1.(yielded := v1.yielded && i == 0) == v1;
    hide *;
    ActionsAround(j, input, payload);
    SetupNeutral(j);
    RetireNeutral(j);
    NeutralConcat(j.gpu, Setup(j), payload);
    NeutralConcat(j.gpu, Setup(j) + payload, Retire(j));
    NeutralPrefix(j.gpu, xs, i);
    NeutralStretch(j.gpu, k, j.ctx, xs[..i], v1);
    BorderSteps(j.gpu, k, j.ctx, start, v);
    SandwichPrefix(j.ctx, start, xs, end, i);
    GoodConcat(j.gpu, k, Tag(j.ctx, [start]), Tag(j.ctx, xs[..i]), v);
  }

  // Behind the first `n` actions the ring can not be preempted.
  predicate Unpreemptible(gpu: Gpu, k: nat, actions: seq<Action>, n: nat, v: Tables)
    requires n <= |actions|
  {
    var inside := Final(gpu, k, actions[..n], v);
    !inside.fine && !inside.yielded
  }

  /**
    A submission of a secure context can be preempted nowhere inside, whatever style the context asks for: from its
    first action on it is neither fine-grained nor yielded, and it ends coarse.
   */
  lemma SecureStaysCoarse(k: nat, j: Job, input: seq<u32>, xs: seq<Effect>, v: Tables)
    requires Layout(j.gpu) && InRange(j) && j.rb.id == k && AtRest(v) && j.ctx.Some? && IsSecureContext(j.ctx.value)
    requires Parse(input).Some? && Shows(Parse(input).value, xs, StartMode(j.flags)) && AllNeutral(j.gpu, xs)
    ensures forall n | 1 <= n < |Actions(j, input)| :: Unpreemptible(j.gpu, k, Actions(j, input), n, v)
    ensures !Final(j.gpu, k, Actions(j, input), v).fine
  {
    assert PreemptStyle(j.ctx) != STYLE_FINEGRAIN;
    hide *;
    WorkKeepsTable(k, j, input, xs, v);
    forall n | 1 <= n < |Actions(j, input)| ensures Unpreemptible(j.gpu, k, Actions(j, input), n, v) {
      CoarseInside(k, j, input, xs, v, n);
    }
  }

  lemma CoarseInside(k: nat, j: Job, input: seq<u32>, xs: seq<Effect>, v: Tables, n: nat)
    requires Layout(j.gpu) && InRange(j) && j.rb.id == k && AtRest(v) && PreemptStyle(j.ctx) != STYLE_FINEGRAIN
    requires Parse(input).Some? && Shows(Parse(input).value, xs, StartMode(j.flags)) && AllNeutral(j.gpu, xs)
    requires 1 <= n < |Actions(j, input)|
    ensures Unpreemptible(j.gpu, k, Actions(j, input), n, v)
  {
    hide Layout, InRange, AtRest, PreemptStyle, Parse, Shows, AllNeutral, Actions, Setup, Retire, Final;
    InsideSubmission(j, input, xs, v, 0);
    InsideSubmission(j, input, xs, v, n - 1);
  }

  // The first and the last action of a submission, and any other single one that runs no IB.
  lemma BorderSteps(gpu: Gpu, k: nat, ctx: Option<Context>, e: Effect, v: Tables)
    requires !e.RunIb?
    ensures Good(gpu, k, Tag(ctx, [e]), v) <==> Safe(v) && Apart(gpu, k, e) && Safe(Step(gpu, k, e, v))
    ensures Final(gpu, k, Tag(ctx, [e]), v) == Step(gpu, k, e, v)
  {
    hide Safe, Apart, Step;
    var a := Tag(ctx, [e]);
    assert a[1..] == [];
    assert Good(gpu, k, a[1..], Step(gpu, k, e, v)) <==> Safe(Step(gpu, k, e, v));
  }

  // ----------------------------------------------------- the context switch

  lemma RecordsTable(gpu: Gpu, k: nat, t: u64, id: u32, was: u64)
    requires Layout(gpu) && k < MAX_RINGS
    ensures Scratch(gpu, k, MemWrite(ScratchTtbr0Addr(gpu, k), [Lo(t), Hi(t), id]), was) == t
  {
    JoinSplit(t);
  }

  // Fine-grained preemption being off, the table and its record move as one.
  lemma TableSwitchSteps(gpu: Gpu, rb: Ring, ctx: Context, v: Tables)
    requires Layout(gpu) && rb.id < MAX_RINGS && !v.fine && !v.yielded
    ensures var t := ctx.pagetable.ttbr0;
            && Good(gpu, rb.id, Tag(None, TableSwitchEffects(gpu, rb, ctx)), v)
            && Final(gpu, rb.id, Tag(None, TableSwitchEffects(gpu, rb, ctx)), v) == v.(ttbr0 := t, scratch := t)
  {
    var k, t := rb.id, ctx.pagetable.ttbr0;
    var update, record := TableUpdate(t, ctx.id), MemWrite(ScratchTtbr0Addr(gpu, k), [Lo(t), Hi(t), ctx.id]);
    var on := [Other(CP_WAIT_FOR_IDLE, []), Other(CP_WAIT_FOR_ME, []), RegWrite(CP_CNTL_REG, [1])];
    var off := [Other(CP_WAIT_FOR_IDLE, []), Other(CP_WAIT_FOR_ME, []), RegWrite(CP_CNTL_REG, [0])];
    var v1, v2 := v.(ttbr0 := t), v.(ttbr0 := t, scratch := t);
    assert TableSwitchEffects(gpu, rb, ctx) == [update] + on + [record] + off;
    RecordsTable(gpu, k, t, ctx.id, v.scratch);
    assert Step(gpu, k, update, v) == v1 && Step(gpu, k, record, v1) == v2;
    assert Apart(gpu, k, update) && Apart(gpu, k, record) && Safe(v) && Safe(v1) && Safe(v2);
    assert AllNeutral(gpu, on) && AllNeutral(gpu, off) && !HasOwnTable(gpu, None);
    hide *;
    BorderSteps(gpu, k, None, update, v);
    NeutralStretch(gpu, k, None, on, v1);
    BorderSteps(gpu, k, None, record, v1);
    NeutralStretch(gpu, k, None, off, v2);
    var a, b, c, d := Tag(None, [update]), Tag(None, on), Tag(None, [record]), Tag(None, off);
    GoodConcat(gpu, k, a, b, v);
    GoodConcat(gpu, k, a + b, c, v);
    GoodConcat(gpu, k, a + b + c, d, v);
    assert Tag(None, [update] + on + [record] + off) == a + b + c + d;
  }

  lemma CurrentContextNeutral(gpu: Gpu, rb: Ring, ctx: Context)
    requires Layout(gpu) && rb.id < MAX_RINGS
    ensures AllNeutral(gpu, CurrentContextEffects(gpu, rb, ctx))
  {
    hide Layout, Misses, MemstoreAddr;
    MemstoreMissesScratch(gpu, rb.id + MEMSTORE_MAX, CURRENT_CONTEXT, 1);
    MemstoreMissesScratch(gpu, MEMSTORE_GLOBAL, CURRENT_CONTEXT, 1);
  }

  function TableAfter(gpu: Gpu, active: Option<Context>, ctx: Context, t: u64): u64 {
    if NeedsTable(gpu, active, ctx) then ctx.pagetable.ttbr0 else t
  }

  lemma SwitchParses(j: Job, active: Option<Context>, ctx: Context)
    ensures var parsed := Parse(A5xxRing.SwitchDwords(j.gpu, j.rb, active, ctx));
            && parsed.Some?
            && Shows(parsed.value, ContextSwitchEffects(j.gpu, j.rb, active, ctx), StartMode(j.flags))
  {
    hide Parse, Encode, Shows;
    ParseEncode(ContextSwitch(j.gpu, j.rb, active, ctx));
    ContextSwitchShows(j.gpu, j.rb, active, ctx, StartMode(j.flags));
  }

  // Whether the effects load a pagetable into the SMMU.
  predicate Updates(es: seq<Effect>) {
    exists e <- es :: e.TableUpdate?
  }

  /**
    A context switch loads a pagetable exactly if the new context has its own and it is not that of the context before;
    then it loads this one, once, for this context.
   */
  lemma SwitchUpdates(j: Job, active: Option<Context>, ctx: Context)
    ensures var xs := ContextSwitchEffects(j.gpu, j.rb, active, ctx);
            var parsed := Parse(A5xxRing.SwitchDwords(j.gpu, j.rb, active, ctx));
            var own := ctx.pagetable != j.gpu.defaultPagetable;
            var same := active.Some? && active.value.pagetable == ctx.pagetable;
            && parsed.Some? && Strip(Run(parsed.value, StartMode(j.flags))) == xs
            && (Updates(xs) <==> own && !same)
            && (Updates(xs) ==> xs[0] == TableUpdate(ctx.pagetable.ttbr0, ctx.id) && !Updates(xs[1..]))
  {
    UpdatesFirst(j.gpu, j.rb, active, ctx);
    hide Parse, Run, EndMode, A5xxRing.SwitchDwords, ContextSwitchEffects, Updates, Strip, Stamp;
    SwitchParses(j, active, ctx);
    StripStamp(StartMode(j.flags), ContextSwitchEffects(j.gpu, j.rb, active, ctx));
  }

  lemma UpdatesFirst(gpu: Gpu, rb: Ring, active: Option<Context>, ctx: Context)
    ensures var xs, own := ContextSwitchEffects(gpu, rb, active, ctx), ctx.pagetable != gpu.defaultPagetable;
            var same := active.Some? && active.value.pagetable == ctx.pagetable;
            && |xs| >= 1 && (Updates(xs) <==> own && !same)
            && (Updates(xs) ==> xs[0] == TableUpdate(ctx.pagetable.ttbr0, ctx.id) && !Updates(xs[1..]))
  {
    hide MemstoreAddr, RingMemstoreAddr, ScratchTtbr0Addr, Lo, Hi;
    if NeedsTable(gpu, active, ctx) {
      assert ContextSwitchEffects(gpu, rb, active, ctx)[0] == TableUpdate(ctx.pagetable.ttbr0, ctx.id);
    }
  }

  /** A queued context switch is good, and leaves the ring at rest under the new context's pagetable. */
  lemma SwitchMovesTable(j: Job, active: Option<Context>, ctx: Context, v: Tables)
    requires Layout(j.gpu) && InRange(j) && j.ctx == None && AtRest(v)
    ensures var actions := Actions(j, A5xxRing.SwitchDwords(j.gpu, j.rb, active, ctx));
            var t := TableAfter(j.gpu, active, ctx, v.ttbr0);
            Good(j.gpu, j.rb.id, actions, v) && Final(j.gpu, j.rb.id, actions, v) == Tables(t, t, false, true)
  {
    SwitchParses(j, active, ctx);
    var input, cc := A5xxRing.SwitchDwords(j.gpu, j.rb, active, ctx), CurrentContextEffects(j.gpu, j.rb, ctx);
    CurrentContextNeutral(j.gpu, j.rb, ctx);
    if NeedsTable(j.gpu, active, ctx) {
      SwitchWithTable(j, active, ctx, v);
    } else {
      assert ContextSwitchEffects(j.gpu, j.rb, active, ctx) == [] + cc == cc;
      hide Parse, Shows, Good, Final, Actions, A5xxRing.SwitchDwords, AllNeutral, Retire, Setup;
      WorkKeepsTable(j.rb.id, j, input, cc, v);
    }
  }

  lemma SwitchWithTable(j: Job, active: Option<Context>, ctx: Context, v: Tables)
    requires Layout(j.gpu) && InRange(j) && j.ctx == None && AtRest(v) && NeedsTable(j.gpu, active, ctx)
    ensures var actions := Actions(j, A5xxRing.SwitchDwords(j.gpu, j.rb, active, ctx));
            var t := ctx.pagetable.ttbr0;
            Good(j.gpu, j.rb.id, actions, v) && Final(j.gpu, j.rb.id, actions, v) == Tables(t, t, false, true)
  {
    var k, t := j.rb.id, ctx.pagetable.ttbr0;
    var table, cc := TableSwitchEffects(j.gpu, j.rb, ctx), CurrentContextEffects(j.gpu, j.rb, ctx);
    var start, end, rest := Level(j), Yield(0, 1, 1), cc + Retire(j);
    var v1, v2, v3 := v.(fine := false, yielded := false), Tables(t, t, false, false), Tables(t, t, false, true);
    assert j.gpu.preemption && Apart(j.gpu, k, start) && Apart(j.gpu, k, end);
    assert Step(j.gpu, k, start, v) == v1 && Step(j.gpu, k, end, v2) == v3;
    assert Safe(v) && Safe(v1) && Safe(v2) && Safe(v3) && !HasOwnTable(j.gpu, None);
    assert ContextSwitchEffects(j.gpu, j.rb, active, ctx) == table + cc;
    var input := A5xxRing.SwitchDwords(j.gpu, j.rb, active, ctx);
    hide *;
    SwitchParses(j, active, ctx);
    ActionsAround(j, input, table + cc);
    SetupNeutral(j);
    RetireNeutral(j);
    CurrentContextNeutral(j.gpu, j.rb, ctx);
    NeutralConcat(j.gpu, cc, Retire(j));
    BorderSteps(j.gpu, k, None, start, v);
    NeutralStretch(j.gpu, k, None, Setup(j), v1);
    TableSwitchSteps(j.gpu, j.rb, ctx, v1);
    NeutralStretch(j.gpu, k, None, rest, v2);
    BorderSteps(j.gpu, k, None, end, v2);
    var a, b, c, d, e := Tag(None, [start]), Tag(None, Setup(j)), Tag(None, table), Tag(None, rest), Tag(None, [end]);
    GoodConcat(j.gpu, k, a, b, v);
    GoodConcat(j.gpu, k, a + b, c, v);
    GoodConcat(j.gpu, k, a + b + c, d, v);
    GoodConcat(j.gpu, k, a + b + c + d, e, v);
    FiveTags(start, Setup(j), table, cc, Retire(j), end);
  }

  lemma FiveTags(start: Effect, xs: seq<Effect>, ys: seq<Effect>, zs: seq<Effect>, ws: seq<Effect>, end: Effect)
    ensures Tag(None, [start] + (xs + (ys + zs) + ws) + [end])
         == Tag(None, [start]) + Tag(None, xs) + Tag(None, ys) + Tag(None, zs + ws) + Tag(None, [end])
  {
    hide Tag;
    assert xs + (ys + zs) + ws == xs + ys + (zs + ws);
  }

  // ------------------------------------------------------- a command object

  lemma {:induction false} KeptIbsNeutral(gpu: Gpu, ibs: seq<IbNode>, flags: u32)
    ensures AllNeutral(gpu, KeptIbs(ibs, flags))
  {
    hide IsSkipped;
    if |ibs| != 0 {
      KeptIbsNeutral(gpu, ibs[1..], flags);
    }
  }

  /** A command object's buffer leaves the pagetable alone. */
  lemma CommandNeutral(gpu: Gpu, prof: Profiling, ibs: seq<IbNode>, flags: u32)
    ensures AllNeutral(gpu, CommandEffects(gpu, prof, ibs, flags))
  {
    hide KeptIbs, ListedIbs, IsUserProfile, IsKernelProfile;
    KeptIbsNeutral(gpu, ListedIbs(ibs, flags), flags);
  }

  // ------------------------------------------------- the ring in memory

  function Effects(actions: seq<Action>): (es: seq<Effect>)
    ensures |es| == |actions| && forall i | 0 <= i < |actions| :: es[i] == actions[i].effect
  {
    seq(|actions|, i requires 0 <= i < |actions| => actions[i].effect)
  }

  lemma EffectsConcat(xs: seq<Action>, ys: seq<Action>)
    ensures Effects(xs + ys) == Effects(xs) + Effects(ys)
  {
  }

  lemma EffectsOfTag(ctx: Option<Context>, es: seq<Effect>)
    ensures Effects(Tag(ctx, es)) == es
  {
  }

  /**
    A queue of actions stays what the GPU will decode and do when it reads the ring: adding a submission's
    dwords to the ring and its actions to the queue is the same step.
   */
  lemma RingGrowsByActions(gpu: Gpu, id: nat, before: seq<u32>, job: Job, input: seq<u32>, after: seq<u32>,
      log: seq<Action>)
    requires gpu.preemption && RingMemory.Sound(before) && A5xxRing.Extended(gpu, id, before, job, input, after)
    requires Parse(input).Some? && A5xxRing.KeepsMode(Parse(input).value, StartMode(job.flags))
    requires Effects(log) == Strip(Run(Parse(before).value, HomeMode))
    ensures RingMemory.Sound(after) && Effects(log + Actions(job, input)) == Strip(Run(Parse(after).value, HomeMode))
  {
    hide Run, Parse, Submission, RingMemory.Sound, A5xxRing.Extended, A5xxRing.KeepsMode, Effects;
    assert RingMemory.Sound(before) ==> Parse(before).Some? by { SoundParses(before); }
    A5xxRing.SubmissionsCompose(gpu, id, before, job, input, after);
    SoundParses(after);
    var sub := Strip(Run(Parse(Submission(job, input)).value, HomeMode));
    EffectsConcat(log, Actions(job, input));
    EffectsOfTag(job.ctx, sub);
    StripConcat(Run(Parse(before).value, HomeMode), Run(Parse(Submission(job, input)).value, HomeMode));
  }

  lemma SoundParses(input: seq<u32>)
    ensures RingMemory.Sound(input) ==> Parse(input).Some?
  {
    hide Parse, EndMode;
  }
}
