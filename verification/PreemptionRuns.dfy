/**
  Whole runs of the preemption protocol: no submission is lost, the highest
  priority ring is chosen, and every IB runs under its own context's pagetable.
 */
module PreemptionRuns {
  import opened Words
  import opened CommandProcessor
  import opened Adreno
  import opened A5xxStream
  import opened PagetableStream
  import opened Preemption
  import A5xxRing
  import Pm4

  // ------------------------------------------------- pagetables of all rings

  // The pagetable the last table update among `actions` set.
  function LastUpdate(actions: seq<Action>, t: u64): u64 {
    if |actions| == 0 then t
    else
      var e := actions[|actions| - 1].effect;
      if e.TableUpdate? then e.ttbr0 else LastUpdate(actions[..|actions| - 1], t)
  }

  ghost function Unexecuted(m: Machine, k: nat): seq<Action>
    requires Protocol(m) && k < |m.rings|
  {
    m.rings[k].log[m.core.progress[k].done..]
  }

  ghost function ExecutedSoFar(m: Machine, k: nat): seq<Action>
    requires Protocol(m) && k < |m.rings|
  {
    m.rings[k].log[..m.core.progress[k].done]
  }

  ghost function EndTables(gpu: Gpu, m: Machine, k: nat): Tables
    requires Protocol(m) && k < |m.rings|
  {
    Final(gpu, k, Unexecuted(m, k), TablesOf(m, k))
  }

  // The active context's pagetable is the one its queue ends with.
  ghost predicate Linked(gpu: Gpu, active: Option<Context>, end: Tables) {
    AtRest(end) && (HasOwnTable(gpu, active) ==> end.ttbr0 == active.value.pagetable.ttbr0)
  }

  ghost predicate RingGood(gpu: Gpu, m: Machine, k: nat)
    requires Protocol(m) && k < |m.rings|
  {
    && Good(gpu, k, Unexecuted(m, k), TablesOf(m, k))
    && Linked(gpu, m.rings[k].active, EndTables(gpu, m, k))
    && TablesOf(m, k).ttbr0 == LastUpdate(ExecutedSoFar(m, k), gpu.defaultPagetable.ttbr0)
  }

  ghost predicate TablesHold(gpu: Gpu, m: Machine)
    requires Protocol(m)
  {
    && (forall k :: 0 <= k < |m.rings| ==> RingGood(gpu, m, k))
    && (m.switching ==> m.smmu == m.rings[m.restore].scratch)
  }

  // Two machines between which nothing happened that matters to ring `k`.
  ghost predicate SameRing(m: Machine, r: Machine, k: nat)
    requires Protocol(m) && Protocol(r) && |m.rings| == |r.rings| && k < |m.rings|
  {
    && r.rings[k].log == m.rings[k].log && r.rings[k].active == m.rings[k].active
    && r.core.progress[k] == m.core.progress[k] && TablesOf(r, k) == TablesOf(m, k)
  }

  lemma SameRingGood(gpu: Gpu, m: Machine, r: Machine, k: nat)
    requires Protocol(m) && Protocol(r) && |m.rings| == |r.rings| && k < |m.rings|
    requires SameRing(m, r, k)
    ensures RingGood(gpu, m, k) <==> RingGood(gpu, r, k)
  {
    hide Good, Final, LastUpdate, Linked, TablesOf;
  }

  lemma AllSame(gpu: Gpu, m: Machine, r: Machine)
    requires Protocol(m) && Protocol(r) && |m.rings| == |r.rings|
    requires forall k :: 0 <= k < |m.rings| ==> SameRing(m, r, k)
    requires TablesHold(gpu, m) && (r.switching ==> r.smmu == r.rings[r.restore].scratch)
    ensures TablesHold(gpu, r)
  {
    hide SameRing, RingGood;
    forall k | 0 <= k < |m.rings| ensures RingGood(gpu, r, k) {
      SameRingGood(gpu, m, r, k);
    }
  }

  lemma TriggersKeepTables(gpu: Gpu, m: Machine)
    requires Protocol(m) && TablesHold(gpu, m)
    ensures Protocol(Triggers(m)) && TablesHold(gpu, Triggers(m))
  {
    TriggersKeepProtocol(m);
    var r := Triggers(m);
    assert |r.rings| == |m.rings|;
    assert forall k :: 0 <= k < |m.rings| ==> SameRing(m, r, k);
    assert r.switching ==> r.smmu == r.rings[r.restore].scratch;
    hide *;
    AllSame(gpu, m, r);
  }

  lemma HandOffKeepsTables(gpu: Gpu, m: Machine)
    requires Protocol(m) && TablesHold(gpu, m) && m.state != Clear && !m.switching
    ensures Protocol(HandedOff(m)) && TablesHold(gpu, HandedOff(m))
  {
    HandOffKeepsProtocol(m);
    var r := HandedOff(m);
    assert forall k :: 0 <= k < |m.rings| ==> SameRing(m, r, k);
    assert !r.switching && |r.rings| == |m.rings|;
    hide *;
    AllSame(gpu, m, r);
  }

  lemma PreemptedKeepsTables(gpu: Gpu, m: Machine)
    requires Protocol(m) && TablesHold(gpu, m)
    ensures Protocol(Preempted(m)) && TablesHold(gpu, Preempted(m))
  {
    PreemptedKeepsProtocol(m);
    var r := Preempted(m);
    if CanPreempt(m) {
      assert RingGood(gpu, m, m.core.ring) && Safe(TablesOf(m, m.core.ring)) && |r.rings| == |m.rings|;
      forall k | 0 <= k < |m.rings| ensures SameRing(m, r, k) {
      }
      assert !r.switching;
      hide *;
      AllSame(gpu, m, r);
    }
  }

  lemma ReportedKeepsTables(gpu: Gpu, m: Machine, k: nat, rptr: nat)
    requires Protocol(m) && TablesHold(gpu, m) && k < |m.rings|
    ensures Protocol(Reported(m, k, rptr)) && TablesHold(gpu, Reported(m, k, rptr))
  {
    ReportedKeepsProtocol(m, k, rptr);
    var r := Reported(m, k, rptr);
    assert forall k :: 0 <= k < |m.rings| ==> SameRing(m, r, k);
    assert |r.rings| == |m.rings| && (r.switching ==> r.smmu == r.rings[r.restore].scratch);
    hide *;
    AllSame(gpu, m, r);
  }

  lemma RestartedTables(gpu: Gpu, m: Machine, cur: nat)
    requires Wf(m) && cur < |m.rings|
    ensures Protocol(Restarted(gpu, m, cur)) && TablesHold(gpu, Restarted(gpu, m, cur))
  {
    RestartedProtocol(gpu, m, cur);
  }

  lemma PowerUpTables(gpu: Gpu, rings: nat)
    requires 1 <= rings <= MAX_RINGS
    ensures TablesHold(gpu, PowerUp(gpu, rings))
  {
    var blank := Machine(Clear, 0, None, None, seq(rings, i => FreshQueue(gpu)), 0, false, 0, 0,
                         Core(0, 0, seq(rings, i => Progress(0, false, true))));
    RestartedTables(gpu, blank, 0);
  }

  // ------------------------------------------------------------- executing

  lemma ExecutedRing(gpu: Gpu, m: Machine)
    requires Layout(gpu) && Protocol(m) && TablesHold(gpu, m) && CanExecute(m)
    ensures var r, h := Executed(gpu, m), m.core.ring;
            && RightTable(gpu, NextAction(m), m.core.ttbr0) && Apart(gpu, h, NextAction(m).effect)
            && Protocol(r) && |r.rings| == |m.rings| && RingGood(gpu, r, h)
  {
    ExecutedKeepsProtocol(gpu, m);
    hide RightTable, Apart, Safe, Step, Layout, Linked;
    var r, h := Executed(gpu, m), m.core.ring;
    var v, todo, done := TablesOf(m, h), Unexecuted(m, h), ExecutedSoFar(m, h);
    assert RingGood(gpu, m, h);
    assert todo[0] == NextAction(m);
    assert Unexecuted(r, h) == todo[1..];
    assert ExecutedSoFar(r, h) == done + [todo[0]];
    ExecutedTables(gpu, m);
    assert TablesOf(r, h) == Step(gpu, h, todo[0].effect, v);
    assert (done + [todo[0]])[..|done|] == done;
    StepTable(gpu, h, todo[0].effect, v);
  }

  lemma StepTable(gpu: Gpu, k: nat, e: Effect, v: Tables)
    ensures Step(gpu, k, e, v).ttbr0 == if e.TableUpdate? then e.ttbr0 else v.ttbr0
  {
  }

  lemma ExecutedTables(gpu: Gpu, m: Machine)
    requires Protocol(m) && CanExecute(m) && Protocol(Executed(gpu, m))
    ensures TablesOf(Executed(gpu, m), m.core.ring)
        == Step(gpu, m.core.ring, NextAction(m).effect, TablesOf(m, m.core.ring))
  {
    hide Scratch;
  }

  lemma ExecutedElsewhere(gpu: Gpu, m: Machine, k: nat)
    requires Layout(gpu) && Protocol(m) && CanExecute(m) && k < |m.rings| && k != m.core.ring
    requires Apart(gpu, m.core.ring, NextAction(m).effect)
    ensures var r := Executed(gpu, m);
            Protocol(r) && |r.rings| == |m.rings| && SameRing(m, r, k) && r.rings[k].scratch == m.rings[k].scratch
  {
    ExecutedKeepsProtocol(gpu, m);
    hide Apart, Scratch, Step, Layout;
    ApartKeepsOthers(gpu, k, m.core.ring, NextAction(m).effect, m.rings[k].scratch);
  }

  lemma ExecutedKeepsTables(gpu: Gpu, m: Machine)
    requires Layout(gpu) && Protocol(m) && TablesHold(gpu, m)
    ensures Protocol(Executed(gpu, m)) && TablesHold(gpu, Executed(gpu, m))
    ensures CanExecute(m) ==> RightTable(gpu, NextAction(m), m.core.ttbr0)
  {
    ExecutedKeepsProtocol(gpu, m);
    hide Layout, RightTable, Apart, RingGood, SameRing, Step;
    if CanExecute(m) {
      var r, h := Executed(gpu, m), m.core.ring;
      ExecutedRing(gpu, m);
      forall k | 0 <= k < |r.rings| && k != h ensures RingGood(gpu, r, k) && r.rings[k].scratch == m.rings[k].scratch {
        ExecutedElsewhere(gpu, m, k);
        SameRingGood(gpu, m, r, k);
      }
    }
  }

  // ------------------------------------------------------------- submitting

  lemma SubmittedRing(gpu: Gpu, m: Machine, k: nat, actions: seq<Action>)
    requires Protocol(m) && k < |m.rings| && RingGood(gpu, m, k)
    ensures var r, end := Submitted(m, k, actions), EndTables(gpu, m, k);
            && Protocol(r) && |r.rings| == |m.rings| && r.rings[k].active == m.rings[k].active
            && EndTables(gpu, r, k) == Final(gpu, k, actions, end)
            && (RingGood(gpu, r, k) <==>
                  Good(gpu, k, actions, end) && Linked(gpu, m.rings[k].active, Final(gpu, k, actions, end)))
  {
    SubmittedKeepsProtocol(m, k, actions);
    var r := Submitted(m, k, actions);
    assert r.rings[k].active == m.rings[k].active;
    assert Unexecuted(r, k) == Unexecuted(m, k) + actions;
    assert ExecutedSoFar(r, k) == ExecutedSoFar(m, k) && TablesOf(r, k) == TablesOf(m, k);
    hide Submitted, Unexecuted, ExecutedSoFar, TablesOf, Good, Final, LastUpdate, Protocol, Linked;
    GoodConcat(gpu, k, Unexecuted(m, k), actions, TablesOf(m, k));
  }

  lemma SubmittedElsewhere(gpu: Gpu, m: Machine, k: nat, actions: seq<Action>)
    requires Protocol(m) && TablesHold(gpu, m) && k < |m.rings|
    ensures var r := Submitted(m, k, actions);
            && Protocol(r) && |r.rings| == |m.rings|
            && (TablesHold(gpu, r) <==> RingGood(gpu, r, k))
            && forall i :: 0 <= i < |r.rings| && i != k ==> RingGood(gpu, r, i)
  {
    SubmittedKeepsProtocol(m, k, actions);
    var r := Submitted(m, k, actions);
    hide RingGood;
    forall i | 0 <= i < |r.rings| && i != k ensures RingGood(gpu, r, i) {
      SameRingGood(gpu, m, r, i);
    }
  }

  // Submitting plain work under the ring's active context, or none, keeps everything in order.
  lemma EnqueuedKeepsTables(gpu: Gpu, m: Machine, j: Job, input: seq<u32>)
    requires Layout(gpu) && Protocol(m) && TablesHold(gpu, m) && Allowed(gpu, m, Enqueue(j, input))
    ensures var r := Submitted(m, j.rb.id, Actions(j, input));
            Protocol(r) && TablesHold(gpu, r)
  {
    hide Layout, InRange, Actions, Submitted, Good, Final, PreemptStyle, Neutral, RunsIb, EndTables;
    var k := j.rb.id;
    assert RingGood(gpu, m, k);
    SubmittedRing(gpu, m, k, Actions(j, input));
    SubmittedElsewhere(gpu, m, k, Actions(j, input));
    WorkKeepsTable(k, j, input, PayloadEffects(j, input), EndTables(gpu, m, k));
  }

  // ------------------------------------------------------ switching contexts

  lemma {:induction false} UpdatesAreFinal(gpu: Gpu, k: nat, done: seq<Action>, todo: seq<Action>, v: Tables, t: u64)
    requires v.ttbr0 == LastUpdate(done, t)
    ensures Final(gpu, k, todo, v).ttbr0 == LastUpdate(done + todo, t)
    decreases |todo|
  {
    if |todo| == 0 {
      assert done + todo == done;
    } else {
      assert (done + [todo[0]])[..|done|] == done;
      assert done + todo == done + [todo[0]] + todo[1..];
      UpdatesAreFinal(gpu, k, done + [todo[0]], todo[1..], Step(gpu, k, todo[0].effect, v), t);
    }
  }

  lemma QueuedTable(gpu: Gpu, m: Machine, k: nat)
    requires Protocol(m) && k < |m.rings| && RingGood(gpu, m, k)
    ensures EndTables(gpu, m, k).ttbr0 == LastUpdate(m.rings[k].log, gpu.defaultPagetable.ttbr0)
  {
    hide Good, Final, LastUpdate, TablesOf, Linked;
    UpdatesAreFinal(gpu, k, ExecutedSoFar(m, k), Unexecuted(m, k), TablesOf(m, k), gpu.defaultPagetable.ttbr0);
    assert ExecutedSoFar(m, k) + Unexecuted(m, k) == m.rings[k].log;
  }

  // The switch was queued, or no pagetable had to be changed, or the right one happens to be the last one queued.
  predicate Covered(gpu: Gpu, m: Machine, k: nat, ctx: Context, queued: bool)
    requires k < |m.rings|
  {
    var active := m.rings[k].active;
    || queued
    || active == Some(ctx)
    || !NeedsTable(gpu, active, ctx)
    || LastUpdate(m.rings[k].log, gpu.defaultPagetable.ttbr0) == ctx.pagetable.ttbr0
  }

  // Making `ctx` active on a ring: good exactly when its pagetable is the last one queued.
  lemma ActivatedTables(gpu: Gpu, m: Machine, k: nat, ctx: Context)
    requires Protocol(m) && k < |m.rings| && Good(gpu, k, Unexecuted(m, k), TablesOf(m, k))
        && AtRest(EndTables(gpu, m, k))
    requires TablesOf(m, k).ttbr0 == LastUpdate(ExecutedSoFar(m, k), gpu.defaultPagetable.ttbr0)
    requires forall i :: 0 <= i < |m.rings| && i != k ==> RingGood(gpu, m, i)
    requires m.switching ==> m.smmu == m.rings[m.restore].scratch
    ensures var r := Activated(m, k, ctx);
            && Protocol(r)
            && (TablesHold(gpu, r) <==> Linked(gpu, Some(ctx), EndTables(gpu, m, k)))
  {
    ActivatedKeepsProtocol(m, k, ctx);
    var r := Activated(m, k, ctx);
    assert Unexecuted(r, k) == Unexecuted(m, k) && ExecutedSoFar(r, k) == ExecutedSoFar(m, k)
        && TablesOf(r, k) == TablesOf(m, k);
    assert r.rings[k].active == Some(ctx);
    assert RingGood(gpu, r, k) <==> Linked(gpu, Some(ctx), EndTables(gpu, m, k)) by {
      hide Activated, Unexecuted, ExecutedSoFar, TablesOf, Good, Final, LastUpdate, Protocol, Linked;
    }
    hide RingGood, Linked, LastUpdate, Good, Final;
    forall i | 0 <= i < |r.rings| && i != k ensures RingGood(gpu, r, i) {
      SameRingGood(gpu, m, r, i);
    }
  }

  // What the last queued table must be for the link to hold again.
  lemma LinkCondition(gpu: Gpu, active: Option<Context>, ctx: Context, end: Tables)
    requires Linked(gpu, active, end)
    ensures Linked(gpu, Some(ctx), end) <==> !NeedsTable(gpu, active, ctx) || end.ttbr0 == ctx.pagetable.ttbr0
    ensures var t := TableAfter(gpu, active, ctx, end.ttbr0); Linked(gpu, Some(ctx), Tables(t, t, false, true))
  {
  }

  /** A context switch leaves every ring in order if and only if it is covered. */
  lemma SwitchedKeepsTables(gpu: Gpu, m: Machine, k: nat, ctx: Context, queued: bool, j: Job)
    requires Layout(gpu) && Protocol(m) && TablesHold(gpu, m) && Allowed(gpu, m, SwitchContext(k, ctx, queued, j))
    ensures var r := Switched(m, k, ctx, queued, j);
            Protocol(r) && (TablesHold(gpu, r) <==> Covered(gpu, m, k, ctx, queued))
  {
    SwitchedKeepsProtocol(m, k, ctx, queued, j);
    var active, end := m.rings[k].active, EndTables(gpu, m, k);
    assert RingGood(gpu, m, k);
    assert Linked(gpu, active, end) && AtRest(end);
    QueuedTable(gpu, m, k);
    LinkCondition(gpu, active, ctx, end);
    if active != Some(ctx) {
      if queued {
        SwitchQueued(gpu, m, k, ctx, j);
      } else {
        ActivatedTables(gpu, m, k, ctx);
      }
    }
  }

  lemma SwitchQueued(gpu: Gpu, m: Machine, k: nat, ctx: Context, j: Job)
    requires Layout(gpu) && Protocol(m) && TablesHold(gpu, m) && Allowed(gpu, m, SwitchContext(k, ctx, true, j))
    requires m.rings[k].active != Some(ctx)
    ensures var r := Switched(m, k, ctx, true, j); Protocol(r) && TablesHold(gpu, r)
  {
    var active, end := m.rings[k].active, EndTables(gpu, m, k);
    assert RingGood(gpu, m, k);
    assert AtRest(end) && Linked(gpu, active, end);
    var actions := Actions(j, A5xxRing.SwitchDwords(j.gpu, j.rb, active, ctx));
    var r1 := Submitted(m, k, actions);
    assert Switched(m, k, ctx, true, j) == Activated(r1, k, ctx);
    SubmittedRest(m, k, actions);
    assert j.gpu == gpu && j.rb.id == k;
    assert m.switching ==> m.smmu == m.rings[m.restore].scratch;
    hide *;
    SwitchMovesTable(j, active, ctx, end);
    LinkCondition(gpu, active, ctx, end);
    SubmittedRing(gpu, m, k, actions);
    SubmittedElsewhere(gpu, m, k, actions);
    SubmittedParts(gpu, m, k, actions);
    ActivatedTables(gpu, r1, k, ctx);
  }

  lemma SubmittedRest(m: Machine, k: nat, actions: seq<Action>)
    requires Wf(m) && k < |m.rings|
    ensures var r := Submitted(m, k, actions);
            && r.switching == m.switching && r.smmu == m.smmu && r.restore == m.restore
            && forall i :: 0 <= i < |m.rings| ==> r.rings[i].scratch == m.rings[i].scratch
  {
  }

  lemma SubmittedParts(gpu: Gpu, m: Machine, k: nat, actions: seq<Action>)
    requires Protocol(m) && k < |m.rings| && RingGood(gpu, m, k) && Good(gpu, k, actions, EndTables(gpu, m, k))
    ensures var r := Submitted(m, k, actions);
            && Protocol(r) && k < |r.rings|
            && Good(gpu, k, Unexecuted(r, k), TablesOf(r, k))
            && TablesOf(r, k).ttbr0 == LastUpdate(ExecutedSoFar(r, k), gpu.defaultPagetable.ttbr0)
  {
    SubmittedKeepsProtocol(m, k, actions);
    var r := Submitted(m, k, actions);
    assert Unexecuted(r, k) == Unexecuted(m, k) + actions;
    assert ExecutedSoFar(r, k) == ExecutedSoFar(m, k) && TablesOf(r, k) == TablesOf(m, k);
    hide Submitted, Unexecuted, ExecutedSoFar, TablesOf, Good, Final, LastUpdate, Protocol, Linked;
    GoodConcat(gpu, k, Unexecuted(m, k), actions, TablesOf(m, k));
  }

  // ------------------------------------------------------------------- runs

  ghost predicate MoveCovered(gpu: Gpu, m: Machine, move: Move)
    requires Protocol(m) && Allowed(gpu, m, move)
  {
    move.SwitchContext? ==> Covered(gpu, m, move.k, move.ctx, move.queued)
  }

  lemma TablesKept(gpu: Gpu, m: Machine, move: Move)
    requires Layout(gpu) && Protocol(m) && TablesHold(gpu, m) && Allowed(gpu, m, move)
    ensures Protocol(Next(gpu, m, move))
    ensures TablesHold(gpu, Next(gpu, m, move)) <==> MoveCovered(gpu, m, move)
  {
    ProtocolKept(gpu, m, move);
    if move.SwitchContext? {
      hide Layout, Protocol, TablesHold, Covered, Actions, Submitted, Switched;
      SwitchedKeepsTables(gpu, m, move.k, move.ctx, move.queued, move.switchJob);
    } else {
      hide Layout, Protocol, TablesHold;
      OtherMovesKeepTables(gpu, m, move);
    }
  }

  lemma OtherMovesKeepTables(gpu: Gpu, m: Machine, move: Move)
    requires Layout(gpu) && Protocol(m) && TablesHold(gpu, m) && Allowed(gpu, m, move) && !move.SwitchContext?
    ensures Protocol(Next(gpu, m, move)) && TablesHold(gpu, Next(gpu, m, move))
  {
    ProtocolKept(gpu, m, move);
    hide Layout, Protocol, TablesHold, Actions, CalledBack, Scheduled, Triggers, Executed, Preempted, Reported,
        Restarted, Submitted, Plain;
    match move
    case Enqueue(j, input) => EnqueuedKeepsTables(gpu, m, j, input);
    case Trigger => TriggersKeepTables(gpu, m);
    case Callback => CallbackKeepsTables(gpu, m);
    case Schedule(awake) => ScheduleKeepsTables(gpu, m, awake);
    case Timer =>
      if m.state == Triggered {
        StateKeepsTables(gpu, m, Faulted);
      }
    case Worker(awake) =>
      if Worked(m, awake) != m {
        StateKeepsTables(gpu, m, Complete);
      }
    case Restart(cur) => RestartKeepsTables(gpu, m, cur);
    case Execute => ExecutedKeepsTables(gpu, m);
    case Preempt => PreemptedKeepsTables(gpu, m);
    case Report(k, rptr) => ReportedKeepsTables(gpu, m, k, rptr);
  }

  lemma RestartKeepsTables(gpu: Gpu, m: Machine, cur: nat)
    requires Protocol(m) && cur < |m.rings|
    ensures Protocol(Restarted(gpu, m, cur)) && TablesHold(gpu, Restarted(gpu, m, cur))
  {
    assert Wf(m);
    hide Protocol, TablesHold, Restarted;
    RestartedTables(gpu, m, cur);
  }

  lemma StateKeepsTables(gpu: Gpu, m: Machine, state: State)
    requires Protocol(m) && TablesHold(gpu, m) && Protocol(m.(state := state))
    ensures TablesHold(gpu, m.(state := state))
  {
    var r := m.(state := state);
    assert forall k :: 0 <= k < |m.rings| ==> SameRing(m, r, k);
    assert r.switching ==> r.smmu == r.rings[r.restore].scratch;
    hide *;
    AllSame(gpu, m, r);
  }

  lemma CallbackKeepsTables(gpu: Gpu, m: Machine)
    requires Protocol(m) && TablesHold(gpu, m) && Protocol(CalledBack(m))
    ensures TablesHold(gpu, CalledBack(m))
  {
    assert Wf(m) && (m.state == Triggered ==> m.next.Some? && m.next.value < |m.rings|);
    hide Protocol, TablesHold, Triggers, HandedOff;
    if m.state == Triggered {
      if m.switching {
        StateKeepsTables(gpu, m, Complete);
      } else {
        HandOffKeepsTables(gpu, m);
        TriggersKeepTables(gpu, HandedOff(m));
      }
    }
  }

  lemma ScheduleKeepsTables(gpu: Gpu, m: Machine, awake: bool)
    requires Protocol(m) && TablesHold(gpu, m) && Protocol(Scheduled(m, awake))
    ensures TablesHold(gpu, Scheduled(m, awake))
  {
    assert Wf(m) && (m.state == Complete ==> m.next.Some? && m.next.value < |m.rings|);
    hide Protocol, TablesHold, Triggers, HandedOff;
    if m.state == Complete && awake && !m.switching {
      HandOffKeepsTables(gpu, m);
      TriggersKeepTables(gpu, HandedOff(m));
    } else {
      TriggersKeepTables(gpu, m);
    }
  }

  ghost predicate AllowedRun(gpu: Gpu, m: Machine, moves: seq<Move>)
    requires Protocol(m)
    decreases |moves|
  {
    |moves| != 0 ==>
      && Allowed(gpu, m, moves[0])
      && (ProtocolKept(gpu, m, moves[0]); AllowedRun(gpu, Next(gpu, m, moves[0]), moves[1..]))
  }

  ghost predicate CoveredRun(gpu: Gpu, m: Machine, moves: seq<Move>)
    requires Protocol(m) && AllowedRun(gpu, m, moves)
    decreases |moves|
  {
    |moves| != 0 ==>
      && MoveCovered(gpu, m, moves[0])
      && (ProtocolKept(gpu, m, moves[0]); CoveredRun(gpu, Next(gpu, m, moves[0]), moves[1..]))
  }

  ghost function After(gpu: Gpu, m: Machine, moves: seq<Move>): Machine
    requires Protocol(m) && AllowedRun(gpu, m, moves)
    decreases |moves|
  {
    if |moves| == 0 then m
    else
      ProtocolKept(gpu, m, moves[0]);
      After(gpu, Next(gpu, m, moves[0]), moves[1..])
  }

  /** An action the command processor ran, and the TTBR0 it ran under. */
  datatype Ran = Ran(action: Action, ttbr0: u64)

  ghost function RanBy(m: Machine, move: Move): seq<Ran>
  {
    if move.Execute? && CanExecute(m) then [Ran(NextAction(m), m.core.ttbr0)] else []
  }

  ghost function Trace(gpu: Gpu, m: Machine, moves: seq<Move>): seq<Ran>
    requires Protocol(m) && AllowedRun(gpu, m, moves)
    decreases |moves|
  {
    if |moves| == 0 then []
    else
      ProtocolKept(gpu, m, moves[0]);
      RanBy(m, moves[0]) + Trace(gpu, Next(gpu, m, moves[0]), moves[1..])
  }

  lemma {:induction false} AfterProtocol(gpu: Gpu, m: Machine, moves: seq<Move>)
    requires Protocol(m) && AllowedRun(gpu, m, moves)
    ensures Protocol(After(gpu, m, moves))
    decreases |moves|
  {
    hide Protocol, Allowed, Next;
    if |moves| != 0 {
      ProtocolKept(gpu, m, moves[0]);
      AfterProtocol(gpu, Next(gpu, m, moves[0]), moves[1..]);
    }
  }

  /**
    No submission is lost: whatever happened, once no switch is going on the
    doorbell register is the current ring's write pointer, and that ring is the one running.
   */
  lemma NoSubmissionLost(gpu: Gpu, rings: nat, moves: seq<Move>)
    requires 1 <= rings <= MAX_RINGS && AllowedRun(gpu, PowerUp(gpu, rings), moves)
    ensures var m := After(gpu, PowerUp(gpu, rings), moves);
            Wf(m) && m.state != Start && m.state != Pending
            && (m.state == Clear ==> m.wptr == m.rings[m.cur].Wptr() && m.core.ring == m.cur && !m.switching)
  {
    AfterProtocol(gpu, PowerUp(gpu, rings), moves);
  }

  lemma {:induction false} TraceIsRight(gpu: Gpu, m: Machine, moves: seq<Move>)
    requires Layout(gpu) && Protocol(m) && TablesHold(gpu, m) && AllowedRun(gpu, m, moves) && CoveredRun(gpu, m, moves)
    ensures forall r <- Trace(gpu, m, moves) :: RightTable(gpu, r.action, r.ttbr0)
    decreases |moves|
  {
    hide Layout, Protocol, TablesHold, Allowed, Next, MoveCovered, RightTable;
    if |moves| != 0 {
      ProtocolKept(gpu, m, moves[0]);
      TablesKept(gpu, m, moves[0]);
      ExecutedKeepsTables(gpu, m);
      TraceIsRight(gpu, Next(gpu, m, moves[0]), moves[1..]);
    }
  }

  /**
    The pagetable survives preemption: over every run in which each context switch
    was queued (or needed no new pagetable), every IB of a context with a pagetable
    of its own runs with TTBR0 set to that pagetable.
   */
  lemma PagetableSurvives(gpu: Gpu, rings: nat, moves: seq<Move>)
    requires Layout(gpu) && 1 <= rings <= MAX_RINGS
    requires AllowedRun(gpu, PowerUp(gpu, rings), moves) && CoveredRun(gpu, PowerUp(gpu, rings), moves)
    ensures forall r <- Trace(gpu, PowerUp(gpu, rings), moves) :: RightTable(gpu, r.action, r.ttbr0)
  {
    PowerUpTables(gpu, rings);
    TraceIsRight(gpu, PowerUp(gpu, rings), moves);
  }

  /** The buffer submitcmd() builds is a payload these theorems speak about: its IBs are the listed ones. */
  lemma CommandPlain(j: Job, prof: Profiling, ibs: seq<IbNode>)
    ensures Plain(j, Command(j.gpu, prof, ibs, j.flags))
    ensures PayloadEffects(j, Command(j.gpu, prof, ibs, j.flags)) == CommandEffects(j.gpu, prof, ibs, j.flags)
  {
    hide Run, EndMode, Command, CommandEffects, Neutral, Pm4.Parse;
    CommandMeaning(j.gpu, prof, ibs, j.flags, StartMode(j.flags));
    CommandNeutral(j.gpu, prof, ibs, j.flags);
    StripStamp(StartMode(j.flags), CommandEffects(j.gpu, prof, ibs, j.flags));
  }

  // ------------------------------------------------ which switches are uncovered

  // Where a submission with an IB runs it.
  lemma IbIndex(j: Job, input: seq<u32>, ttbr0: u64) returns (i: nat)
    requires RunsIb(PayloadEffects(j, input)) && HasOwnTable(j.gpu, j.ctx) && ttbr0 != j.ctx.value.pagetable.ttbr0
    ensures var xs := Setup(j) + PayloadEffects(j, input) + Retire(j);
            i < |xs| && !RightTable(j.gpu, Action(xs[i], j.ctx), ttbr0)
  {
    hide Setup, PayloadEffects, Retire;
    var payload := PayloadEffects(j, input);
    var p :| 0 <= p < |payload| && payload[p].RunIb?;
    i := |Setup(j)| + p;
    assert (Setup(j) + payload + Retire(j))[i] == payload[p];
  }

  // A ring's queued work ends at rest under the table that was queued last.
  lemma RestsUnderLast(gpu: Gpu, m: Machine, k: nat)
    requires Protocol(m) && TablesHold(gpu, m) && k < |m.rings|
    ensures AtRest(EndTables(gpu, m, k))
    ensures EndTables(gpu, m, k).ttbr0 == LastUpdate(m.rings[k].log, gpu.defaultPagetable.ttbr0)
  {
    assert RingGood(gpu, m, k);
    hide LastUpdate, Good, TablesOf;
    QueuedTable(gpu, m, k);
  }

  /**
    When a switch that could not be queued is uncovered: exactly if the new context has a pagetable of its
    own that is not the last one queued. Behind a context with a pagetable of its own that is exactly a
    switch between different pagetables; on a ring no context has used it is one away from the default.
   */
  lemma UnqueuedUncovered(gpu: Gpu, m: Machine, k: nat, ctx: Context)
    requires Protocol(m) && TablesHold(gpu, m) && k < |m.rings| && m.rings[k].active != Some(ctx)
    ensures !Covered(gpu, m, k, ctx, false) <==>
      HasOwnTable(gpu, Some(ctx)) && NeedsTable(gpu, m.rings[k].active, ctx)
      && LastUpdate(m.rings[k].log, gpu.defaultPagetable.ttbr0) != ctx.pagetable.ttbr0
    ensures HasOwnTable(gpu, m.rings[k].active) ==>
      (!Covered(gpu, m, k, ctx, false) <==>
         HasOwnTable(gpu, Some(ctx)) && ctx.pagetable.ttbr0 != m.rings[k].active.value.pagetable.ttbr0)
    ensures m.rings[k].log == [] ==>
      (!Covered(gpu, m, k, ctx, false) <==>
         HasOwnTable(gpu, Some(ctx)) && ctx.pagetable.ttbr0 != gpu.defaultPagetable.ttbr0)
  {
    assert RingGood(gpu, m, k);
    RestsUnderLast(gpu, m, k);
  }

  /**
    A restart forgets all: no switch is under way, every ring is empty at position 0 with the default pagetable recorded
    and no context active, and the command processor is at its start, under that pagetable and free to leave any ring.
   */
  lemma RestartClears(gpu: Gpu, m: Machine, cur: nat)
    requires Wf(m) && cur < |m.rings|
    ensures var r, t := Restarted(gpu, m, cur), gpu.defaultPagetable.ttbr0;
            && Protocol(r) && r.state == Clear && r.cur == cur && !r.switching && r.wptr == 0 && r.smmu == t
            && r.core.ring == cur && r.core.ttbr0 == t && |r.rings| == |m.rings|
            && forall k | 0 <= k < |r.rings| ::
                 && r.rings[k] == Queue([], 0, 0, t, None) && r.rings[k].Empty()
                 && r.core.progress[k].done == 0 && !r.core.progress[k].fine && r.core.progress[k].yielded
  {
    RestartedProtocol(gpu, m, cur);
  }

  // ------------------------------------------------------- single handlers

  /** A trigger outside a switch settles on the non-empty ring of highest priority, or finds none. */
  lemma HighestPriority(m: Machine)
    requires Protocol(m) && m.state == Clear
    ensures var r := Triggers(m);
            && Protocol(r) && r.cur == m.cur
            && (r.state == Clear ==>
                  || (forall i :: 0 <= i < |r.rings| ==> r.rings[i].Empty())
                  || (!r.rings[r.cur].Empty() && forall i :: 0 <= i < r.cur ==> r.rings[i].Empty()))
            && (r.state != Clear ==>
                  && r.state == Triggered && r.next.Some? && r.next.value != r.cur && r.restore == r.next.value
                  && var next := r.rings[r.next.value];
                     !next.Empty() && next.saved == next.Wptr() && r.smmu == next.scratch && r.switching
                     && forall i :: 0 <= i < r.next.value ==> r.rings[i].Empty())
  {
    TriggersKeepProtocol(m);
  }

  /**
    A switch the command processor has completed is handed off exactly once, whichever of the handlers sees it first.
   */
  lemma CompletedSwitchLands(m: Machine)
    requires Protocol(m) && m.state != Clear && !m.switching
    ensures m.state == Triggered ==> Landed(m, CalledBack(m))
    ensures Landed(m, Scheduled(Worked(TimedOut(m), true), true))
    ensures m.state != Complete ==> Scheduled(m, true) == m
    ensures m.state != Triggered ==> CalledBack(m) == m
  {
    LandsAt(m);
    hide Protocol, Triggers, HandedOff, Landed;
  }

  /**
    An interrupt that comes before the command processor has switched defers the hand-off: no later time-out or worker
    undoes that, the dispatcher reports a fault as long as the switch is not through, and lands it once it is.
   */
  lemma DeferredSwitchLands(m: Machine)
    requires Protocol(m) && m.state == Triggered && m.switching
    ensures var d := CalledBack(m);
            && Protocol(d) && TimedOut(d) == d && Worked(d, true) == d && CalledBack(d) == d
            && ScheduleFaults(d, true) && Scheduled(d, true) == d
            && Scheduled(d, false) == d && !ScheduleFaults(d, false) && !WorkerFaults(d, true)
                && !WorkerFaults(d, false)
            && (CanPreempt(m) ==>
                  !ScheduleFaults(Preempted(d), true) && Landed(m, Scheduled(Preempted(d), true)))
  {
    hide Triggers, HandedOff, Landed;
    if CanPreempt(m) {
      PreemptedKeepsProtocol(CalledBack(m));
      LandsAt(Preempted(CalledBack(m)));
      LandedFrom(m, Preempted(CalledBack(m)), Scheduled(Preempted(CalledBack(m)), true));
    }
    TriggersElsewhere(CalledBack(m));
  }

  lemma TriggersElsewhere(m: Machine)
    requires m.cur < |m.rings| && m.state != Clear
    ensures Triggers(m) == m
  {
  }

  lemma LandedFrom(m: Machine, p: Machine, r: Machine)
    requires p.next == m.next && p.cur == m.cur && p.rings == m.rings && Landed(p, r)
    ensures Landed(m, r)
  {
  }

  /**
    A switch that timed out is reported exactly when the power is off or the command processor has still not switched;
    a reported one keeps its state under every step but a later worker or a restart, an unreported one lands.
   */
  lemma TimedOutSwitch(m: Machine, awake: bool)
    requires Protocol(m) && m.state == Triggered
    ensures WorkerFaults(TimedOut(m), awake) <==> !awake || m.switching
    ensures WorkerFaults(TimedOut(m), awake) ==> Worked(TimedOut(m), awake) == TimedOut(m)
    ensures !WorkerFaults(TimedOut(m), awake) ==> Landed(m, Scheduled(Worked(TimedOut(m), awake), awake))
    ensures TimedOut(m) != m && !WorkerFaults(m, awake)
  {
    if awake && !m.switching {
      CompletedSwitchLands(m);
    }
    hide Triggers, HandedOff, Landed;
  }

  lemma FaultedStays(gpu: Gpu, m: Machine, move: Move)
    requires Protocol(m) && m.state == Faulted && Allowed(gpu, m, move) && !move.Worker? && !move.Restart?
    ensures var n := Next(gpu, m, move); n.state == Faulted && n.cur == m.cur && n.next == m.next
  {
    hide Actions, A5xxRing.SwitchDwords, Plain, Spilled, Step, Protocol;
  }

  lemma LandsAt(m: Machine)
    requires Protocol(m) && m.state != Clear && !m.switching
    ensures Wf(m) && m.next.Some? && m.next.value < |m.rings|
    ensures Landed(m, Triggers(HandedOff(m)))
    ensures forall state: State :: state != Clear ==> HandedOff(m.(state := state)) == HandedOff(m)
  {
    HandOffKeepsProtocol(m);
    TriggersKeepProtocol(HandedOff(m));
  }

  ghost predicate Landed(m: Machine, r: Machine) {
    && Protocol(r) && m.next.Some? && r.cur == m.next.value && r.prev == Some(m.cur) && r.cur < |m.rings|
        && r.rings[r.cur].log == m.rings[r.cur].log
    && r.wptr == r.rings[r.cur].Wptr() && (r.state == Clear || r.state == Triggered)
  }
}
