/**
  Nothing queued is stuck: from every state of the protocol the command processor can come to run each
  action of each ring. With that, an uncovered context switch on any ring does its harm.
 */
module PreemptionProgress {
  import opened Words
  import opened CommandProcessor
  import opened Adreno
  import opened A5xxStream
  import opened PagetableStream
  import opened Preemption
  import opened PreemptionRuns
  import A5xxRing
  import Pm4

  // --------------------------------------------------- ends of submissions

  // Position `p` of a ring is behind a whole submission.
  predicate Boundary(log: seq<Action>, p: nat)
    requires p <= |log|
  {
    p == 0 || log[p - 1].effect.Yield?
  }

  /**
    Where the ring that runs, or is to run, is told to stop, a submission ends; and a ring has yielded exactly there.
   */
  ghost predicate Boundaries(m: Machine)
    requires Protocol(m)
  {
    && (forall i | 0 <= i < |m.rings| ::
          Boundary(m.rings[i].log, m.rings[i].Wptr())
          && m.core.progress[i].yielded == Boundary(m.rings[i].log, m.core.progress[i].done))
    && Boundary(m.rings[m.core.ring].log, m.wptr)
    && (m.state != Clear ==> Boundary(m.rings[m.restore].log, m.rings[m.restore].saved))
  }

  lemma BoundaryPrefix(log: seq<Action>, more: seq<Action>, p: nat)
    requires p <= |log|
    ensures Boundary(log + more, p) == Boundary(log, p)
  {
  }

  // A submission ends with its yield.
  predicate EndsYielded(actions: seq<Action>) {
    |actions| != 0 && actions[|actions| - 1].effect.Yield?
  }

  lemma ActionsYield(j: Job, input: seq<u32>, xs: seq<Effect>)
    requires j.gpu.preemption && Pm4.Parse(input).Some? && Shows(Pm4.Parse(input).value, xs, StartMode(j.flags))
    ensures EndsYielded(Actions(j, input))
  {
    hide Pm4.Parse, Shows, Actions, Setup, Retire, Level;
    ActionsAround(j, input, xs);
  }

  lemma SubmittedBoundaries(m: Machine, k: nat, actions: seq<Action>)
    requires Protocol(m) && Boundaries(m) && k < |m.rings| && EndsYielded(actions)
    ensures Protocol(Submitted(m, k, actions)) && Boundaries(Submitted(m, k, actions))
  {
    SubmittedKeepsProtocol(m, k, actions);
    var r := Submitted(m, k, actions);
    forall p | 0 <= p <= |m.rings[k].log| ensures Boundary(m.rings[k].log + actions, p) == Boundary(m.rings[k].log, p) {
      BoundaryPrefix(m.rings[k].log, actions, p);
    }
    assert r.rings[k].log == m.rings[k].log + actions;
    assert Boundary(r.rings[k].log, r.rings[k].Wptr());
    forall i | 0 <= i < |r.rings| && i != k ensures r.rings[i] == m.rings[i] {
    }
  }

  lemma ActivatedBoundaries(m: Machine, k: nat, ctx: Context)
    requires Protocol(m) && Boundaries(m) && k < |m.rings|
    ensures Protocol(Activated(m, k, ctx)) && Boundaries(Activated(m, k, ctx))
  {
    ActivatedKeepsProtocol(m, k, ctx);
    var r := Activated(m, k, ctx);
    forall i | 0 <= i < |r.rings| ensures r.rings[i].log == m.rings[i].log && r.rings[i].saved == m.rings[i].saved {
    }
  }

  lemma SwitchedBoundaries(m: Machine, k: nat, ctx: Context, queued: bool, j: Job)
    requires Protocol(m) && Boundaries(m) && k < |m.rings| && j.gpu.preemption
    ensures Protocol(Switched(m, k, ctx, queued, j)) && Boundaries(Switched(m, k, ctx, queued, j))
  {
    hide Boundaries, Protocol, EndsYielded, Actions, A5xxRing.SwitchDwords, Submitted, Activated;
    var active := m.rings[k].active;
    var input := A5xxRing.SwitchDwords(j.gpu, j.rb, active, ctx);
    if active != Some(ctx) {
      if queued {
        SwitchParses(j, active, ctx);
        ActionsYield(j, input, ContextSwitchEffects(j.gpu, j.rb, active, ctx));
        SubmittedBoundaries(m, k, Actions(j, input));
        ActivatedBoundaries(Submitted(m, k, Actions(j, input)), k, ctx);
      } else {
        ActivatedBoundaries(m, k, ctx);
      }
    }
  }

  lemma TriggersBoundaries(m: Machine)
    requires Protocol(m) && Boundaries(m)
    ensures Protocol(Triggers(m)) && Boundaries(Triggers(m))
  {
    TriggersKeepProtocol(m);
    var r := Triggers(m);
    forall i | 0 <= i < |r.rings| ensures r.rings[i].log == m.rings[i].log {
    }
  }

  lemma HandedOffBoundaries(m: Machine)
    requires Protocol(m) && Boundaries(m) && m.state != Clear && !m.switching
    ensures Protocol(HandedOff(m)) && Boundaries(HandedOff(m))
  {
    HandOffKeepsProtocol(m);
  }

  lemma ExecutedBoundaries(gpu: Gpu, m: Machine)
    requires Protocol(m) && Boundaries(m)
    ensures Protocol(Executed(gpu, m)) && Boundaries(Executed(gpu, m))
  {
    ExecutedKeepsProtocol(gpu, m);
    hide Scratch;
    var r := Executed(gpu, m);
    forall i | 0 <= i < |r.rings| ensures r.rings[i].log == m.rings[i].log && r.rings[i].saved == m.rings[i].saved {
    }
  }

  lemma PreemptedBoundaries(m: Machine)
    requires Protocol(m) && Boundaries(m)
    ensures Protocol(Preempted(m)) && Boundaries(Preempted(m))
  {
    PreemptedKeepsProtocol(m);
  }

  lemma ReportedBoundaries(m: Machine, k: nat, rptr: nat)
    requires Protocol(m) && Boundaries(m) && k < |m.rings|
    ensures Protocol(Reported(m, k, rptr)) && Boundaries(Reported(m, k, rptr))
  {
    ReportedKeepsProtocol(m, k, rptr);
    var r := Reported(m, k, rptr);
    forall i | 0 <= i < |r.rings| ensures r.rings[i].log == m.rings[i].log && r.rings[i].saved == m.rings[i].saved {
    }
  }

  lemma BoundariesKept(gpu: Gpu, m: Machine, move: Move)
    requires Layout(gpu) && Protocol(m) && Boundaries(m) && Allowed(gpu, m, move)
    ensures Protocol(Next(gpu, m, move)) && Boundaries(Next(gpu, m, move))
  {
    ProtocolKept(gpu, m, move);
    assert gpu.preemption;
    hide Layout, Protocol, Boundaries, Next, Allowed;
    if move.SwitchContext? || move.Enqueue? {
      QueueBoundaries(gpu, m, move);
    } else if move.Execute? || move.Preempt? || move.Report? || move.Restart? {
      HardwareBoundaries(gpu, m, move);
    } else {
      HandlerBoundaries(gpu, m, move);
    }
  }

  lemma QueueBoundaries(gpu: Gpu, m: Machine, move: Move)
    requires gpu.preemption && Protocol(m) && Boundaries(m) && Allowed(gpu, m, move)
    requires move.SwitchContext? || move.Enqueue?
    ensures Protocol(Next(gpu, m, move)) && Boundaries(Next(gpu, m, move))
  {
    hide Boundaries, Plain, InRange, Actions, Submitted, Switched, Protocol;
    match move
    case SwitchContext(k, ctx, queued, j) => SwitchedBoundaries(m, k, ctx, queued, j);
    case Enqueue(j, input) => EnqueuedBoundaries(gpu, m, j, input);
  }

  lemma HardwareBoundaries(gpu: Gpu, m: Machine, move: Move)
    requires Protocol(m) && Boundaries(m) && Allowed(gpu, m, move)
    requires move.Execute? || move.Preempt? || move.Report? || move.Restart?
    ensures Protocol(Next(gpu, m, move)) && Boundaries(Next(gpu, m, move))
  {
    hide Boundaries, Executed, Preempted, Reported, Restarted;
    match move
    case Restart(cur) => RestartedBoundaries(gpu, m, cur);
    case Execute => ExecutedBoundaries(gpu, m);
    case Preempt => PreemptedBoundaries(m);
    case Report(k, rptr) => ReportedBoundaries(m, k, rptr);
  }

  lemma HandlerBoundaries(gpu: Gpu, m: Machine, move: Move)
    requires Protocol(m) && Boundaries(m) && Allowed(gpu, m, move) && Protocol(Next(gpu, m, move))
    requires move.Trigger? || move.Callback? || move.Schedule? || move.Timer? || move.Worker?
    ensures Boundaries(Next(gpu, m, move))
  {
    hide Boundaries, Triggers, HandedOff, CalledBack, Scheduled;
    match move
    case Trigger => TriggersBoundaries(m);
    case Callback => CallbackBoundaries(m);
    case Schedule(awake) => ScheduleBoundaries(m, awake);
    case Timer => StateBoundaries(m, TimedOut(m));
    case Worker(awake) => StateBoundaries(m, Worked(m, awake));
  }

  lemma EnqueuedBoundaries(gpu: Gpu, m: Machine, j: Job, input: seq<u32>)
    requires gpu.preemption && Protocol(m) && Boundaries(m) && Allowed(gpu, m, Enqueue(j, input))
    ensures var r := Submitted(m, j.rb.id, Actions(j, input)); Protocol(r) && Boundaries(r)
  {
    hide Boundaries, Protocol, Actions, Submitted, EndsYielded, Pm4.Parse, Shows, AllNeutral, PayloadEffects, InRange;
    ActionsYield(j, input, PayloadEffects(j, input));
    SubmittedBoundaries(m, j.rb.id, Actions(j, input));
  }

  lemma StateBoundaries(m: Machine, r: Machine)
    requires Protocol(m) && Boundaries(m) && Protocol(r) && (r == m || (m.state != Clear && r == m.(state := r.state)))
    ensures Boundaries(r)
  {
  }

  lemma RestartedBoundaries(gpu: Gpu, m: Machine, cur: nat)
    requires Wf(m) && cur < |m.rings|
    ensures Protocol(Restarted(gpu, m, cur)) && Boundaries(Restarted(gpu, m, cur))
  {
    RestartedProtocol(gpu, m, cur);
  }

  lemma CallbackBoundaries(m: Machine)
    requires Protocol(m) && Boundaries(m) && Protocol(CalledBack(m))
    ensures Boundaries(CalledBack(m))
  {
    assert Wf(m) && (m.state == Triggered ==> m.next.Some? && m.next.value < |m.rings|);
    hide Protocol, Boundaries, Triggers, HandedOff;
    if m.state == Triggered {
      if m.switching {
        StateBoundaries(m, CalledBack(m));
      } else {
        HandedOffBoundaries(m);
        TriggersBoundaries(HandedOff(m));
      }
    }
  }

  lemma ScheduleBoundaries(m: Machine, awake: bool)
    requires Protocol(m) && Boundaries(m) && Protocol(Scheduled(m, awake))
    ensures Boundaries(Scheduled(m, awake))
  {
    assert Wf(m) && (m.state == Complete ==> m.next.Some? && m.next.value < |m.rings|);
    hide Protocol, Boundaries, Triggers, HandedOff;
    if m.state == Complete && awake && !m.switching {
      HandedOffBoundaries(m);
      TriggersBoundaries(HandedOff(m));
    } else {
      TriggersBoundaries(m);
    }
  }

  lemma {:induction false} RunBoundaries(gpu: Gpu, m: Machine, moves: seq<Move>)
    requires Layout(gpu) && Protocol(m) && Boundaries(m) && AllowedRun(gpu, m, moves)
    ensures Protocol(After(gpu, m, moves)) && Boundaries(After(gpu, m, moves))
    decreases |moves|
  {
    hide Layout, Protocol, Boundaries, Allowed, Next;
    if |moves| != 0 {
      BoundariesKept(gpu, m, moves[0]);
      RunBoundaries(gpu, Next(gpu, m, moves[0]), moves[1..]);
    }
  }

  lemma PowerUpBoundaries(gpu: Gpu, rings: nat)
    requires 1 <= rings <= MAX_RINGS
    ensures Boundaries(PowerUp(gpu, rings))
  {
  }

  // ------------------------------------------------- what the contexts do not matter to

  // The same effects in the same place; who submitted them may differ.
  predicate SameEffects(xs: seq<Action>, ys: seq<Action>) {
    |xs| == |ys| && forall i | 0 <= i < |xs| :: xs[i].effect == ys[i].effect
  }

  // Two machines that differ only in who submitted what.
  predicate Alike(m: Machine, r: Machine) {
    && r == m.(rings := r.rings) && |r.rings| == |m.rings|
    && forall i | 0 <= i < |m.rings| ::
         var x, y := m.rings[i], r.rings[i];
         SameEffects(x.log, y.log) && x.rptr == y.rptr && x.saved == y.saved && x.scratch == y.scratch
  }

  /** The pagetables are in order, whoever the IBs belong to. */
  ghost predicate Sane(gpu: Gpu, m: Machine) {
    exists r :: Alike(m, r) && Protocol(r) && TablesHold(gpu, r)
  }

  // Moves of the handlers and of the hardware.
  predicate Own(move: Move) {
    !move.SwitchContext? && !move.Enqueue? && !move.Restart?
  }

  lemma {:induction false} FirstBusyAlike(xs: seq<Queue>, ys: seq<Queue>, i: nat)
    requires |xs| == |ys| && i <= |xs| && forall j | 0 <= j < |xs| :: xs[j].Empty() == ys[j].Empty()
    ensures FirstBusy(xs, i) == FirstBusy(ys, i)
    decreases |xs| - i
  {
    if i < |xs| {
      FirstBusyAlike(xs, ys, i + 1);
    }
  }

  lemma TriggersAlike(m: Machine, r: Machine)
    requires Alike(m, r) && m.cur < |m.rings|
    ensures Alike(Triggers(m), Triggers(r))
  {
    FirstBusyAlike(m.rings, r.rings, 0);
    hide SameEffects;
    assert forall i | 0 <= i < |m.rings| :: m.rings[i].Wptr() == r.rings[i].Wptr() by { LogsAlike(m, r); }
  }

  lemma LogsAlike(m: Machine, r: Machine)
    requires Alike(m, r)
    ensures forall i | 0 <= i < |m.rings| :: |m.rings[i].log| == |r.rings[i].log|
  {
  }

  lemma HandedOffAlike(m: Machine, r: Machine)
    requires Alike(m, r) && m.next.Some? && m.next.value < |m.rings|
    ensures Alike(HandedOff(m), HandedOff(r))
  {
    LogsAlike(m, r);
  }

  lemma ExecutedAlike(gpu: Gpu, m: Machine, r: Machine)
    requires Alike(m, r) && Wf(m) && Wf(r)
    ensures Alike(Executed(gpu, m), Executed(gpu, r))
  {
    LogsAlike(m, r);
    hide Scratch;
    if CanExecute(m) {
      assert NextAction(m).effect == NextAction(r).effect;
    }
  }

  lemma PreemptedAlike(m: Machine, r: Machine)
    requires Alike(m, r) && Wf(m) && Wf(r)
    ensures Alike(Preempted(m), Preempted(r))
  {
  }

  lemma ReportedAlike(m: Machine, r: Machine, k: nat, rptr: nat)
    requires Alike(m, r) && Wf(m) && Wf(r) && k < |m.rings|
    ensures Alike(Reported(m, k, rptr), Reported(r, k, rptr))
  {
    hide SameEffects;
  }

  lemma NextAlike(gpu: Gpu, m: Machine, r: Machine, move: Move)
    requires Alike(m, r) && Protocol(m) && Protocol(r) && Own(move) && Allowed(gpu, m, move)
    ensures Allowed(gpu, r, move) && Alike(Next(gpu, m, move), Next(gpu, r, move))
  {
    assert Wf(m) && Wf(r) && m.cur < |m.rings| && (m.state != Clear ==> m.next.Some? && m.next.value < |m.rings|);
    hide Alike, Triggers, HandedOff, Executed, Preempted, Reported, Protocol, Wf;
    SameFields(m, r);
    match move
    case Trigger => TriggersAlike(m, r);
    case Callback =>
      if m.state == Triggered && !m.switching {
        HandedOffAlike(m, r);
        TriggersAlike(HandedOff(m), HandedOff(r));
      } else {
        StateAlike(m, r, Complete);
      }
    case Schedule(awake) =>
      if m.state == Complete && awake && !m.switching {
        HandedOffAlike(m, r);
        TriggersAlike(HandedOff(m), HandedOff(r));
      } else {
        TriggersAlike(m, r);
      }
    case Timer => StateAlike(m, r, Faulted);
    case Worker(_) => StateAlike(m, r, Complete);
    case Execute => ExecutedAlike(gpu, m, r);
    case Preempt => PreemptedAlike(m, r);
    case Report(k, rptr) => ReportedAlike(m, r, k, rptr);
  }

  lemma SameFields(m: Machine, r: Machine)
    requires Alike(m, r)
    ensures r.state == m.state && r.switching == m.switching && r.next == m.next && r.cur == m.cur
        && |r.rings| == |m.rings|
  {
  }

  lemma StateAlike(m: Machine, r: Machine, state: State)
    requires Alike(m, r)
    ensures Alike(m.(state := state), r.(state := state))
  {
  }

  lemma SaneKept(gpu: Gpu, m: Machine, move: Move)
    requires Layout(gpu) && Protocol(m) && Sane(gpu, m) && Own(move) && Allowed(gpu, m, move)
    ensures Protocol(Next(gpu, m, move)) && Sane(gpu, Next(gpu, m, move))
  {
    ProtocolKept(gpu, m, move);
    hide Layout, Protocol, TablesHold, Alike, Allowed, Next;
    var r :| Alike(m, r) && Protocol(r) && TablesHold(gpu, r);
    NextAlike(gpu, m, r, move);
    OtherMovesKeepTables(gpu, r, move);
  }

  lemma {:induction false} LastUpdateAlike(xs: seq<Action>, ys: seq<Action>, t: u64)
    requires SameEffects(xs, ys)
    ensures LastUpdate(xs, t) == LastUpdate(ys, t)
    decreases |xs|
  {
    if |xs| != 0 {
      LastUpdateAlike(xs[..|xs| - 1], ys[..|ys| - 1], t);
    }
  }

  // The running ring's TTBR0 is the last one its own actions set.
  lemma RunsUnderLast(gpu: Gpu, m: Machine)
    requires Protocol(m) && Sane(gpu, m)
    ensures m.core.ttbr0 == LastUpdate(ExecutedSoFar(m, m.core.ring), gpu.defaultPagetable.ttbr0)
  {
    var r :| Alike(m, r) && Protocol(r) && TablesHold(gpu, r);
    var k := m.core.ring;
    assert RingGood(gpu, r, k);
    hide LastUpdate, Good, Linked, Final;
    LastUpdateAlike(ExecutedSoFar(m, k), ExecutedSoFar(r, k), gpu.defaultPagetable.ttbr0);
  }

  // ------------------------------------------------------ a move that gets on

  // Actions the command processor has yet to run, and to report, in the first `n` rings.
  ghost function Left(m: Machine, n: nat): nat
    requires Protocol(m) && n <= |m.rings|
  {
    if n == 0 then 0 else Left(m, n - 1) + (m.rings[n - 1].Wptr() - m.core.progress[n - 1].done)
  }

  ghost function Unreported(m: Machine, n: nat): nat
    requires Protocol(m) && n <= |m.rings|
  {
    if n == 0 then 0 else Unreported(m, n - 1) + (m.core.progress[n - 1].done - m.rings[n - 1].rptr)
  }

  ghost predicate AllReported(m: Machine)
    requires Protocol(m)
  {
    forall i | 0 <= i < |m.rings| :: m.rings[i].rptr == m.core.progress[i].done
  }

  ghost function Lagging(m: Machine): (i: nat)
    requires Protocol(m) && !AllReported(m)
    ensures i < |m.rings| && m.rings[i].rptr < m.core.progress[i].done
  {
    var i :| 0 <= i < |m.rings| && m.rings[i].rptr != m.core.progress[i].done;
    assert Counters(m);
    i
  }

  ghost function Progress(m: Machine): Move
    requires Protocol(m)
  {
    if !AllReported(m) then Report(Lagging(m), m.core.progress[Lagging(m)].done)
    else if CanExecute(m) then Execute
    else if m.state == Clear then Trigger
    else if m.switching then Preempt
    else if m.state == Triggered then Callback
    else if m.state == Faulted then Worker(true)
    else Schedule(true)
  }

  // How far a machine is from running something, once everything is reported.
  ghost function Distance(m: Machine): nat
    requires Protocol(m)
  {
    if m.state == Clear then (if CanExecute(m) then 0 else 7)
    else
      (if m.next == FirstBusy(m.rings, 0) then 1 else 10) + (if m.switching then 3 else 0)
      + (if m.state == Faulted then 2 else if m.state == Complete then 1 else 0)
  }

  lemma {:induction false} SumsSame(m: Machine, r: Machine, n: nat)
    requires Protocol(m) && Protocol(r) && n <= |m.rings| == |r.rings|
    requires forall i | 0 <= i < n :: SameCounters(m, r, i)
    ensures Left(r, n) == Left(m, n) && Unreported(r, n) == Unreported(m, n)
  {
    hide Protocol;
    if n != 0 {
      SumsSame(m, r, n - 1);
      assert SameCounters(m, r, n - 1);
    }
  }

  ghost predicate SameCounters(m: Machine, r: Machine, i: nat)
    requires Protocol(m) && Protocol(r) && i < |m.rings| && i < |r.rings|
  {
    && r.rings[i].Wptr() == m.rings[i].Wptr() && r.rings[i].rptr == m.rings[i].rptr
    && r.core.progress[i].done == m.core.progress[i].done
  }

  lemma {:induction false} LeftFalls(m: Machine, r: Machine, k: nat, n: nat)
    requires Protocol(m) && Protocol(r) && n <= |m.rings| == |r.rings|
    requires k < |m.rings| && r.rings[k].Wptr() == m.rings[k].Wptr()
        && r.core.progress[k].done == m.core.progress[k].done + 1
    requires forall i | 0 <= i < |m.rings| && i != k :: SameCounters(m, r, i)
    ensures Left(r, n) == Left(m, n) - if k < n then 1 else 0
  {
    hide Protocol;
    if n != 0 {
      LeftFalls(m, r, k, n - 1);
      assert n - 1 != k ==> SameCounters(m, r, n - 1);
    }
  }

  lemma {:induction false} UnreportedFalls(m: Machine, r: Machine, k: nat, n: nat)
    requires Protocol(m) && Protocol(r) && n <= |m.rings| == |r.rings| && k < |m.rings|
    requires forall i | 0 <= i < |m.rings| ::
      r.rings[i].Wptr() == m.rings[i].Wptr() && r.core.progress[i].done == m.core.progress[i].done
    requires m.rings[k].rptr < r.rings[k].rptr
    requires forall i | 0 <= i < |m.rings| && i != k :: r.rings[i].rptr == m.rings[i].rptr
    ensures Left(r, n) == Left(m, n)
    ensures if k < n then Unreported(r, n) < Unreported(m, n) else Unreported(r, n) == Unreported(m, n)
  {
    hide Protocol;
    if n != 0 {
      UnreportedFalls(m, r, k, n - 1);
    }
  }

  // The logs stay, and nothing but the running ring's next action gets executed.
  ghost predicate Gentle(m: Machine, r: Machine)
    requires Protocol(m) && Protocol(r)
  {
    && |r.rings| == |m.rings|
    && forall i | 0 <= i < |m.rings| ::
         && r.rings[i].log == m.rings[i].log
         && (r.core.progress[i].done == m.core.progress[i].done
             || (CanExecute(m) && i == m.core.ring && r.core.progress[i].done == m.core.progress[i].done + 1))
  }

  ghost predicate Nearer(m: Machine, r: Machine)
    requires Protocol(m) && Protocol(r) && |r.rings| == |m.rings|
  {
    var n := |m.rings|;
    || Left(r, n) < Left(m, n)
    || (Left(r, n) == Left(m, n) && Unreported(r, n) < Unreported(m, n))
    || (Left(r, n) == Left(m, n) && Unreported(r, n) == Unreported(m, n) && AllReported(m) && AllReported(r)
        && Distance(r) < Distance(m))
  }

  ghost predicate GetsOn(gpu: Gpu, m: Machine)
    requires Protocol(m)
  {
    && Own(Progress(m)) && Allowed(gpu, m, Progress(m)) && Protocol(Next(gpu, m, Progress(m)))
    && var r := Next(gpu, m, Progress(m)); Gentle(m, r) && Nearer(m, r)
  }

  lemma ReportGetsOn(gpu: Gpu, m: Machine)
    requires Protocol(m) && !AllReported(m)
    ensures GetsOn(gpu, m)
  {
    var k := Lagging(m);
    var done := m.core.progress[k].done;
    ReportedKeepsProtocol(m, k, done);
    UnreportedFalls(m, Reported(m, k, done), k, |m.rings|);
    hide Left, Unreported, Distance;
  }

  lemma ExecuteGetsOn(gpu: Gpu, m: Machine)
    requires Protocol(m) && AllReported(m) && CanExecute(m)
    ensures GetsOn(gpu, m)
  {
    ExecutedKeepsProtocol(gpu, m);
    hide Scratch, Step;
    LeftFalls(m, Executed(gpu, m), m.core.ring, |m.rings|);
    hide Left, Unreported, Distance;
  }

  // The remaining moves touch no counter.
  lemma QuietGetsOn(gpu: Gpu, m: Machine, r: Machine)
    requires Protocol(m) && AllReported(m) && Own(Progress(m)) && Allowed(gpu, m, Progress(m)) && Protocol(r)
        && r == Next(gpu, m, Progress(m))
    requires |r.rings| == |m.rings|
    requires forall i | 0 <= i < |m.rings| :: r.rings[i].log == m.rings[i].log && SameCounters(m, r, i)
    requires Distance(r) < Distance(m)
    ensures GetsOn(gpu, m)
  {
    SumsSame(m, r, |m.rings|);
    hide Left, Unreported, Distance, Protocol, Next, Progress, Own, Allowed;
    assert AllReported(r);
    assert Gentle(m, r);
  }

  // With everything reported, a ring looks busy exactly if it has something left to run.
  lemma BusyIsLeft(m: Machine)
    requires Protocol(m) && AllReported(m)
    ensures forall i | 0 <= i < |m.rings| :: m.rings[i].Empty() <==> m.core.progress[i].done == m.rings[i].Wptr()
  {
  }

  lemma TriggersCounters(m: Machine)
    requires Protocol(m)
    ensures var r := Triggers(m);
            && Protocol(r) && |r.rings| == |m.rings|
            && forall i | 0 <= i < |m.rings| :: r.rings[i].log == m.rings[i].log && SameCounters(m, r, i)
  {
    TriggersKeepProtocol(m);
  }

  lemma BusyKept(m: Machine, r: Machine)
    requires Protocol(m) && Protocol(r) && |r.rings| == |m.rings|
    requires forall i | 0 <= i < |m.rings| :: SameCounters(m, r, i)
    ensures FirstBusy(r.rings, 0) == FirstBusy(m.rings, 0)
  {
    forall i | 0 <= i < |m.rings| ensures m.rings[i].Empty() == r.rings[i].Empty() {
      assert SameCounters(m, r, i);
    }
    FirstBusyAlike(r.rings, m.rings, 0);
  }

  // A ring with something left is found, and outside a switch it is either current or switched to.
  lemma TriggerNears(m: Machine, k: nat)
    requires Protocol(m) && AllReported(m) && m.state == Clear && k < |m.rings|
        && m.core.progress[k].done < m.rings[k].Wptr()
    ensures Protocol(Triggers(m)) && Distance(Triggers(m)) <= 4
    ensures !CanExecute(m) ==> Distance(Triggers(m)) == 4
    ensures FirstBusy(m.rings, 0) == Some(m.cur) ==> Distance(Triggers(m)) == 0
  {
    TriggersCounters(m);
    BusyIsLeft(m);
    assert !m.rings[k].Empty();
    var r := Triggers(m);
    BusyKept(m, r);
    if FirstBusy(m.rings, 0) == Some(m.cur) {
      assert !m.rings[m.cur].Empty();
      assert CanExecute(m);
    }
  }

  lemma TriggerGetsOn(gpu: Gpu, m: Machine, k: nat)
    requires Protocol(m) && AllReported(m) && m.state == Clear && !CanExecute(m)
    requires k < |m.rings| && m.core.progress[k].done < m.rings[k].Wptr()
    ensures GetsOn(gpu, m)
  {
    TriggersCounters(m);
    TriggerNears(m, k);
    hide GetsOn, Triggers, SameCounters;
    QuietGetsOn(gpu, m, Triggers(m));
  }

  lemma PreemptGetsOn(gpu: Gpu, m: Machine)
    requires Protocol(m) && Boundaries(m) && AllReported(m) && m.state != Clear && !CanExecute(m) && m.switching
    ensures GetsOn(gpu, m)
  {
    PreemptedKeepsProtocol(m);
    var r, h := Preempted(m), m.core.ring;
    assert m.core.progress[h].done == m.wptr && m.core.progress[h].yielded && CanPreempt(m);
    forall i | 0 <= i < |m.rings| ensures r.rings[i].log == m.rings[i].log && SameCounters(m, r, i) {
    }
    BusyKept(m, r);
    hide GetsOn, SameCounters, Boundaries;
    QuietGetsOn(gpu, m, r);
  }

  lemma HandOffNears(m: Machine, k: nat)
    requires Protocol(m) && AllReported(m) && m.state != Clear && !m.switching
    requires k < |m.rings| && m.core.progress[k].done < m.rings[k].Wptr()
    ensures var r := Triggers(HandedOff(m));
            && Protocol(r) && |r.rings| == |m.rings|
            && (forall i | 0 <= i < |m.rings| :: r.rings[i].log == m.rings[i].log && SameCounters(m, r, i))
            && Distance(r) < Distance(m)
  {
    HandOffKeepsProtocol(m);
    var h := HandedOff(m);
    assert h.rings == m.rings && h.core == m.core && h.state == Clear && h.cur == m.next.value && AllReported(h);
    TriggersCounters(h);
    TriggerNears(h, k);
    assert m.next == FirstBusy(m.rings, 0) ==> Distance(Triggers(h)) == 0;
    hide Triggers, HandedOff, Protocol;
    forall i | 0 <= i < |m.rings|
        ensures Triggers(h).rings[i].log == m.rings[i].log && SameCounters(m, Triggers(h), i) {
      assert SameCounters(h, Triggers(h), i);
    }
  }

  lemma HandOffGetsOn(gpu: Gpu, m: Machine, k: nat)
    requires Protocol(m) && AllReported(m) && m.state != Clear && !CanExecute(m) && !m.switching
    requires k < |m.rings| && m.core.progress[k].done < m.rings[k].Wptr()
    ensures GetsOn(gpu, m)
  {
    if m.state == Faulted {
      CompleteGetsOn(gpu, m);
    } else {
      HandOffNears(m, k);
      hide GetsOn, SameCounters, Triggers, HandedOff, Distance, Counters;
      QuietGetsOn(gpu, m, Triggers(HandedOff(m)));
    }
  }

  lemma CompleteGetsOn(gpu: Gpu, m: Machine)
    requires Protocol(m) && AllReported(m) && m.state == Faulted && !CanExecute(m) && !m.switching
    ensures GetsOn(gpu, m)
  {
    var r := m.(state := Complete);
    forall i | 0 <= i < |m.rings| ensures r.rings[i].log == m.rings[i].log && SameCounters(m, r, i) {
    }
    assert Distance(r) < Distance(m);
    hide GetsOn, SameCounters, Distance;
    QuietGetsOn(gpu, m, r);
  }

  lemma ProgressGetsOn(gpu: Gpu, m: Machine, k: nat)
    requires Protocol(m) && Boundaries(m) && k < |m.rings| && m.core.progress[k].done < m.rings[k].Wptr()
    ensures GetsOn(gpu, m)
  {
    hide GetsOn, Protocol, Boundaries, CanExecute, AllReported;
    if !AllReported(m) {
      ReportGetsOn(gpu, m);
    } else if CanExecute(m) {
      ExecuteGetsOn(gpu, m);
    } else if m.state == Clear {
      TriggerGetsOn(gpu, m, k);
    } else if m.switching {
      PreemptGetsOn(gpu, m);
    } else {
      HandOffGetsOn(gpu, m, k);
    }
  }

  // ----------------------------------------------------- everything gets run

  // Along these moves of the handlers and the hardware the action is run, under this TTBR0.
  ghost predicate Reaches(gpu: Gpu, m: Machine, moves: seq<Move>, action: Action, ttbr0: u64) {
    && Protocol(m) && AllowedRun(gpu, m, moves) && (forall move <- moves :: Own(move))
    && Ran(action, ttbr0) in Trace(gpu, m, moves)
  }

  lemma ReachesNow(gpu: Gpu, m: Machine)
    requires Protocol(m) && CanExecute(m)
    ensures Reaches(gpu, m, [Execute], NextAction(m), m.core.ttbr0)
  {
    ProtocolKept(gpu, m, Execute);
    var moves := [Execute];
    var r := Next(gpu, m, Execute);
    hide Protocol, Next, CanExecute, NextAction;
    assert moves[1..] == [];
    assert AllowedRun(gpu, r, []) && Trace(gpu, r, []) == [];
    assert Trace(gpu, m, moves) == RanBy(m, Execute) + [];
  }

  lemma ReachesLater(gpu: Gpu, m: Machine, move: Move, rest: seq<Move>, action: Action, ttbr0: u64)
    requires Protocol(m) && Own(move) && Allowed(gpu, m, move) && Protocol(Next(gpu, m, move))
    requires Reaches(gpu, Next(gpu, m, move), rest, action, ttbr0)
    ensures Reaches(gpu, m, [move] + rest, action, ttbr0)
  {
    hide Protocol, Next, Own, Allowed, RanBy;
    assert ([move] + rest)[1..] == rest;
    ProtocolKept(gpu, m, move);
  }

  /**
    Nothing queued is stuck: from every state in which the pagetables are in order, whoever the IBs belong to, every
    action of every ring that has not run can come to run, under the table its own ring's actions set last.
   */
  lemma {:induction false} ActionRuns(gpu: Gpu, m: Machine, k: nat, p: nat) returns (moves: seq<Move>)
    requires Layout(gpu) && Protocol(m) && Boundaries(m) && Sane(gpu, m)
    requires k < |m.rings| && m.core.progress[k].done <= p < m.rings[k].Wptr()
    ensures Reaches(gpu, m, moves, m.rings[k].log[p], LastUpdate(m.rings[k].log[..p], gpu.defaultPagetable.ttbr0))
    decreases Left(m, |m.rings|), Unreported(m, |m.rings|), Distance(m)
  {
    ProgressGetsOn(gpu, m, k);
    var move := Progress(m);
    if move == Execute && m.core.ring == k && m.core.progress[k].done == p && CanExecute(m) {
      RunsUnderLast(gpu, m);
      ReachesNow(gpu, m);
      moves := [Execute];
    } else {
      var r := Next(gpu, m, move);
      StillToRun(gpu, m, k, p);
      hide *;
      SaneKept(gpu, m, move);
      BoundariesKept(gpu, m, move);
      var rest := ActionRuns(gpu, r, k, p);
      ReachesLater(gpu, m, move, rest, m.rings[k].log[p], LastUpdate(m.rings[k].log[..p], gpu.defaultPagetable.ttbr0));
      moves := [move] + rest;
    }
  }

  lemma StillToRun(gpu: Gpu, m: Machine, k: nat, p: nat)
    requires Protocol(m) && GetsOn(gpu, m) && k < |m.rings| && m.core.progress[k].done <= p < m.rings[k].Wptr()
    requires !(Progress(m) == Execute && m.core.ring == k && m.core.progress[k].done == p && CanExecute(m))
    ensures Own(Progress(m)) && Allowed(gpu, m, Progress(m)) && Protocol(Next(gpu, m, Progress(m)))
    ensures var r := Next(gpu, m, Progress(m));
            && |r.rings| == |m.rings| && r.rings[k].log == m.rings[k].log
                && r.core.progress[k].done <= p < r.rings[k].Wptr()
            && (Left(r, |r.rings|) < Left(m, |m.rings|)
                || (Left(r, |r.rings|) == Left(m, |m.rings|)
                    && (Unreported(r, |r.rings|) < Unreported(m, |m.rings|)
                        || (Unreported(r, |r.rings|) == Unreported(m, |m.rings|) && Distance(r) < Distance(m)))))
  {
    hide Left, Unreported, Distance;
  }

  lemma SameIsAlike(m: Machine)
    ensures Alike(m, m)
  {
  }

  lemma HoldIsSane(gpu: Gpu, m: Machine)
    requires Protocol(m) && TablesHold(gpu, m)
    ensures Sane(gpu, m)
  {
    SameIsAlike(m);
  }

  lemma {:induction false} RunTables(gpu: Gpu, m: Machine, moves: seq<Move>)
    requires Layout(gpu) && Protocol(m) && TablesHold(gpu, m) && AllowedRun(gpu, m, moves) && CoveredRun(gpu, m, moves)
    ensures Protocol(After(gpu, m, moves)) && TablesHold(gpu, After(gpu, m, moves))
    decreases |moves|
  {
    hide Layout, Protocol, TablesHold, Allowed, Next, MoveCovered;
    if |moves| != 0 {
      ProtocolKept(gpu, m, moves[0]);
      TablesKept(gpu, m, moves[0]);
      RunTables(gpu, Next(gpu, m, moves[0]), moves[1..]);
    }
  }

  lemma RunKeeps(gpu: Gpu, rings: nat, moves: seq<Move>)
    requires Layout(gpu) && 1 <= rings <= MAX_RINGS
    requires AllowedRun(gpu, PowerUp(gpu, rings), moves) && CoveredRun(gpu, PowerUp(gpu, rings), moves)
    ensures var m := After(gpu, PowerUp(gpu, rings), moves);
            Protocol(m) && Boundaries(m) && TablesHold(gpu, m) && Sane(gpu, m)
  {
    hide Boundaries, TablesHold, Sane, Layout, AllowedRun, CoveredRun, After;
    PowerUpTables(gpu, rings);
    PowerUpBoundaries(gpu, rings);
    RunTables(gpu, PowerUp(gpu, rings), moves);
    RunBoundaries(gpu, PowerUp(gpu, rings), moves);
    HoldIsSane(gpu, After(gpu, PowerUp(gpu, rings), moves));
  }

  /**
    Over every covered run: whatever is queued on any ring can still come to run, with no more submissions or restarts.
   */
  lemma QueuedWorkRuns(gpu: Gpu, rings: nat, moves: seq<Move>, k: nat, p: nat)
    requires Layout(gpu) && 1 <= rings <= MAX_RINGS
    requires AllowedRun(gpu, PowerUp(gpu, rings), moves) && CoveredRun(gpu, PowerUp(gpu, rings), moves)
    requires var m := After(gpu, PowerUp(gpu, rings), moves);
             Protocol(m) && k < |m.rings| && m.core.progress[k].done <= p < m.rings[k].Wptr()
    ensures var m := After(gpu, PowerUp(gpu, rings), moves);
            exists more :: Reaches(gpu, m, more, m.rings[k].log[p],
                LastUpdate(m.rings[k].log[..p], gpu.defaultPagetable.ttbr0))
  {
    hide *;
    RunKeeps(gpu, rings, moves);
    var _ := ActionRuns(gpu, After(gpu, PowerUp(gpu, rings), moves), k, p);
  }

  // ------------------------------------------- an uncovered switch on any ring

  // The actions of ring `k`, and its active context, belong to nobody any more.
  ghost function Disowned(m: Machine, k: nat): Machine
    requires k < |m.rings|
  {
    m.(rings := m.rings[k := m.rings[k].(log := Tag(None, Effects(m.rings[k].log)), active := None)])
  }

  lemma {:induction false} DisownedGood(gpu: Gpu, k: nat, xs: seq<Action>, ys: seq<Action>, v: Tables)
    requires SameEffects(xs, ys) && forall i | 0 <= i < |ys| :: ys[i].ctx == None
    ensures Good(gpu, k, xs, v) ==> Good(gpu, k, ys, v)
    ensures Final(gpu, k, ys, v) == Final(gpu, k, xs, v)
    decreases |xs|
  {
    hide Safe, Apart, Step;
    if |xs| != 0 {
      DisownedGood(gpu, k, xs[1..], ys[1..], Step(gpu, k, xs[0].effect, v));
    }
  }

  lemma DisownedHolds(gpu: Gpu, m: Machine, k: nat)
    requires Protocol(m) && TablesHold(gpu, m) && k < |m.rings|
    ensures var r := Disowned(m, k);
            && Protocol(r) && TablesHold(gpu, r) && |r.rings| == |m.rings|
                && EndTables(gpu, r, k) == EndTables(gpu, m, k)
            && r.rings[k].active == None
  {
    var r := Disowned(m, k);
    assert RingGood(gpu, m, k) && Protocol(r) && r.smmu == m.smmu;
    forall i | 0 <= i < |r.rings| && i != k ensures SameRing(m, r, i) {
    }
    assert m.switching ==> r.smmu == r.rings[r.restore].scratch;
    DisownedRing(gpu, m, k);
    hide RingGood, SameRing, Disowned, EndTables;
    forall i | 0 <= i < |r.rings| && i != k ensures RingGood(gpu, r, i) {
      SameRingGood(gpu, m, r, i);
    }
  }

  lemma DisownedRing(gpu: Gpu, m: Machine, k: nat)
    requires Protocol(m) && k < |m.rings| && RingGood(gpu, m, k) && Protocol(Disowned(m, k))
    ensures RingGood(gpu, Disowned(m, k), k) && EndTables(gpu, Disowned(m, k), k) == EndTables(gpu, m, k)
  {
    var r := Disowned(m, k);
    hide LastUpdate, Good, Final;
    var xs, ys := Unexecuted(m, k), Unexecuted(r, k);
    assert SameEffects(xs, ys);
    assert forall i | 0 <= i < |ys| :: ys[i].ctx == None;
    DisownedGood(gpu, k, xs, ys, TablesOf(m, k));
    LastUpdateAlike(ExecutedSoFar(m, k), ExecutedSoFar(r, k), gpu.defaultPagetable.ttbr0);
    assert TablesOf(r, k) == TablesOf(m, k);
  }

  // The effects of a submission, said to be nobody's.
  function Nobodys(j: Job, input: seq<u32>): seq<Action> {
    Tag(None, [Level(j)] + (Setup(j) + PayloadEffects(j, input) + Retire(j)) + [Yield(0, 1, 1)])
  }

  lemma NobodysAlike(j: Job, input: seq<u32>)
    requires j.gpu.preemption && Plain(j, input)
    ensures SameEffects(Actions(j, input), Nobodys(j, input))
  {
    hide Actions, Setup, Retire, Level, PayloadEffects, AllNeutral, Pm4.Parse, Shows;
    ActionsAround(j, input, PayloadEffects(j, input));
  }

  // Queued plain work of whatever context leaves everything in order but whose the IBs are.
  lemma WorkIsSane(gpu: Gpu, m: Machine, j: Job, input: seq<u32>)
    requires Layout(gpu) && Protocol(m) && TablesHold(gpu, m) && j.rb.id < |m.rings|
    requires j.gpu == gpu && InRange(j) && Plain(j, input)
    ensures var r := Submitted(Disowned(m, j.rb.id), j.rb.id, Nobodys(j, input)); Protocol(r) && TablesHold(gpu, r)
  {
    var k := j.rb.id;
    DisownedHolds(gpu, m, k);
    var d := Disowned(m, k);
    assert RingGood(gpu, d, k) && AtRest(EndTables(gpu, d, k));
    var v := EndTables(gpu, d, k);
    assert Linked(gpu, None, v.(fine := PreemptStyle(j.ctx) == STYLE_FINEGRAIN));
    assert Pm4.Parse(input).Some? && Shows(Pm4.Parse(input).value, PayloadEffects(j, input), StartMode(j.flags));
    assert AllNeutral(gpu, PayloadEffects(j, input)) && !HasOwnTable(gpu, None);
    assert Nobodys(j, input)
        == Tag(None, [Level(j)] + (Setup(j) + PayloadEffects(j, input) + Retire(j)) + [Yield(0, 1, 1)]);
    hide *;
    WorkTagged(k, j, input, PayloadEffects(j, input), v, None);
    SubmittedRing(gpu, d, k, Nobodys(j, input));
    SubmittedElsewhere(gpu, d, k, Nobodys(j, input));
  }

  // An unqueued switch and then work of the new context.
  ghost function Mixed(m: Machine, k: nat, ctx: Context, switchJob: Job, j: Job, input: seq<u32>): Machine
    requires k < |m.rings|
  {
    Submitted(Switched(m, k, ctx, false, switchJob), k, Actions(j, input))
  }

  lemma MixedIsSane(gpu: Gpu, m: Machine, k: nat, ctx: Context, switchJob: Job, j: Job, input: seq<u32>)
    requires Layout(gpu) && Protocol(m) && Boundaries(m) && TablesHold(gpu, m) && k < |m.rings| && switchJob.gpu == gpu
    requires j.gpu == gpu && j.rb.id == k && InRange(j) && Plain(j, input)
    ensures var r := Mixed(m, k, ctx, switchJob, j, input); Protocol(r) && Boundaries(r) && Sane(gpu, r)
  {
    var r, d := Mixed(m, k, ctx, switchJob, j, input), Submitted(Disowned(m, k), k, Nobodys(j, input));
    assert gpu.preemption;
    MixedAlike(gpu, m, k, ctx, switchJob, j, input);
    hide *;
    MixedBoundaries(gpu, m, k, ctx, switchJob, j, input);
    WorkIsSane(gpu, m, j, input);
    AlikeIsSane(gpu, r, d);
  }

  lemma AlikeIsSane(gpu: Gpu, m: Machine, r: Machine)
    requires Alike(m, r) && Protocol(r) && TablesHold(gpu, r)
    ensures Sane(gpu, m)
  {
    hide Alike, Protocol, TablesHold;
  }

  lemma MixedBoundaries(gpu: Gpu, m: Machine, k: nat, ctx: Context, switchJob: Job, j: Job, input: seq<u32>)
    requires Protocol(m) && Boundaries(m) && k < |m.rings| && switchJob.gpu == gpu && gpu.preemption && j.gpu == gpu
        && Plain(j, input)
    ensures var r := Mixed(m, k, ctx, switchJob, j, input); Protocol(r) && Boundaries(r)
  {
    hide Protocol, Boundaries, Actions, Switched, Submitted, EndsYielded, Shows, Pm4.Parse, PayloadEffects, AllNeutral;
    SwitchedBoundaries(m, k, ctx, false, switchJob);
    assert |Switched(m, k, ctx, false, switchJob).rings| == |m.rings| by { SwitchedRings(m, k, ctx, switchJob); }
    ActionsYield(j, input, PayloadEffects(j, input));
    SubmittedBoundaries(Switched(m, k, ctx, false, switchJob), k, Actions(j, input));
  }

  lemma SwitchedRings(m: Machine, k: nat, ctx: Context, switchJob: Job)
    requires k < |m.rings|
    ensures |Switched(m, k, ctx, false, switchJob).rings| == |m.rings|
  {
  }

  lemma MixedAlike(gpu: Gpu, m: Machine, k: nat, ctx: Context, switchJob: Job, j: Job, input: seq<u32>)
    requires k < |m.rings| && gpu.preemption && j.gpu == gpu && Plain(j, input)
    ensures Alike(Mixed(m, k, ctx, switchJob, j, input), Submitted(Disowned(m, k), k, Nobodys(j, input)))
  {
    SwitchedRings(m, k, ctx, switchJob);
    hide Actions, Nobodys, Plain, Alike, Submitted, Switched, SameEffects;
    NobodysAlike(j, input);
    SwitchedAlike(m, k, ctx, switchJob);
    SubmittedAlike(Switched(m, k, ctx, false, switchJob), Disowned(m, k), k, Actions(j, input), Nobodys(j, input));
  }

  lemma SwitchedAlike(m: Machine, k: nat, ctx: Context, switchJob: Job)
    requires k < |m.rings|
    ensures Alike(Switched(m, k, ctx, false, switchJob), Disowned(m, k))
  {
  }

  lemma SubmittedAlike(m: Machine, r: Machine, k: nat, xs: seq<Action>, ys: seq<Action>)
    requires k < |m.rings| && k < |r.rings| && Alike(m, r) && SameEffects(xs, ys)
    ensures Alike(Submitted(m, k, xs), Submitted(r, k, ys))
  {
    assert SameEffects(m.rings[k].log + xs, r.rings[k].log + ys);
  }

  lemma {:induction false} NoUpdates(xs: seq<Action>, ys: seq<Action>, t: u64)
    requires forall y <- ys :: !y.effect.TableUpdate?
    ensures LastUpdate(xs + ys, t) == LastUpdate(xs, t)
    decreases |ys|
  {
    if |ys| == 0 {
      assert xs + ys == xs;
    } else {
      assert (xs + ys)[..|xs + ys| - 1] == xs + ys[..|ys| - 1];
      NoUpdates(xs, ys[..|ys| - 1], t);
    }
  }

  // In front of an IB of plain work, the table is the one set before that work.
  lemma TableAtIb(j: Job, input: seq<u32>, log: seq<Action>, i: nat, t: u64)
    requires Layout(j.gpu) && InRange(j) && Plain(j, input)
    requires i < |Setup(j) + PayloadEffects(j, input) + Retire(j)|
    ensures var actions, xs := Actions(j, input), Setup(j) + PayloadEffects(j, input) + Retire(j);
            && |actions| == |xs| + 2 && actions[i + 1] == Action(xs[i], j.ctx)
            && LastUpdate(log + actions[..i + 1], t) == LastUpdate(log, t)
  {
    var xs, start, end := Setup(j) + PayloadEffects(j, input) + Retire(j), Level(j), Yield(0, 1, 1);
    assert Pm4.Parse(input).Some? && Shows(Pm4.Parse(input).value, PayloadEffects(j, input), StartMode(j.flags));
    assert AllNeutral(j.gpu, PayloadEffects(j, input)) && j.gpu.preemption && !start.TableUpdate?;
    hide *;
    ActionsAround(j, input, PayloadEffects(j, input));
    SetupNeutral(j);
    RetireNeutral(j);
    NeutralConcat(j.gpu, Setup(j), PayloadEffects(j, input));
    NeutralConcat(j.gpu, Setup(j) + PayloadEffects(j, input), Retire(j));
    SandwichPrefix(j.ctx, start, xs, end, i);
    NothingUpdated(j.gpu, j.ctx, start, xs[..i]);
    NeutralPrefix(j.gpu, xs, i);
    NoUpdates(log, Actions(j, input)[..i + 1], t);
  }

  lemma NothingUpdated(gpu: Gpu, ctx: Option<Context>, start: Effect, xs: seq<Effect>)
    requires !start.TableUpdate?
    ensures AllNeutral(gpu, xs) ==> forall y <- Tag(ctx, [start]) + Tag(ctx, xs) :: !y.effect.TableUpdate?
  {
    var first, rest := Tag(ctx, [start]), Tag(ctx, xs);
    if AllNeutral(gpu, xs) {
      forall y: Action | y in first + rest ensures !y.effect.TableUpdate? {
        var i :| 0 <= i < |first + rest| && (first + rest)[i] == y;
        if i != 0 {
          assert y == rest[i - 1] && Neutral(gpu, xs[i - 1]);
        }
      }
    }
  }

  // Where in a ring's log the work has an IB, and the table it finds there.
  lemma ForeignAt(j: Job, input: seq<u32>, log: seq<Action>, t: u64) returns (p: nat)
    requires Layout(j.gpu) && InRange(j) && Plain(j, input) && RunsIb(PayloadEffects(j, input))
    requires HasOwnTable(j.gpu, j.ctx) && LastUpdate(log, t) != j.ctx.value.pagetable.ttbr0
    ensures var all := log + Actions(j, input);
            |log| <= p < |all| && !RightTable(j.gpu, all[p], LastUpdate(all[..p], t))
  {
    hide *;
    var actions := Actions(j, input);
    var i := IbIndex(j, input, LastUpdate(log, t));
    TableAtIb(j, input, log, i, t);
    p := |log| + i + 1;
    assert (log + actions)[..p] == log + actions[..i + 1] && (log + actions)[p] == actions[i + 1];
  }

  // Some IB of a context with a pagetable of its own runs under another one.
  ghost predicate RunsForeignly(gpu: Gpu, m: Machine, moves: seq<Move>) {
    && Protocol(m) && AllowedRun(gpu, m, moves) && (forall move <- moves :: Own(move))
    && exists x <- Trace(gpu, m, moves) :: !RightTable(gpu, x.action, x.ttbr0)
  }

  lemma ReachesForeign(gpu: Gpu, m: Machine, moves: seq<Move>, action: Action, ttbr0: u64)
    requires Reaches(gpu, m, moves, action, ttbr0) && !RightTable(gpu, action, ttbr0)
    ensures RunsForeignly(gpu, m, moves)
  {
    hide Protocol, AllowedRun, Trace, RightTable, Own;
    var x := Ran(action, ttbr0);
    assert x in Trace(gpu, m, moves) && !RightTable(gpu, x.action, x.ttbr0);
  }

  // What the new work finds: its ring's log, the work behind it, and a table that is not its own.
  lemma MixedWork(gpu: Gpu, m: Machine, k: nat, ctx: Context, switchJob: Job, j: Job, input: seq<u32>)
    requires Protocol(m) && k < |m.rings| && !Covered(gpu, m, k, ctx, false)
    ensures var r := Mixed(m, k, ctx, switchJob, j, input);
            && Wf(r) && |r.rings| == |m.rings| && r.rings[k].log == m.rings[k].log + Actions(j, input)
            && r.core.progress[k].done <= |m.rings[k].log|
    ensures HasOwnTable(gpu, Some(ctx))
    ensures LastUpdate(m.rings[k].log, gpu.defaultPagetable.ttbr0) != ctx.pagetable.ttbr0
  {
    hide Actions, LastUpdate;
  }

  /**
    The other side of PagetableSurvives, for every ring and every state: after an uncovered switch and any command
    with an IB behind it, the handlers and the hardware can go on so that the IB runs under a foreign pagetable.
   */
  lemma UncoveredSwitchRuns(gpu: Gpu, m: Machine, k: nat, ctx: Context, switchJob: Job, j: Job, input: seq<u32>)
    requires Layout(gpu) && Protocol(m) && Boundaries(m) && TablesHold(gpu, m) && k < |m.rings|
    requires Allowed(gpu, m, SwitchContext(k, ctx, false, switchJob)) && !Covered(gpu, m, k, ctx, false)
    requires j.gpu == gpu && j.rb.id == k && j.ctx == Some(ctx) && InRange(j)
    requires Plain(j, input) && RunsIb(PayloadEffects(j, input))
    ensures exists more :: RunsForeignly(gpu, Mixed(m, k, ctx, switchJob, j, input), more)
  {
    assert switchJob.gpu == gpu;
    hide *;
    MixedIsSane(gpu, m, k, ctx, switchJob, j, input);
    MixedWork(gpu, m, k, ctx, switchJob, j, input);
    var r, t := Mixed(m, k, ctx, switchJob, j, input), gpu.defaultPagetable.ttbr0;
    var p := ForeignAt(j, input, m.rings[k].log, t);
    var more := ActionRuns(gpu, r, k, p);
    ReachesForeign(gpu, r, more, r.rings[k].log[p], LastUpdate(r.rings[k].log[..p], t));
  }

  /** Over every run: the first uncovered switch, on whatever ring and in whatever state, can do its harm. */
  lemma UncoveredSwitchFails(gpu: Gpu, rings: nat, moves: seq<Move>, k: nat, ctx: Context, switchJob: Job, j: Job,
      input: seq<u32>)
    requires Layout(gpu) && 1 <= rings <= MAX_RINGS
    requires AllowedRun(gpu, PowerUp(gpu, rings), moves) && CoveredRun(gpu, PowerUp(gpu, rings), moves)
    requires var m := After(gpu, PowerUp(gpu, rings), moves);
             k < |m.rings| && Allowed(gpu, m, SwitchContext(k, ctx, false, switchJob))
                 && !Covered(gpu, m, k, ctx, false)
    requires j.gpu == gpu && j.rb.id == k && j.ctx == Some(ctx) && InRange(j)
    requires Plain(j, input) && RunsIb(PayloadEffects(j, input))
    ensures var m := After(gpu, PowerUp(gpu, rings), moves);
            exists more :: RunsForeignly(gpu, Mixed(m, k, ctx, switchJob, j, input), more)
  {
    hide *;
    RunKeeps(gpu, rings, moves);
    UncoveredSwitchRuns(gpu, After(gpu, PowerUp(gpu, rings), moves), k, ctx, switchJob, j, input);
  }
}
