/**
  The two models of the preemption protocol agree: a handler that no other thread disturbs, cut into its steps, does to
  the shared state what the handler does as a whole.
 */
module PreemptionAlone {
  import opened Words
  import opened PreemptionThreads
  import P = Preemption
  import PagetableStream

  // The same state, seen by both models.
  ghost predicate Matches(m: Machine, p: P.Machine) {
    && m.state == p.state && m.cur == p.cur && m.next == p.next && m.prev == p.prev
    && m.wptr == p.wptr && m.switching == p.switching && m.restore == p.restore && m.core == p.core.ring
    && |m.wp| == |m.rptr| == |m.saved| == |p.rings|
    && forall k :: 0 <= k < |p.rings| ==>
         m.wp[k] == p.rings[k].Wptr() && m.rptr[k] == p.rings[k].rptr && m.saved[k] == p.rings[k].saved
  }

  // `n` steps of thread `t`, and of no other, lead from `m` to `r`.
  ghost predicate Leads(m: Machine, t: nat, awake: bool, n: nat, r: Machine)
    decreases n
  {
    if n == 0 then m == r
    else Allowed(m, Run(t, awake)) && Leads(Next(m, Run(t, awake)), t, awake, n - 1, r)
  }

  lemma {:induction false} LeadsOn(m: Machine, t: nat, awake: bool, n: nat, r: Machine, k: nat, q: Machine)
    requires Leads(m, t, awake, n, r) && Leads(r, t, awake, k, q)
    ensures Leads(m, t, awake, n + k, q)
    decreases n
  {
    hide Next, Allowed;
    if n != 0 {
      LeadsOn(Next(m, Run(t, awake)), t, awake, n - 1, r, k, q);
    }
  }

  lemma OneStep(m: Machine, t: nat, awake: bool, r: Machine)
    requires Allowed(m, Run(t, awake)) && Next(m, Run(t, awake)) == r
    ensures Leads(m, t, awake, 1, r)
  {
    hide Next, Allowed;
    assert Leads(r, t, awake, 0, r);
  }

  // One more step behind those so far.
  lemma StepOn(m: Machine, t: nat, awake: bool, n: nat, r: Machine, q: Machine)
    requires Leads(m, t, awake, n, r) && Allowed(r, Run(t, awake)) && Next(r, Run(t, awake)) == q
    ensures Leads(m, t, awake, n + 1, q)
  {
    hide Next, Allowed, Leads;
    OneStep(r, t, awake, q);
    LeadsOn(m, t, awake, n, r, 1, q);
  }

  // ------------------------------------------------------------ the trigger

  // Where the scan of the rings ends.
  function Found(m: Machine, p: P.Machine, i: nat, locked: bool): Pc
    requires i <= |p.rings|
  {
    match P.FirstBusy(p.rings, i)
    case None => Leave(locked)
    case Some(n) => if n == m.cur then Same(locked) else Arm(n, locked)
  }

  lemma ScanStep(m: Machine, t: nat, awake: bool, i: nat, locked: bool)
    requires Wf(m) && t < |m.threads| && m.section == Free && i <= |m.wp| && m.threads[t] == Scan(i, locked)
    ensures Allowed(m, Run(t, awake))
    ensures Next(m, Run(t, awake)) ==
      Goto(m, t, if i == |m.wp| then Leave(locked)
                 else if m.rptr[i] == m.wp[i] then Scan(i + 1, locked)
                 else if i == m.cur then Same(locked) else Arm(i, locked))
  {
  }

  lemma GotoTwice(m: Machine, t: nat, pc: Pc, next: Pc)
    requires t < |m.threads|
    ensures Goto(Goto(m, t, pc), t, next) == Goto(m, t, next)
  {
  }

  lemma {:induction false} ScanAlone(m: Machine, t: nat, awake: bool, i: nat, locked: bool, p: P.Machine)
      returns (n: nat)
    requires Wf(m) && t < |m.threads| && m.section == Free && Matches(m, p)
    requires i <= |m.wp| && m.threads[t] == Scan(i, locked)
    ensures Leads(m, t, awake, n, Goto(m, t, Found(m, p, i, locked)))
    decreases |m.wp| - i
  {
    hide Next, Allowed, Leads;
    ScanStep(m, t, awake, i, locked);
    var q := Next(m, Run(t, awake));
    OneStep(m, t, awake, q);
    n := 1;
    if i < |m.wp| && m.rptr[i] == m.wp[i] {
      var k := ScanAlone(q, t, awake, i + 1, locked, p);
      GotoTwice(m, t, Scan(i + 1, locked), Found(q, p, i + 1, locked));
      LeadsOn(m, t, awake, 1, q, k, Goto(q, t, Found(q, p, i + 1, locked)));
      n := 1 + k;
    }
  }

  lemma Replaced(threads: seq<Pc>, t: nat, pc: Pc, next: Pc)
    requires t < |threads|
    ensures threads[t := pc][t := next] == threads[t := next]
  {
  }

  // One step, given what it comes to.
  lemma StepIs(m: Machine, t: nat, awake: bool, shared: Machine, pc: Pc)
    requires Wf(m) && t < |m.threads| && Carries(m.threads[t], |m.wp|, m.cur)
    requires StepOf(m, t, awake) == Then(shared, pc) && shared.threads == m.threads
    ensures Leads(m, t, awake, 1, Goto(shared, t, pc))
  {
    hide StepOf, Leads, Wf, Carries;
    OneStep(m, t, awake, Goto(shared, t, pc));
  }

  lemma CasStep(m: Machine, t: nat, awake: bool, locked: bool)
    requires Wf(m) && t < |m.threads| && m.threads[t] == TriggerCas(locked)
    ensures m.state == P.Clear ==>
      Leads(m, t, awake, 1, Goto(m.(state := P.Start, owner := Some(t)), t, Scan(0, locked)))
    ensures m.state != P.Clear ==> Leads(m, t, awake, 1, Goto(m, t, Return(locked)))
  {
    hide Leads, Programming, Answering, Finishing, Deciding, Closing, Repairing, Submitting;
    if m.state == P.Clear {
      StepIs(m, t, awake, m.(state := P.Start, owner := Some(t)), Scan(0, locked));
    } else {
      StepIs(m, t, awake, m, Return(locked));
    }
  }

  lemma LeaveStep(m: Machine, t: nat, awake: bool, locked: bool)
    requires Wf(m) && t < |m.threads| && m.threads[t] == Leave(locked)
    ensures Leads(m, t, awake, 1, Goto(m.(state := P.Clear, owner := None), t, Return(locked)))
  {
    hide Leads, Programming, Answering, Finishing, Deciding, Closing, Repairing, Submitting;
    StepIs(m, t, awake, m.(state := P.Clear, owner := None), Return(locked));
  }

  lemma SameStep(m: Machine, t: nat, awake: bool, locked: bool)
    requires Wf(m) && t < |m.threads| && m.threads[t] == Same(locked) && m.section == Free
    ensures Leads(m, t, awake, 1, Goto(Ring(m), t, Leave(locked)))
  {
    hide Leads, Ring, Programming, Answering, Finishing, Deciding, Closing, Repairing, Submitting;
    StepIs(m, t, awake, Ring(m), Leave(locked));
  }

  // The shared state with a switch to ring `n` requested by thread `t`.
  function Requested(m: Machine, n: nat): Machine
    requires n < |m.saved| == |m.wp| == |m.late|
  {
    m.(saved := m.saved[n := m.wp[n]], late := m.late[n := false], restore := n, next := Some(n), state := P.Triggered,
       owner := None, switching := true, firing := None, inFlight := true, triggers := m.triggers + 1)
  }

  lemma ArmSteps(m: Machine, t: nat, awake: bool, n: nat, locked: bool)
    requires Wf(m) && t < |m.threads| && m.threads[t] == Arm(n, locked) && m.section == Free && n < |m.wp| && n != m.cur
    ensures Leads(m, t, awake, 2, Goto(
      m.(saved := m.saved[n := m.wp[n]], late := m.late[n := false], restore := n, next := Some(n)), t,
      SetTriggered(n, locked)))
  {
    hide Leads, Choosing, Answering, Finishing, Deciding, Closing, Repairing, Submitting;
    var a := m.(saved := m.saved[n := m.wp[n]], late := m.late[n := false]);
    StepIs(m, t, awake, a, Publish(n, locked));
    var b := Goto(a, t, Publish(n, locked));
    StepIs(b, t, awake, b.(restore := n, next := Some(n)), SetTriggered(n, locked));
    Replaced(m.threads, t, Publish(n, locked), SetTriggered(n, locked));
    LeadsOn(m, t, awake, 1, b, 1, Goto(b.(restore := n, next := Some(n)), t, SetTriggered(n, locked)));
  }

  lemma FireSteps(m: Machine, t: nat, awake: bool, n: nat, locked: bool)
    requires Wf(m) && t < |m.threads| && m.threads[t] == SetTriggered(n, locked) && n < |m.wp| && n != m.cur
    ensures Leads(m, t, awake, 2, Goto(
      m.(state := P.Triggered, owner := None, inFlight := true, triggers := m.triggers + 1, switching := true,
         firing := None), t, Return(locked)))
  {
    hide Leads, Choosing, Answering, Finishing, Deciding, Closing, Repairing, Submitting;
    var c := m.(state := P.Triggered, owner := None, firing := Some(t), inFlight := true, triggers := m.triggers + 1);
    StepIs(m, t, awake, c, Fire(locked));
    var d := Goto(c, t, Fire(locked));
    StepIs(d, t, awake, d.(switching := true, firing := None), Return(locked));
    Replaced(m.threads, t, Fire(locked), Return(locked));
    LeadsOn(m, t, awake, 1, d, 1, Goto(d.(switching := true, firing := None), t, Return(locked)));
  }

  lemma RequestSteps(m: Machine, t: nat, awake: bool, n: nat, locked: bool)
    requires Wf(m) && t < |m.threads| && m.threads[t] == Arm(n, locked) && m.section == Free && n < |m.wp| && n != m.cur
    ensures Leads(m, t, awake, 4, Goto(Requested(m, n), t, Return(locked)))
  {
    hide Leads;
    var b := Goto(m.(saved := m.saved[n := m.wp[n]], late := m.late[n := false], restore := n, next := Some(n)), t,
        SetTriggered(n, locked));
    ArmSteps(m, t, awake, n, locked);
    Replaced(m.threads, t, SetTriggered(n, locked), Return(locked));
    FireSteps(b, t, awake, n, locked);
    LeadsOn(m, t, awake, 2, b, 2, Goto(Requested(m, n), t, Return(locked)));
  }

  // What a handler that ran alone leaves: the whole handler's state, the thread at `pc`, nothing locked meanwhile.
  ghost predicate Left(m: Machine, t: nat, p: P.Machine, pc: Pc, r: Machine) {
    && t < |m.threads| && Matches(r, p) && r.threads == m.threads[t := pc] && r.section == Free && |r.late| == |r.wp|
  }

  lemma RequestedMatches(m: Machine, p: P.Machine, n: nat)
    requires Wf(m) && Matches(m, p) && p.state == P.Clear && P.FirstBusy(p.rings, 0) == Some(n) && n != p.cur
    ensures Matches(Requested(m, n), P.Triggers(p))
  {
  }

  lemma RungMatches(m: Machine, p: P.Machine)
    requires Wf(m) && Matches(m, p)
    ensures Matches(Ring(m), P.Rung(p))
  {
  }

  // What the trigger goes through between its exchange and its end.
  function Chosen(m: Machine, t: nat): Machine {
    m.(state := P.Start, owner := Some(t))
  }

  lemma NothingFound(m: Machine, b: Machine, t: nat, awake: bool, locked: bool, p: P.Machine)
    requires Wf(m) && t < |m.threads| && m.section == Free && Matches(m, p) && m.state == P.Clear
    requires P.FirstBusy(p.rings, 0) == None && b == Goto(Chosen(m, t), t, Leave(locked))
    ensures var r := Goto(m.(owner := None), t, Return(locked));
            Leads(b, t, awake, 1, r) && Left(m, t, P.Triggers(p), Return(locked), r)
            && r.mutex == m.mutex && Wf(r)
  {
    hide Leads;
    LeaveStep(b, t, awake, locked);
    Replaced(m.threads, t, Leave(locked), Return(locked));
  }

  lemma SameRings(m: Machine, t: nat, awake: bool, locked: bool)
    requires Wf(m) && t < |m.threads| && m.section == Free
    ensures Leads(Goto(Chosen(m, t), t, Same(locked)), t, awake, 1, Goto(Ring(Chosen(m, t)), t, Leave(locked)))
  {
    hide Leads, Next, Allowed;
    SameStep(Goto(Chosen(m, t), t, Same(locked)), t, awake, locked);
    Replaced(m.threads, t, Same(locked), Leave(locked));
  }

  lemma SameLeaves(m: Machine, t: nat, awake: bool, locked: bool)
    requires Wf(m) && t < |m.threads| && m.section == Free && m.state == P.Clear
    ensures Leads(Goto(Ring(Chosen(m, t)), t, Leave(locked)), t, awake, 1,
                  Goto(Ring(m).(owner := None), t, Return(locked)))
  {
    hide Leads, Next, Allowed;
    LeaveStep(Goto(Ring(Chosen(m, t)), t, Leave(locked)), t, awake, locked);
    Replaced(m.threads, t, Leave(locked), Return(locked));
  }

  lemma SameFound(m: Machine, b: Machine, t: nat, awake: bool, locked: bool, p: P.Machine)
    requires Wf(m) && t < |m.threads| && m.section == Free && Matches(m, p) && m.state == P.Clear
    requires P.FirstBusy(p.rings, 0) == Some(m.cur) && b == Goto(Chosen(m, t), t, Same(locked))
    ensures var r := Goto(Ring(m).(owner := None), t, Return(locked));
            Leads(b, t, awake, 2, r) && Left(m, t, P.Triggers(p), Return(locked), r)
            && r.mutex == m.mutex && Wf(r)
  {
    hide Leads, Next, Allowed, P.Triggers, Matches, Left;
    SameRings(m, t, awake, locked);
    SameLeaves(m, t, awake, locked);
    LeadsOn(b, t, awake, 1, Goto(Ring(Chosen(m, t)), t, Leave(locked)), 1,
        Goto(Ring(m).(owner := None), t, Return(locked)));
    SameLeft(m, t, locked, p);
  }

  lemma SameLeft(m: Machine, t: nat, locked: bool, p: P.Machine)
    requires Wf(m) && t < |m.threads| && m.section == Free && Matches(m, p) && m.state == P.Clear
    requires P.FirstBusy(p.rings, 0) == Some(m.cur)
    ensures Left(m, t, P.Triggers(p), Return(locked), Goto(Ring(m).(owner := None), t, Return(locked)))
  {
    RungMatches(m, p);
  }

  lemma OtherFound(m: Machine, b: Machine, t: nat, awake: bool, locked: bool, k: nat, p: P.Machine)
    requires Wf(m) && t < |m.threads| && m.section == Free && Matches(m, p) && m.state == P.Clear
    requires P.FirstBusy(p.rings, 0) == Some(k) && k != m.cur && b == Goto(Chosen(m, t), t, Arm(k, locked))
    ensures k < |m.wp|
    ensures var r := Goto(Requested(m, k), t, Return(locked));
            Leads(b, t, awake, 4, r) && Left(m, t, P.Triggers(p), Return(locked), r)
            && r.mutex == m.mutex && Wf(r)
  {
    hide Leads;
    RequestSteps(b, t, awake, k, locked);
    Replaced(m.threads, t, Arm(k, locked), Return(locked));
    RequestedMatches(m, p, k);
  }

  lemma FoundAlone(m: Machine, b: Machine, t: nat, awake: bool, locked: bool, p: P.Machine) returns (n: nat, r: Machine)
    requires Wf(m) && t < |m.threads| && m.section == Free && Matches(m, p) && m.state == P.Clear
    requires b == Goto(Chosen(m, t), t, Found(m, p, 0, locked))
    ensures Leads(b, t, awake, n, r) && Left(m, t, P.Triggers(p), Return(locked), r) && r.mutex == m.mutex && Wf(r)
  {
    hide Leads, Left, P.Triggers, Matches, Chosen;
    match P.FirstBusy(p.rings, 0)
    case None =>
      NothingFound(m, b, t, awake, locked, p);
      n, r := 1, Goto(m.(owner := None), t, Return(locked));
    case Some(k) =>
      if k == m.cur {
        SameFound(m, b, t, awake, locked, p);
        n, r := 2, Goto(Ring(m).(owner := None), t, Return(locked));
      } else {
        OtherFound(m, b, t, awake, locked, k, p);
        n, r := 4, Goto(Requested(m, k), t, Return(locked));
      }
  }

  lemma TriggerAlone(m: Machine, t: nat, awake: bool, locked: bool, p: P.Machine) returns (n: nat, r: Machine)
    requires Wf(m) && t < |m.threads| && m.section == Free && Matches(m, p) && m.threads[t] == TriggerCas(locked)
    ensures Leads(m, t, awake, n, r) && Left(m, t, P.Triggers(p), Return(locked), r) && r.mutex == m.mutex && Wf(r)
  {
    hide Leads;
    CasStep(m, t, awake, locked);
    if m.state != P.Clear {
      n, r := 1, Goto(m, t, Return(locked));
    } else {
      var k, b := ScanFrom(m, t, awake, locked, p);
      var j;
      j, r := FoundAlone(m, b, t, awake, locked, p);
      hide *;
      hide Leads;
      LeadsOn(m, t, awake, k, b, j, r);
      n := k + j;
    }
  }

  lemma ScanFrom(m: Machine, t: nat, awake: bool, locked: bool, p: P.Machine) returns (n: nat, b: Machine)
    requires Wf(m) && t < |m.threads| && m.section == Free && Matches(m, p) && m.threads[t] == TriggerCas(locked)
    requires m.state == P.Clear
    ensures b == Goto(Chosen(m, t), t, Found(m, p, 0, locked)) && Leads(m, t, awake, n, b)
  {
    hide Leads;
    CasStep(m, t, awake, locked);
    var a := Goto(Chosen(m, t), t, Scan(0, locked));
    var k := ScanAlone(a, t, awake, 0, locked, p.(state := P.Start));
    GotoTwice(Chosen(m, t), t, Scan(0, locked), Found(m, p, 0, locked));
    b := Goto(a, t, Found(a, p.(state := P.Start), 0, locked));
    LeadsOn(m, t, awake, 1, a, k, b);
    n := 1 + k;
  }

  // -------------------------------------------------------- the interrupt

  // The shared state behind a hand-off.
  function Over(m: Machine): Machine
    requires Wf(m)
  {
    Ring(Swap(Noticed(m))).(state := P.Clear, owner := None)
  }

  lemma OverMatches(m: Machine, p: P.Machine)
    requires Wf(m) && Matches(m, p) && p.next.Some?
    ensures Matches(Over(m), P.HandedOff(p)) && Wf(Over(m)) && Over(m).section == m.section
    ensures Over(m).mutex == m.mutex && Over(m).threads == m.threads
  {
  }

  lemma IrqRefused(m: Machine, t: nat, awake: bool, p: P.Machine)
    requires Wf(m) && t < |m.threads| && m.section == Free && Matches(m, p) && m.threads[t] == IrqCas
    requires m.state != P.Triggered
    ensures Leads(m, t, awake, 1, Goto(m, t, Idle))
  {
    hide Leads, Choosing, Programming, Finishing, Deciding, Closing, Repairing, Submitting;
    StepIs(m, t, awake, m, Idle);
  }

  lemma IrqAccepted(m: Machine, t: nat, awake: bool)
    requires Wf(m) && t < |m.threads| && m.threads[t] == IrqCas && m.state == P.Triggered
    ensures Leads(m, t, awake, 2, Goto(Noticed(m).(state := P.Pending, owner := Some(t)), t,
                                       if m.switching then IrqComplete else IrqSwap))
  {
    hide Leads, Choosing, Programming, Finishing, Deciding, Closing, Repairing, Submitting;
    var next := if m.switching then IrqComplete else IrqSwap;
    var a := Goto(m.(state := P.Pending, owner := Some(t)), t, IrqRead);
    StepIs(m, t, awake, m.(state := P.Pending, owner := Some(t)), IrqRead);
    StepIs(a, t, awake, Noticed(a), next);
    Replaced(m.threads, t, IrqRead, next);
    LeadsOn(m, t, awake, 1, a, 1, Goto(Noticed(a), t, next));
  }

  lemma IrqDeferred(m: Machine, t: nat, awake: bool)
    requires Wf(m) && t < |m.threads| && m.threads[t] == IrqCas && m.state == P.Triggered && m.switching
    ensures Leads(m, t, awake, 3, Goto(m.(state := P.Complete, owner := None), t, Idle))
  {
    hide Leads, Choosing, Programming, Finishing, Deciding, Closing, Repairing, Submitting;
    IrqAccepted(m, t, awake);
    var b := Goto(Noticed(m).(state := P.Pending, owner := Some(t)), t, IrqComplete);
    var r := Goto(m.(state := P.Complete, owner := None), t, Idle);
    StepIs(b, t, awake, b.(state := P.Complete, owner := None), Idle);
    Replaced(m.threads, t, IrqComplete, Idle);
    LeadsOn(m, t, awake, 2, b, 1, r);
  }

  // A hand-off under way in the interrupt.
  function Pending(m: Machine, t: nat): Machine
    requires Wf(m)
  {
    Noticed(m).(state := P.Pending, owner := Some(t))
  }

  lemma IrqSwapStep(m: Machine, t: nat, awake: bool)
    requires Wf(m) && t < |m.threads|
    ensures Leads(Goto(Pending(m, t), t, IrqSwap), t, awake, 1, Goto(Swap(Pending(m, t)), t, IrqUpdate))
  {
    hide Leads, Choosing, Programming, Answering, Deciding, Closing, Repairing, Submitting;
    var b := Goto(Pending(m, t), t, IrqSwap);
    StepIs(b, t, awake, Swap(b), IrqUpdate);
    Replaced(m.threads, t, IrqSwap, IrqUpdate);
  }

  lemma IrqUpdateStep(m: Machine, t: nat, awake: bool)
    requires Wf(m) && t < |m.threads| && m.section == Free
    ensures Leads(Goto(Swap(Pending(m, t)), t, IrqUpdate), t, awake, 1, Goto(Ring(Swap(Pending(m, t))), t, IrqClear))
  {
    hide Leads, Choosing, Programming, Answering, Deciding, Closing, Repairing, Submitting;
    var c := Goto(Swap(Pending(m, t)), t, IrqUpdate);
    StepIs(c, t, awake, Ring(c), IrqClear);
    Replaced(m.threads, t, IrqUpdate, IrqClear);
  }

  lemma IrqClearStep(m: Machine, t: nat, awake: bool)
    requires Wf(m) && t < |m.threads|
    ensures Leads(Goto(Ring(Swap(Pending(m, t))), t, IrqClear), t, awake, 1, Goto(Over(m), t, TriggerCas(false)))
  {
    hide Leads, Choosing, Programming, Answering, Deciding, Closing, Repairing, Submitting;
    var d := Goto(Ring(Swap(Pending(m, t))), t, IrqClear);
    StepIs(d, t, awake, d.(state := P.Clear, owner := None), TriggerCas(false));
    Replaced(m.threads, t, IrqClear, TriggerCas(false));
  }

  lemma IrqLanded(m: Machine, t: nat, awake: bool)
    requires Wf(m) && t < |m.threads| && m.section == Free && m.threads[t] == IrqCas && m.state == P.Triggered
    requires !m.switching
    ensures Leads(m, t, awake, 5, Goto(Over(m), t, TriggerCas(false)))
  {
    IrqAccepted(m, t, awake);
    IrqSwapStep(m, t, awake);
    IrqUpdateStep(m, t, awake);
    IrqClearStep(m, t, awake);
    var b, c, d := Goto(Pending(m, t), t, IrqSwap), Goto(Swap(Pending(m, t)), t, IrqUpdate),
        Goto(Ring(Swap(Pending(m, t))), t, IrqClear);
    assert b == Goto(Noticed(m).(state := P.Pending, owner := Some(t)), t, IrqSwap);
    hide *;
    hide Leads, Over, Goto;
    LeadsOn(m, t, awake, 2, b, 1, c);
    LeadsOn(m, t, awake, 3, c, 1, d);
    LeadsOn(m, t, awake, 4, d, 1, Goto(Over(m), t, TriggerCas(false)));
  }

  // An interrupt that finds nothing to do, or defers the hand-off.
  lemma IrqLeft(m: Machine, t: nat, p: P.Machine)
    requires Wf(m) && t < |m.threads| && m.section == Free && Matches(m, p) && P.Protocol(p)
    ensures m.state != P.Triggered ==> Left(m, t, P.CalledBack(p), Idle, Goto(m, t, Idle)) && Wf(Goto(m, t, Idle))
    ensures m.state == P.Triggered && m.switching ==>
      var r := Goto(m.(state := P.Complete, owner := None), t, Idle);
      Left(m, t, P.CalledBack(p), Idle, r) && Wf(r)
  {
    hide P.Triggers, P.HandedOff;
  }

  lemma LandAlone(m: Machine, t: nat, awake: bool, p: P.Machine) returns (n: nat, r: Machine)
    requires Wf(m) && t < |m.threads| && m.section == Free && Matches(m, p) && m.threads[t] == IrqCas
    requires P.Protocol(p) && m.state == P.Triggered && !m.switching
    ensures Leads(m, t, awake, n, r) && Left(m, t, P.CalledBack(p), Idle, r) && r.mutex == m.mutex && Wf(r)
  {
    hide Leads, P.Triggers, P.HandedOff, Over, Next, Allowed, Matches;
    assert p.state == m.state && p.switching == m.switching by { Agree(m, p); }
    IrqLanded(m, t, awake);
    OverMatches(m, p);
    var e, q := Goto(Over(m), t, TriggerCas(false)), P.HandedOff(p);
    MatchesOn(Over(m), q, e);
    n, r := TriggerAlone(e, t, awake, false, q);
    Replaced(m.threads, t, TriggerCas(false), Idle);
    LeadsOn(m, t, awake, 5, e, n, r);
    n := 5 + n;
  }

  lemma Agree(m: Machine, p: P.Machine)
    requires Matches(m, p)
    ensures p.state == m.state && p.switching == m.switching && p.next == m.next && p.cur == m.cur
    ensures |p.rings| == |m.wp|
  {
  }

  // Where the threads stand does not matter.
  lemma MatchesOn(m: Machine, p: P.Machine, r: Machine)
    requires Matches(m, p) && r == m.(threads := r.threads)
    ensures Matches(r, p)
  {
  }

  /** The interrupt alone is the callback. */
  lemma CallbackAlone(m: Machine, t: nat, awake: bool, p: P.Machine) returns (n: nat, r: Machine)
    requires Wf(m) && t < |m.threads| && m.section == Free && Matches(m, p) && m.threads[t] == IrqCas && P.Protocol(p)
    ensures Leads(m, t, awake, n, r) && Left(m, t, P.CalledBack(p), Idle, r) && r.mutex == m.mutex && Wf(r)
  {
    hide Leads, Left, Matches, P.CalledBack, P.Protocol, Next, Allowed;
    IrqLeft(m, t, p);
    if m.state != P.Triggered {
      IrqRefused(m, t, awake, p);
      n, r := 1, Goto(m, t, Idle);
    } else if m.switching {
      IrqDeferred(m, t, awake);
      n, r := 3, Goto(m.(state := P.Complete, owner := None), t, Idle);
    } else {
      n, r := LandAlone(m, t, awake, p);
    }
  }

  // ------------------------------------------------------- the dispatcher

  function Locked(m: Machine, t: nat): Machine {
    m.(mutex := Some(t))
  }

  lemma LockStep(m: Machine, t: nat, awake: bool)
    requires Wf(m) && t < |m.threads| && m.threads[t] == ScheduleLock && m.mutex == None
    ensures Leads(m, t, awake, 2, Goto(Locked(m, t), t, if m.state == P.Complete then DoneRead else TriggerCas(true)))
  {
    hide Leads, Choosing, Programming, Answering, Finishing, Closing, Repairing, Submitting;
    var next := if m.state == P.Complete then DoneRead else TriggerCas(true);
    var a := Goto(Locked(m, t), t, ScheduleCheck);
    StepIs(m, t, awake, Locked(m, t), ScheduleCheck);
    StepIs(a, t, awake, a, next);
    Replaced(m.threads, t, ScheduleCheck, next);
    LeadsOn(m, t, awake, 1, a, 1, Goto(a, t, next));
  }

  // The dispatcher has nothing to hand over.
  lemma DoneRefused(m: Machine, t: nat, awake: bool) returns (n: nat)
    requires Wf(m) && t < |m.threads| && m.threads[t] == ScheduleLock && m.mutex == None
    requires !(m.state == P.Complete && awake && !m.switching)
    ensures Leads(m, t, awake, n, Goto(Locked(m, t), t, TriggerCas(true)))
  {
    hide Leads, Choosing, Programming, Answering, Finishing, Closing, Repairing, Submitting;
    LockStep(m, t, awake);
    n := 2;
    if m.state == P.Complete {
      var a := Goto(Locked(m, t), t, DoneRead);
      StepIs(a, t, awake, a, TriggerCas(true));
      Replaced(m.threads, t, DoneRead, TriggerCas(true));
      LeadsOn(m, t, awake, 2, a, 1, Goto(Locked(m, t), t, TriggerCas(true)));
      n := 3;
    }
  }

  function OverLocked(m: Machine, t: nat): Machine
    requires Wf(m)
  {
    Ring(Swap(Noticed(m))).(mutex := Some(t), state := P.Clear, closing := None)
  }

  lemma OverLockedMatches(m: Machine, t: nat, p: P.Machine)
    requires Wf(m) && t < |m.threads| && Matches(m, p) && p.next.Some?
    ensures var r := OverLocked(m, t);
            && Matches(r, P.HandedOff(p)) && Wf(r) && r.section == m.section
            && r.mutex == Some(t) && r.threads == m.threads
  {
  }

  lemma DoneDecided(m: Machine, t: nat, awake: bool)
    requires Wf(m) && t < |m.threads| && m.threads[t] == ScheduleLock && m.mutex == None
    requires m.state == P.Complete && awake && !m.switching
    ensures Leads(m, t, awake, 3, Goto(Noticed(Locked(m, t)), t, DoneSwap))
  {
    hide Leads, Choosing, Programming, Answering, Finishing, Closing, Repairing, Submitting;
    LockStep(m, t, awake);
    var a := Goto(Locked(m, t), t, DoneRead);
    StepIs(a, t, awake, Noticed(a), DoneSwap);
    Replaced(m.threads, t, DoneRead, DoneSwap);
    LeadsOn(m, t, awake, 2, a, 1, Goto(Noticed(Locked(m, t)), t, DoneSwap));
  }

  function AtUpdate(m: Machine, t: nat): Machine
    requires Wf(m) && t < |m.threads|
  {
    Goto(Swap(Noticed(m)).(mutex := Some(t), closing := Some(t)), t, DoneUpdate)
  }

  function AtClear(m: Machine, t: nat): Machine
    requires Wf(m) && t < |m.threads|
  {
    Goto(Ring(Swap(Noticed(m))).(mutex := Some(t), closing := Some(t)), t, DoneClear)
  }

  lemma SwapStep(m: Machine, t: nat, awake: bool)
    requires Wf(m) && t < |m.threads|
    ensures Leads(Goto(Noticed(Locked(m, t)), t, DoneSwap), t, awake, 1, AtUpdate(m, t))
  {
    hide Leads, Choosing, Programming, Answering, Finishing, Deciding, Repairing, Submitting;
    var b := Goto(Noticed(Locked(m, t)), t, DoneSwap);
    StepIs(b, t, awake, Swap(b).(closing := Some(t)), DoneUpdate);
    Replaced(m.threads, t, DoneSwap, DoneUpdate);
  }

  lemma UpdateStep(m: Machine, t: nat, awake: bool)
    requires Wf(m) && t < |m.threads| && m.section == Free
    ensures Leads(AtUpdate(m, t), t, awake, 1, AtClear(m, t))
  {
    hide Leads, Choosing, Programming, Answering, Finishing, Deciding, Repairing, Submitting;
    var c := AtUpdate(m, t);
    StepIs(c, t, awake, Ring(c), DoneClear);
    Replaced(m.threads, t, DoneUpdate, DoneClear);
  }

  lemma ClearStep(m: Machine, t: nat, awake: bool)
    requires Wf(m) && t < |m.threads|
    ensures Leads(AtClear(m, t), t, awake, 1, Goto(OverLocked(m, t), t, TriggerCas(true)))
  {
    hide Leads, Choosing, Programming, Answering, Finishing, Deciding, Repairing, Submitting;
    var c := AtClear(m, t);
    StepIs(c, t, awake, c.(state := P.Clear, closing := None), TriggerCas(true));
    Replaced(m.threads, t, DoneClear, TriggerCas(true));
  }

  lemma DoneLanded(m: Machine, t: nat, awake: bool)
    requires Wf(m) && t < |m.threads| && m.section == Free && m.threads[t] == ScheduleLock && m.mutex == None
    requires m.state == P.Complete && awake && !m.switching
    ensures Leads(m, t, awake, 6, Goto(OverLocked(m, t), t, TriggerCas(true)))
  {
    hide Leads, Choosing, Programming, Answering, Finishing, Deciding, Repairing, Submitting;
    DoneDecided(m, t, awake);
    SwapStep(m, t, awake);
    UpdateStep(m, t, awake);
    ClearStep(m, t, awake);
    hide *;
    hide Leads, AtUpdate, AtClear, OverLocked, Goto;
    var b, end := Goto(Noticed(Locked(m, t)), t, DoneSwap), Goto(OverLocked(m, t), t, TriggerCas(true));
    LeadsOn(m, t, awake, 3, b, 1, AtUpdate(m, t));
    LeadsOn(m, t, awake, 4, AtUpdate(m, t), 1, AtClear(m, t));
    LeadsOn(m, t, awake, 5, AtClear(m, t), 1, end);
  }

  // The trigger the dispatcher ends with, and the mutex given back.
  lemma TriggerUnlocked(m: Machine, t: nat, awake: bool, p: P.Machine) returns (n: nat, r: Machine)
    requires Wf(m) && t < |m.threads| && m.section == Free && Matches(m, p) && m.threads[t] == TriggerCas(true)
    ensures Leads(m, t, awake, n, r) && Left(m, t, P.Triggers(p), Idle, r) && r.mutex == None && Wf(r)
  {
    hide Leads, P.Triggers, Choosing, Programming, Answering, Finishing, Deciding, Closing, Submitting;
    var k, a := TriggerAlone(m, t, awake, true, p);
    r := Goto(a.(mutex := None), t, Idle);
    StepIs(a, t, awake, a.(mutex := None), Idle);
    Replaced(m.threads, t, Unlock, Idle);
    LeadsOn(m, t, awake, k, a, 1, r);
    n := k + 1;
  }

  // Up to the trigger the dispatcher ends with.
  lemma DecideAlone(m: Machine, t: nat, awake: bool, p: P.Machine) returns (n: nat, a: Machine, q: P.Machine)
    requires Wf(m) && t < |m.threads| && m.section == Free && m.mutex == None && Matches(m, p)
    requires m.threads[t] == ScheduleLock && P.Protocol(p)
    ensures Leads(m, t, awake, n, a) && Wf(a) && a.section == Free && a.threads == m.threads[t := TriggerCas(true)]
    ensures Matches(a, q) && P.Scheduled(p, awake) == P.Triggers(q)
  {
    hide Leads, P.Triggers, P.HandedOff, OverLocked, Next, Allowed, Matches;
    Agree(m, p);
    if m.state == P.Complete && awake && !m.switching {
      DoneLanded(m, t, awake);
      OverLockedMatches(m, t, p);
      n, a, q := 6, Goto(OverLocked(m, t), t, TriggerCas(true)), P.HandedOff(p);
      MatchesOn(OverLocked(m, t), q, a);
    } else {
      n := DoneRefused(m, t, awake);
      a, q := Goto(Locked(m, t), t, TriggerCas(true)), p;
      LockedMatches(m, t, p);
      MatchesOn(Locked(m, t), q, a);
    }
  }

  lemma LockedMatches(m: Machine, t: nat, p: P.Machine)
    requires Matches(m, p)
    ensures Matches(Locked(m, t), p)
  {
  }

  /** The dispatcher alone is the schedule. */
  lemma ScheduleAlone(m: Machine, t: nat, awake: bool, p: P.Machine) returns (n: nat, r: Machine)
    requires Wf(m) && t < |m.threads| && m.section == Free && m.mutex == None && Matches(m, p)
    requires m.threads[t] == ScheduleLock && P.Protocol(p)
    ensures Leads(m, t, awake, n, r) && Left(m, t, P.Scheduled(p, awake), Idle, r) && r.mutex == None && Wf(r)
  {
    hide Leads, P.Triggers, P.Scheduled, Next, Allowed, Matches, P.Protocol, Wf;
    var k, a, q := DecideAlone(m, t, awake, p);
    n, r := TriggerUnlocked(a, t, awake, q);
    Replaced(m.threads, t, TriggerCas(true), Idle);
    LeadsOn(m, t, awake, k, a, n, r);
    n := k + n;
  }

  // --------------------------------------------- the worker and submissions

  lemma WorkerStarts(m: Machine, t: nat, awake: bool)
    requires Wf(m) && t < |m.threads| && m.threads[t] == WorkerLock && m.mutex == None
    ensures Leads(m, t, awake, 2, Goto(Locked(m, t), t, if m.state == P.Faulted then WorkerRead else Unlock))
  {
    hide Leads, Choosing, Programming, Answering, Finishing, Deciding, Closing, Submitting;
    var next := if m.state == P.Faulted then WorkerRead else Unlock;
    var a := Goto(Locked(m, t), t, WorkerCheck);
    StepIs(m, t, awake, Locked(m, t), WorkerCheck);
    StepIs(a, t, awake, a, next);
    Replaced(m.threads, t, WorkerCheck, next);
    LeadsOn(m, t, awake, 1, a, 1, Goto(a, t, next));
  }

  lemma UnlockStep(m: Machine, t: nat, awake: bool, n: nat, a: Machine)
    requires Leads(m, t, awake, n, a) && Wf(a) && t < |a.threads| && a.threads[t] == Unlock
    ensures Leads(m, t, awake, n + 1, Goto(a.(mutex := None), t, Idle))
  {
    hide Leads, Choosing, Programming, Answering, Finishing, Deciding, Closing, Submitting;
    StepIs(a, t, awake, a.(mutex := None), Idle);
    LeadsOn(m, t, awake, n, a, 1, Goto(a.(mutex := None), t, Idle));
  }

  lemma WorkerMends(m: Machine, t: nat, awake: bool)
    requires Wf(m) && t < |m.threads| && m.threads[t] == WorkerLock && m.mutex == None
    requires m.state == P.Faulted && awake && !m.switching
    ensures Leads(m, t, awake, 4, Goto(Locked(m, t).(state := P.Complete), t, Unlock))
  {
    hide Leads, Choosing, Programming, Answering, Finishing, Deciding, Closing, Submitting;
    WorkerStarts(m, t, awake);
    var b := Goto(Locked(m, t), t, WorkerRead);
    var c := Goto(Locked(m, t), t, WorkerComplete);
    var d := Goto(Locked(m, t).(state := P.Complete), t, Unlock);
    StepIs(b, t, awake, b, WorkerComplete);
    StepIs(c, t, awake, c.(state := P.Complete), Unlock);
    Replaced(m.threads, t, WorkerRead, WorkerComplete);
    Replaced(m.threads, t, WorkerComplete, Unlock);
    LeadsOn(m, t, awake, 2, b, 1, c);
    LeadsOn(m, t, awake, 3, c, 1, d);
  }

  lemma WorkerGivesUp(m: Machine, t: nat, awake: bool) returns (n: nat)
    requires Wf(m) && t < |m.threads| && m.threads[t] == WorkerLock && m.mutex == None
    requires !(m.state == P.Faulted && awake && !m.switching)
    ensures Leads(m, t, awake, n, Goto(Locked(m, t), t, Unlock))
  {
    hide Leads, Choosing, Programming, Answering, Finishing, Deciding, Closing, Submitting;
    WorkerStarts(m, t, awake);
    n := 2;
    if m.state == P.Faulted {
      var b := Goto(Locked(m, t), t, WorkerRead);
      StepIs(b, t, awake, b, Unlock);
      Replaced(m.threads, t, WorkerRead, Unlock);
      LeadsOn(m, t, awake, 2, b, 1, Goto(Locked(m, t), t, Unlock));
      n := 3;
    }
  }

  lemma WorkedLeft(m: Machine, t: nat, awake: bool, p: P.Machine, r: Machine)
    requires Wf(m) && t < |m.threads| && m.section == Free && Matches(m, p)
    requires r == m.(mutex := None, threads := m.threads[t := Idle], state := Mended(m, awake))
    ensures Left(m, t, P.Worked(p, awake), Idle, r) && Wf(r)
  {
  }

  function Mended(m: Machine, awake: bool): State {
    if m.state == P.Faulted && awake && !m.switching then P.Complete else m.state
  }

  lemma WorkerEnds(m: Machine, t: nat, awake: bool) returns (n: nat)
    requires Wf(m) && t < |m.threads| && m.threads[t] == WorkerLock && m.mutex == None
    ensures Leads(m, t, awake, n, Goto(Locked(m, t).(state := Mended(m, awake)), t, Unlock))
  {
    hide Leads, Next, Allowed;
    if m.state == P.Faulted && awake && !m.switching {
      WorkerMends(m, t, awake);
      n := 4;
    } else {
      n := WorkerGivesUp(m, t, awake);
      assert Locked(m, t).(state := Mended(m, awake)) == Locked(m, t);
    }
  }

  /** The worker alone is the worker. */
  lemma WorkerAlone(m: Machine, t: nat, awake: bool, p: P.Machine) returns (n: nat, r: Machine)
    requires Wf(m) && t < |m.threads| && m.section == Free && m.mutex == None && Matches(m, p)
    requires m.threads[t] == WorkerLock
    ensures Leads(m, t, awake, n, r) && Left(m, t, P.Worked(p, awake), Idle, r) && r.mutex == None && Wf(r)
  {
    hide Leads, Left, Matches, P.Worked, Next, Allowed, Mended;
    var k := WorkerEnds(m, t, awake);
    var a := Goto(Locked(m, t).(state := Mended(m, awake)), t, Unlock);
    UnlockStep(m, t, awake, k, a);
    Replaced(m.threads, t, Unlock, Idle);
    n, r := k + 1, Goto(a.(mutex := None), t, Idle);
    WorkedLeft(m, t, awake, p, r);
  }

  // The submission on its way: past the check of the state, past that of the ring, with the register written.
  function AtCur(m: Machine, t: nat, k: nat, d: nat): Machine
    requires t < |m.threads|
  {
    Goto(Locked(m, t).(section := Passed(k)), t, SubmitCur(k, d))
  }

  function AtRing(m: Machine, t: nat, k: nat, d: nat): Machine
    requires t < |m.threads|
  {
    Goto(Locked(m, t).(section := Passed(k)), t, SubmitRing(k, d))
  }

  function AtStore(m: Machine, t: nat, k: nat, d: nat, rung: bool): Machine
    requires t < |m.threads| && k < |m.wp|
  {
    Goto(if rung
         then Locked(m, t).(wptr := m.wp[k] + d, section := Posted(k, m.wp[k] + d), astray := m.astray || m.core != k)
         else Locked(m, t).(section := Held(k)), t, SubmitStore(k, d))
  }

  lemma SubmitLocks(m: Machine, t: nat, awake: bool, k: nat, d: nat)
    requires Wf(m) && t < |m.threads| && m.threads[t] == SubmitLock(k, d) && m.mutex == None && k < |m.wp|
    ensures Leads(m, t, awake, 1, Goto(Locked(m, t), t, SubmitState(k, d)))
  {
    hide Leads, Choosing, Programming, Answering, Finishing, Deciding, Closing, Repairing;
    StepIs(m, t, awake, Locked(m, t), SubmitState(k, d));
  }

  lemma SubmitPasses(m: Machine, t: nat, awake: bool, k: nat, d: nat)
    requires Wf(m) && t < |m.threads| && m.state == P.Clear && k < |m.wp|
    ensures Leads(Goto(Locked(m, t), t, SubmitState(k, d)), t, awake, 1, AtCur(m, t, k, d))
  {
    hide Leads, Choosing, Programming, Answering, Finishing, Deciding, Closing, Repairing;
    var a := Goto(Locked(m, t), t, SubmitState(k, d));
    StepIs(a, t, awake, a.(section := Passed(k)), SubmitCur(k, d));
    Replaced(m.threads, t, SubmitState(k, d), SubmitCur(k, d));
  }

  lemma SubmitStops(m: Machine, t: nat, awake: bool, k: nat, d: nat)
    requires Wf(m) && t < |m.threads| && m.state != P.Clear && k < |m.wp|
    ensures Leads(Goto(Locked(m, t), t, SubmitState(k, d)), t, awake, 1, AtStore(m, t, k, d, false))
  {
    hide Leads, Choosing, Programming, Answering, Finishing, Deciding, Closing, Repairing;
    var a := Goto(Locked(m, t), t, SubmitState(k, d));
    StepIs(a, t, awake, a.(section := Held(k)), SubmitStore(k, d));
    Replaced(m.threads, t, SubmitState(k, d), SubmitStore(k, d));
  }

  lemma SubmitAsks(m: Machine, t: nat, awake: bool, k: nat, d: nat)
    requires Wf(m) && t < |m.threads| && k < |m.wp|
    ensures Leads(AtCur(m, t, k, d), t, awake, 1,
      if m.cur == k then AtRing(m, t, k, d) else AtStore(m, t, k, d, false))
  {
    hide Leads, Choosing, Programming, Answering, Finishing, Deciding, Closing, Repairing;
    var b := AtCur(m, t, k, d);
    if m.cur == k {
      StepIs(b, t, awake, b, SubmitRing(k, d));
      Replaced(m.threads, t, SubmitCur(k, d), SubmitRing(k, d));
    } else {
      StepIs(b, t, awake, b.(section := Held(k)), SubmitStore(k, d));
      Replaced(m.threads, t, SubmitCur(k, d), SubmitStore(k, d));
    }
  }

  lemma SubmitPosts(m: Machine, t: nat, awake: bool, k: nat, d: nat)
    requires Wf(m) && t < |m.threads| && k < |m.wp|
    ensures Leads(AtRing(m, t, k, d), t, awake, 1, AtStore(m, t, k, d, true))
  {
    hide Leads, StepOf, Next, Allowed;
    assert Wf(AtRing(m, t, k, d));
    var c, wptr := AtRing(m, t, k, d), m.wp[k] + d;
    var shared := c.(wptr := wptr, section := Posted(k, wptr), astray := m.astray || m.core != k);
    PostStep(c, t, awake, k, d);
    hide Submitting, Wf;
    StepIs(c, t, awake, shared, SubmitStore(k, d));
    Replaced(m.threads, t, SubmitRing(k, d), SubmitStore(k, d));
  }

  lemma PostStep(c: Machine, t: nat, awake: bool, k: nat, d: nat)
    requires Wf(c) && t < |c.threads| && k < |c.wp| && c.threads[t] == SubmitRing(k, d)
    ensures var wptr := c.wp[k] + d;
            StepOf(c, t, awake)
              == Then(c.(wptr := wptr, section := Posted(k, wptr), astray := c.astray || c.core != k),
                  SubmitStore(k, d))
  {
    hide Choosing, Programming, Answering, Finishing, Deciding, Closing, Repairing;
  }

  // Rung, or held back.
  lemma SubmitDecides(m: Machine, t: nat, awake: bool, k: nat, d: nat) returns (n: nat)
    requires Wf(m) && t < |m.threads| && m.threads[t] == SubmitLock(k, d) && m.mutex == None && k < |m.wp|
    ensures Leads(m, t, awake, n, AtStore(m, t, k, d, m.state == P.Clear && m.cur == k))
  {
    hide Leads, AtCur, AtRing, AtStore, Next, Allowed, Wf, Goto;
    SubmitLocks(m, t, awake, k, d);
    var a, end := Goto(Locked(m, t), t, SubmitState(k, d)), AtStore(m, t, k, d, m.state == P.Clear && m.cur == k);
    if m.state != P.Clear {
      SubmitStops(m, t, awake, k, d);
      LeadsOn(m, t, awake, 1, a, 1, end);
      n := 2;
    } else {
      SubmitPasses(m, t, awake, k, d);
      SubmitAsks(m, t, awake, k, d);
      LeadsOn(m, t, awake, 1, a, 1, AtCur(m, t, k, d));
      if m.cur != k {
        LeadsOn(m, t, awake, 2, AtCur(m, t, k, d), 1, end);
        n := 3;
      } else {
        SubmitPosts(m, t, awake, k, d);
        LeadsOn(m, t, awake, 2, AtCur(m, t, k, d), 1, AtRing(m, t, k, d));
        LeadsOn(m, t, awake, 3, AtRing(m, t, k, d), 1, end);
        n := 4;
      }
    }
  }

  lemma StoreStep(a: Machine, t: nat, awake: bool, k: nat, d: nat)
    requires Wf(a) && t < |a.threads| && k < |a.wp| && a.threads[t] == SubmitStore(k, d)
    ensures Leads(a, t, awake, 1, Goto(
      a.(wp := a.wp[k := a.wp[k] + d], late := a.late[k := !a.section.Posted?], section := Free), t, Unlock))
  {
    hide Leads, Choosing, Programming, Answering, Finishing, Deciding, Closing, Repairing;
    StepIs(a, t, awake, a.(wp := a.wp[k := a.wp[k] + d], late := a.late[k := !a.section.Posted?], section := Free),
        Unlock);
  }

  lemma SubmittedMatches(m: Machine, p: P.Machine, k: nat, actions: seq<PagetableStream.Action>, wptr: nat)
    requires Matches(m, p) && k < |m.wp| && p.cur < |p.rings|
    requires wptr == if m.state == P.Clear && m.cur == k then m.wp[k] + |actions| else m.wptr
    ensures Matches(m.(wp := m.wp[k := m.wp[k] + |actions|], wptr := wptr), P.Submitted(p, k, actions))
  {
  }

  lemma SameView(m: Machine, p: P.Machine, r: Machine)
    requires Matches(m, p)
    requires r == m.(threads := r.threads, section := r.section, mutex := r.mutex, late := r.late, astray := r.astray)
    ensures Matches(r, p)
  {
  }

  lemma SubmittedLeft(m: Machine, t: nat, p: P.Machine, k: nat, actions: seq<PagetableStream.Action>, r: Machine)
    requires Wf(m) && t < |m.threads| && m.section == Free && m.mutex == None && Matches(m, p) && k < |m.wp|
    requires var a := AtStore(m, t, k, |actions|, m.state == P.Clear && m.cur == k);
             r == a.(wp := a.wp[k := a.wp[k] + |actions|], late := a.late[k := !a.section.Posted?], section := Free,
                     mutex := None, threads := m.threads[t := Idle])
    ensures Left(m, t, P.Submitted(p, k, actions), Idle, r) && Wf(r)
  {
    Agree(m, p);
    hide Matches, P.Submitted;
    SubmittedMatches(m, p, k, actions, r.wptr);
    SameView(m.(wp := m.wp[k := m.wp[k] + |actions|], wptr := r.wptr), P.Submitted(p, k, actions), r);
  }

  /** A submission alone is the submission. */
  lemma SubmitAlone(m: Machine, t: nat, awake: bool, p: P.Machine, k: nat, actions: seq<PagetableStream.Action>)
      returns (n: nat, r: Machine)
    requires Wf(m) && t < |m.threads| && m.section == Free && m.mutex == None && Matches(m, p)
    requires k < |m.wp| && m.threads[t] == SubmitLock(k, |actions|)
    ensures Leads(m, t, awake, n, r) && Left(m, t, P.Submitted(p, k, actions), Idle, r) && r.mutex == None && Wf(r)
  {
    hide Leads, Left, Matches, P.Submitted;
    var i := SubmitDecides(m, t, awake, k, |actions|);
    var a := AtStore(m, t, k, |actions|, m.state == P.Clear && m.cur == k);
    n, r := StoreAlone(m, a, t, awake, i, k, |actions|);
    SubmittedLeft(m, t, p, k, actions, r);
  }

  lemma StoreAlone(m: Machine, a: Machine, t: nat, awake: bool, i: nat, k: nat, d: nat) returns (n: nat, r: Machine)
    requires t < |m.threads| && Leads(m, t, awake, i, a) && Wf(a) && k < |a.wp|
    requires a.threads == m.threads[t := SubmitStore(k, d)]
    ensures Leads(m, t, awake, n, r)
    ensures r == a.(wp := a.wp[k := a.wp[k] + d], late := a.late[k := !a.section.Posted?], section := Free, mutex :=
        None,
                    threads := m.threads[t := Idle])
  {
    hide Leads;
    var b := Goto(a.(wp := a.wp[k := a.wp[k] + d], late := a.late[k := !a.section.Posted?], section := Free), t,
        Unlock);
    StoreStep(a, t, awake, k, d);
    LeadsOn(m, t, awake, i, a, 1, b);
    Replaced(m.threads, t, SubmitStore(k, d), Unlock);
    Replaced(m.threads, t, Unlock, Idle);
    UnlockStep(m, t, awake, i + 1, b);
    n, r := i + 2, Goto(b.(mutex := None), t, Idle);
  }

  // ------------------------------------------------------------ all handlers

  // What the handler behind an entry does as a whole; a submission queues `actions`.
  ghost function Handled(p: P.Machine, entry: Pc, awake: bool, actions: seq<PagetableStream.Action>): P.Machine
    requires P.Protocol(p) && IsEntry(entry) && (entry.SubmitLock? ==> entry.k < |p.rings|)
  {
    match entry
    case TriggerCas(_) => P.Triggers(p)
    case IrqCas => P.CalledBack(p)
    case ScheduleLock => P.Scheduled(p, awake)
    case WorkerLock => P.Worked(p, awake)
    case SubmitLock(k, _) => P.Submitted(p, k, actions)
    case _ => p
  }

  // A thread may be called to trigger, to answer the interrupt, for the dispatcher, for the worker and to submit.
  lemma Entries(k: nat, dwords: nat)
    ensures IsEntry(TriggerCas(false)) && IsEntry(IrqCas) && IsEntry(ScheduleLock) && IsEntry(WorkerLock)
    ensures IsEntry(SubmitLock(k, dwords))
  {
  }

  /**
    A handler called on an idle thread while no submission is under way and nobody holds the mutex, and then left to run
    by itself, comes to its end, and has done to the shared state what the whole handler does.
   */
  lemma Undisturbed(m: Machine, t: nat, entry: Pc, awake: bool, p: P.Machine, actions: seq<PagetableStream.Action>)
      returns (n: nat, r: Machine)
    requires Allowed(m, Call(t, entry)) && m.section == Free && m.mutex == None && Matches(m, p) && P.Protocol(p)
    requires entry.SubmitLock? ==> entry.dwords == |actions|
    ensures Leads(Next(m, Call(t, entry)), t, awake, n, r)
    ensures Matches(r, Handled(p, entry, awake, actions)) && Wf(r)
    ensures r.threads == m.threads && r.section == Free && r.mutex == None
  {
    hide Leads, P.Protocol, P.Triggers, P.CalledBack, P.Scheduled, P.Worked, P.Submitted;
    var c := Goto(m, t, entry);
    match entry
    case TriggerCas(_) => n, r := TriggerAlone(c, t, awake, false, p);
    case IrqCas => n, r := CallbackAlone(c, t, awake, p);
    case ScheduleLock => n, r := ScheduleAlone(c, t, awake, p);
    case WorkerLock => n, r := WorkerAlone(c, t, awake, p);
    case SubmitLock(k, _) => n, r := SubmitAlone(c, t, awake, p, k, actions);
    Replaced(m.threads, t, entry, Idle);
    assert m.threads[t := Idle] == m.threads;
  }

  lemma SwitchMatches(m: Machine, p: P.Machine)
    requires Wf(m) && Matches(m, p) && P.Protocol(p) && P.CanPreempt(p)
    ensures Matches(Next(m, Switch), P.Preempted(p))
  {
  }

  lemma ReportMatches(m: Machine, p: P.Machine, k: nat, rptr: nat)
    requires Wf(m) && Matches(m, p) && P.Wf(p) && k < |m.wp|
    requires p.rings[k].rptr <= rptr <= p.core.progress[k].done <= p.rings[k].Wptr()
    ensures Allowed(m, Report(k, rptr)) && Matches(Next(m, Report(k, rptr)), P.Reported(p, k, rptr))
  {
  }

  /** The timer, the hardware's switch and the report of a read pointer are single steps in both models. */
  lemma EnvironmentMatches(m: Machine, p: P.Machine)
    requires Wf(m) && Matches(m, p) && P.Protocol(p)
    ensures Matches(Next(m, Timer), P.TimedOut(p))
    ensures P.CanPreempt(p) ==> Matches(Next(m, Switch), P.Preempted(p))
    ensures forall k, rptr | 0 <= k < |m.wp| && p.rings[k].rptr <= rptr <= p.core.progress[k].done ::
      Allowed(m, Report(k, rptr)) && Matches(Next(m, Report(k, rptr)), P.Reported(p, k, rptr))
  {
    if P.CanPreempt(p) {
      SwitchMatches(m, p);
    }
    forall k, rptr | 0 <= k < |m.wp| && p.rings[k].rptr <= rptr <= p.core.progress[k].done
      ensures Allowed(m, Report(k, rptr)) && Matches(Next(m, Report(k, rptr)), P.Reported(p, k, rptr))
    {
      ReportMatches(m, p, k, rptr);
    }
  }
}
