/**
  How the doorbell register comes to hold a wrong pointer: from a hand-off decided before its trigger
  has reached the hardware, and from a submission that goes astray.
 */
module PreemptionSpoiling {
  import opened Words
  import opened PreemptionThreads
  import opened PreemptionThreadRuns
  import P = Preemption

  // ------------------------------------------------- one machine to another

  lemma LeadsSelf(m: Machine)
    ensures Leads(m, m)
  {
    assert AllowedRun(m, []) && Clean(m, []) && After(m, []) == m;
  }

  lemma LeadsStep(m: Machine, move: Move, r: Machine)
    requires Allowed(m, move) && !Upsets(m, move) && Next(m, move) == r
    ensures Leads(m, r)
  {
    hide Allowed, Upsets, Next;
    var moves := [move];
    assert AllowedRun(r, moves[1..]) && Clean(r, moves[1..]) && After(r, moves[1..]) == r;
    assert AllowedRun(m, moves) && Clean(m, moves) && After(m, moves) == r;
  }

  lemma {:induction false} CleanConcat(m: Machine, xs: seq<Move>, ys: seq<Move>)
    requires AllowedRun(m, xs) && AllowedRun(After(m, xs), ys)
    ensures AllowedRun(m, xs + ys) && After(m, xs + ys) == After(After(m, xs), ys)
    ensures Clean(m, xs + ys) <==> Clean(m, xs) && Clean(After(m, xs), ys)
    decreases |xs|
  {
    hide Next, Allowed, Upsets;
    if |xs| == 0 {
      assert xs + ys == ys;
    } else {
      assert (xs + ys)[1..] == xs[1..] + ys;
      CleanConcat(Next(m, xs[0]), xs[1..], ys);
    }
  }

  lemma LeadsOn(a: Machine, b: Machine, c: Machine)
    requires Leads(a, b) && Leads(b, c)
    ensures Leads(a, c)
  {
    hide AllowedRun, Clean, After;
    var xs :| AllowedRun(a, xs) && Clean(a, xs) && After(a, xs) == b;
    var ys :| AllowedRun(b, ys) && Clean(b, ys) && After(b, ys) == c;
    CleanConcat(a, xs, ys);
  }

  lemma LeadsInvariant(m: Machine, r: Machine)
    requires Invariant(m) && Leads(m, r)
    ensures Invariant(r)
  {
    hide AllowedRun, Clean, After, Invariant;
    var moves :| AllowedRun(m, moves) && Clean(m, moves) && After(m, moves) == r;
    RunKeepsInvariant(m, moves);
  }

  // A thread's step that upsets nothing.
  lemma StepLeads(m: Machine, t: nat, step: Step)
    requires Wf(m) && t < |m.threads| && Carries(m.threads[t], |m.wp|, m.cur) && StepOf(m, t, true) == step
    requires !TooSoon(m, m.threads[t], true) && !Strays(m, m.threads[t])
    ensures Leads(m, Goto(step.shared, t, step.pc))
  {
    hide Wf, Carries, StepOf, TooSoon, Strays;
    StepHistory(m, t, true);
    LeadsStep(m, Run(t, true), Goto(step.shared, t, step.pc));
  }

  lemma CallLeads(m: Machine, t: nat, entry: Pc)
    requires Wf(m) && t < |m.threads| && m.threads[t].Idle? && IsEntry(entry) && Carries(entry, |m.wp|, m.cur)
    ensures Leads(m, Goto(m, t, entry))
  {
    LeadsStep(m, Call(t, entry), Goto(m, t, entry));
  }

  // ------------------------------------------------------- the late register write

  // Thread `t` is about to hand over to ring `n`, by interrupt or for the dispatcher, while `f` has yet to write the
  // register.
  predicate Decided(m: Machine, t: nat, f: nat, n: nat) {
    && Wf(m) && t < |m.threads| && f < |m.threads| && m.section == Free
    && m.next == Some(n) && m.restore == n < |m.wp|
    && m.threads[f].Fire? && (m.threads[f].locked <==> m.mutex == Some(f))
    && ((m.threads[t].IrqSwap? && (m.mutex == None || m.mutex == Some(f)))
        || (m.threads[t].DoneSwap? && m.mutex == Some(t)))
  }

  // The register is written, and thread `t` is at step `i` of the hand-off.
  predicate Handing(m: Machine, t: nat, f: nat, n: nat, i: nat) {
    && Wf(m) && t < |m.threads| && f < |m.threads| && m.section == Free && m.switching && m.restore == n < |m.wp|
    && m.threads[f].Idle?
    && (if i == 0 then m.next == Some(n) else m.cur == n)
    && var pc := m.threads[t];
       || (m.mutex == None && pc == if i == 0 then IrqSwap else if i == 1 then IrqUpdate else IrqClear)
       || (m.mutex == Some(t) && pc == if i == 0 then DoneSwap else if i == 1 then DoneUpdate else DoneClear)
  }

  lemma FireStep(m: Machine, t: nat, f: nat, n: nat) returns (r: Machine)
    requires Decided(m, t, f, n)
    ensures Leads(m, r)
    ensures if m.threads[f].locked then r.mutex == Some(f) && r.threads == m.threads[f := Unlock] && Wf(r)
              && r.section == Free && r.switching && r.next == Some(n) && r.restore == n && |r.wp| == |m.wp|
            else Handing(r, t, f, n, 0)
  {
    hide Choosing, Answering, Finishing, Deciding, Closing, Repairing, Submitting;
    var firing := if m.firing == Some(f) then None else m.firing;
    var step := Then(m.(switching := true, firing := firing), Return(m.threads[f].locked));
    assert StepOf(m, f, true) == step;
    StepLeads(m, f, step);
    r := Goto(step.shared, f, step.pc);
  }

  lemma UnlockStep(m: Machine, t: nat)
    requires Wf(m) && t < |m.threads| && m.threads[t].Unlock?
    ensures Leads(m, Goto(m.(mutex := None), t, Idle))
  {
    hide Choosing, Programming, Answering, Finishing, Deciding, Closing, Submitting;
    StepLeads(m, t, Then(m.(mutex := None), Idle));
  }

  lemma FireStage(m: Machine, t: nat, f: nat, n: nat) returns (r: Machine)
    requires Decided(m, t, f, n)
    ensures Leads(m, r) && Handing(r, t, f, n, 0)
  {
    r := FireStep(m, t, f, n);
    if m.threads[f].locked {
      var freed := Goto(r.(mutex := None), f, Idle);
      UnlockStep(r, f);
      LeadsOn(m, r, freed);
      r := freed;
    }
  }

  // ----------------------------------------------------------- the hand-off

  lemma SwapStep(m: Machine, t: nat, f: nat, n: nat) returns (r: Machine)
    requires Handing(m, t, f, n, 0)
    ensures Leads(m, r) && Handing(r, t, f, n, 1)
  {
    hide Choosing, Programming, Answering, Deciding, Repairing, Submitting;
    var step := if m.threads[t].IrqSwap? then Then(Swap(m), IrqUpdate)
        else Then(Swap(m).(closing := Some(t)), DoneUpdate);
    assert StepOf(m, t, true) == step;
    StepLeads(m, t, step);
    r := Goto(step.shared, t, step.pc);
  }

  lemma UpdateStep(m: Machine, t: nat, f: nat, n: nat) returns (r: Machine)
    requires Handing(m, t, f, n, 1)
    ensures Leads(m, r) && Handing(r, t, f, n, 2)
  {
    hide Choosing, Programming, Answering, Deciding, Repairing, Submitting;
    var step := Then(Ring(m), if m.threads[t].IrqUpdate? then IrqClear else DoneClear);
    assert StepOf(m, t, true) == step;
    StepLeads(m, t, step);
    r := Goto(step.shared, t, step.pc);
  }

  // Handed over to ring `n`: thread `t` is about to trigger again, `f` is idle, and the first `i` rings look empty.
  predicate Handed(m: Machine, t: nat, f: nat, n: nat, i: nat) {
    && Wf(m) && t < |m.threads| && f < |m.threads| && m.section == Free && m.switching && m.cur == m.restore == n
    && m.state == P.Clear && m.threads[f].Idle? && m.threads[t].TriggerCas?
    && m.mutex == (if m.threads[t].locked then Some(t) else None)
    && i <= n && forall j | 0 <= j < i :: m.rptr[j] == m.wp[j]
  }

  lemma ClearStep(m: Machine, t: nat, f: nat, n: nat) returns (r: Machine)
    requires Handing(m, t, f, n, 2)
    ensures Leads(m, r) && Handed(r, t, f, n, 0)
  {
    hide Choosing, Programming, Answering, Deciding, Repairing, Submitting;
    var step := if m.threads[t].IrqClear? then Then(m.(state := P.Clear, owner := None), TriggerCas(false))
                else Then(m.(state := P.Clear, closing := None), TriggerCas(true));
    assert StepOf(m, t, true) == step;
    StepLeads(m, t, step);
    r := Goto(step.shared, t, step.pc);
  }

  lemma HandOffStage(m: Machine, t: nat, f: nat, n: nat) returns (r: Machine)
    requires Handing(m, t, f, n, 0)
    ensures Leads(m, r) && Handed(r, t, f, n, 0)
  {
    hide Handing, Handed, Leads;
    var m1 := SwapStep(m, t, f, n);
    var m2 := UpdateStep(m1, t, f, n);
    r := ClearStep(m2, t, f, n);
    LeadsOn(m, m1, m2);
    LeadsOn(m, m2, r);
  }

  // The read pointers of the rings in front of `n` catch up.
  lemma {:induction false} ReportStage(m: Machine, t: nat, f: nat, n: nat, i: nat) returns (r: Machine)
    requires Handed(m, t, f, n, i)
    ensures Leads(m, r) && Handed(r, t, f, n, n)
    decreases n - i
  {
    if i == n {
      LeadsSelf(m);
      r := m;
    } else {
      var next := m.(rptr := m.rptr[i := m.wp[i]]);
      LeadsStep(m, Report(i, m.wp[i]), next);
      assert Handed(next, t, f, n, i + 1);
      hide Handed;
      r := ReportStage(next, t, f, n, i + 1);
      LeadsOn(m, next, r);
    }
  }

  // ------------------------------------------ a submission that does not ring

  // Thread `f` has taken the state and is to scan ring `i`; in front of ring `n` they look empty.
  predicate Scanning(m: Machine, f: nat, n: nat, i: nat) {
    && Wf(m) && f < |m.threads| && m.switching && m.cur == m.restore == n && i <= n
    && m.state == P.Start && m.threads[f] == Scan(i, false) && forall j | 0 <= j < n :: m.rptr[j] == m.wp[j]
  }

  // Thread `f` takes the state NONE, and then the trigger of thread `t` finds it taken.
  lemma TakeStage(m: Machine, t: nat, f: nat, n: nat) returns (r: Machine)
    requires Handed(m, t, f, n, n) && t != f
    ensures Leads(m, r) && Scanning(r, f, n, 0) && t < |r.threads| && r.threads[t].Idle? && r.mutex == None
        && r.section == Free
  {
    var m1 := Goto(m, f, TriggerCas(false));
    CallLeads(m, f, TriggerCas(false));
    var took := Then(m1.(state := P.Start, owner := Some(f)), Scan(0, false));
    CasStep(m1, f, took);
    var m2 := Goto(took.shared, f, took.pc);
    assert Wf(m2) && m2.threads[t] == m.threads[t] && Scanning(m2, f, n, 0) && m2.mutex == m.mutex
        && m2.section == Free;
    hide *;
    r := RefusedStage(m2, t, f, n);
    LeadsOn(m, m1, m2);
    LeadsOn(m, m2, r);
  }

  lemma RefusedStage(m: Machine, t: nat, f: nat, n: nat) returns (r: Machine)
    requires Scanning(m, f, n, 0) && t != f && t < |m.threads| && m.threads[t].TriggerCas? && m.section == Free
    requires m.mutex == if m.threads[t].locked then Some(t) else None
    ensures Leads(m, r) && Scanning(r, f, n, 0) && t < |r.threads| && r.threads[t].Idle? && r.mutex == None
        && r.section == Free
  {
    var l := m.threads[t].locked;
    CasStep(m, t, Then(m, Return(l)));
    r := Goto(m, t, Return(l));
    if l {
      var freed := Goto(r.(mutex := None), t, Idle);
      UnlockStep(r, t);
      LeadsOn(m, r, freed);
      r := freed;
    }
  }

  lemma CasStep(m: Machine, t: nat, step: Step)
    requires Wf(m) && t < |m.threads| && m.threads[t].TriggerCas?
    requires var l := m.threads[t].locked;
             step == if m.state == P.Clear then Then(m.(state := P.Start, owner := Some(t)), Scan(0, l))
                 else Then(m, Return(l))
    ensures Leads(m, Goto(step.shared, t, step.pc))
  {
    hide Programming, Answering, Finishing, Deciding, Closing, Repairing, Submitting;
    StepLeads(m, t, step);
  }

  // A submission that finds the state taken or its ring not current, by thread `t`.
  function Submitted(m: Machine, k: nat, dwords: nat): Machine
    requires Wf(m) && k < |m.wp|
  {
    m.(wp := m.wp[k := m.wp[k] + dwords], late := m.late[k := true])
  }

  // `m` but for the mutex, the section and where thread `t` stands.
  function Inside(m: Machine, t: nat, mutex: Option<nat>, section: Section, pc: Pc): Machine
    requires t < |m.threads|
  {
    m.(mutex := mutex, section := section, threads := m.threads[t := pc])
  }

  lemma EnterStep(m: Machine, t: nat, k: nat, dwords: nat)
    requires Wf(m) && t < |m.threads| && k < |m.wp| && m.mutex == None && m.section == Free
    ensures Leads(Inside(m, t, None, Free, SubmitLock(k, dwords)), Inside(m, t, Some(t), Free, SubmitState(k, dwords)))
  {
    hide Choosing, Programming, Answering, Finishing, Deciding, Closing, Repairing;
    var r := Inside(m, t, None, Free, SubmitLock(k, dwords));
    StepLeads(r, t, Then(r.(mutex := Some(t)), SubmitState(k, dwords)));
    SameThread(m.threads, t, SubmitLock(k, dwords), SubmitState(k, dwords));
  }

  lemma SameThread(threads: seq<Pc>, t: nat, pc: Pc, next: Pc)
    requires t < |threads|
    ensures threads[t := pc][t := next] == threads[t := next]
  {
  }

  // It finds the state taken, or its ring not current.
  lemma HoldStep(m: Machine, t: nat, k: nat, dwords: nat)
    requires Wf(m) && t < |m.threads| && k < |m.wp| && (m.state != P.Clear || m.cur != k)
    ensures Leads(Inside(m, t, Some(t), Free, SubmitState(k, dwords)),
        Inside(m, t, Some(t), Held(k), SubmitStore(k, dwords)))
  {
    hide Choosing, Programming, Answering, Finishing, Deciding, Closing, Repairing;
    var r := Inside(m, t, Some(t), Free, SubmitState(k, dwords));
    SameThread(m.threads, t, SubmitState(k, dwords), SubmitStore(k, dwords));
    if m.state != P.Clear {
      StepLeads(r, t, Then(r.(section := Held(k)), SubmitStore(k, dwords)));
    } else {
      PassStep(m, t, k, dwords);
      var passed := Inside(m, t, Some(t), Passed(k), SubmitCur(k, dwords));
      SameThread(m.threads, t, SubmitCur(k, dwords), SubmitStore(k, dwords));
      StepLeads(passed, t, Then(passed.(section := Held(k)), SubmitStore(k, dwords)));
      LeadsOn(r, passed, Inside(m, t, Some(t), Held(k), SubmitStore(k, dwords)));
    }
  }

  lemma PassStep(m: Machine, t: nat, k: nat, dwords: nat)
    requires Wf(m) && t < |m.threads| && k < |m.wp| && m.state == P.Clear
    ensures Leads(Inside(m, t, Some(t), Free, SubmitState(k, dwords)),
        Inside(m, t, Some(t), Passed(k), SubmitCur(k, dwords)))
  {
    hide Choosing, Programming, Answering, Finishing, Deciding, Closing, Repairing;
    var r := Inside(m, t, Some(t), Free, SubmitState(k, dwords));
    SameThread(m.threads, t, SubmitState(k, dwords), SubmitCur(k, dwords));
    StepLeads(r, t, Then(r.(section := Passed(k)), SubmitCur(k, dwords)));
  }

  lemma CurStep(m: Machine, t: nat, k: nat, dwords: nat)
    requires Wf(m) && t < |m.threads| && k < |m.wp| && m.cur == k
    ensures Leads(Inside(m, t, Some(t), Passed(k), SubmitCur(k, dwords)),
        Inside(m, t, Some(t), Passed(k), SubmitRing(k, dwords)))
  {
    hide Choosing, Programming, Answering, Finishing, Deciding, Closing, Repairing;
    var r := Inside(m, t, Some(t), Passed(k), SubmitCur(k, dwords));
    SameThread(m.threads, t, SubmitCur(k, dwords), SubmitRing(k, dwords));
    StepLeads(r, t, Then(r, SubmitRing(k, dwords)));
  }

  lemma StoreStep(m: Machine, t: nat, k: nat, dwords: nat)
    requires Wf(m) && t < |m.threads| && k < |m.wp|
    ensures Leads(Inside(m, t, Some(t), Held(k), SubmitStore(k, dwords)),
        Inside(Submitted(m, k, dwords), t, Some(t), Free, Unlock))
  {
    hide Choosing, Programming, Answering, Finishing, Deciding, Closing, Repairing;
    var r := Inside(m, t, Some(t), Held(k), SubmitStore(k, dwords));
    StepLeads(r, t, Then(Submitted(r, k, dwords).(section := Free), Unlock));
    SameThread(m.threads, t, SubmitStore(k, dwords), Unlock);
  }

  lemma LeaveStep(m: Machine, t: nat)
    requires Wf(m) && t < |m.threads| && m.threads[t].Idle? && m.mutex == None && m.section == Free
    ensures Leads(Inside(m, t, Some(t), Free, Unlock), m)
  {
    var r := Inside(m, t, Some(t), Free, Unlock);
    UnlockStep(r, t);
    assert Goto(r.(mutex := None), t, Idle).threads == m.threads;
  }

  lemma SubmissionStage(m: Machine, t: nat, k: nat, dwords: nat)
    requires Wf(m) && t < |m.threads| && k < |m.wp| && m.threads[t].Idle? && m.mutex == None && m.section == Free
    requires m.state != P.Clear || m.cur != k
    ensures Leads(m, Submitted(m, k, dwords))
  {
    var r := Submitted(m, k, dwords);
    CallLeads(m, t, SubmitLock(k, dwords));
    var m1, m2 := Inside(m, t, None, Free, SubmitLock(k, dwords)), Inside(m, t, Some(t), Free, SubmitState(k, dwords));
    var m3, m4 := Inside(m, t, Some(t), Held(k), SubmitStore(k, dwords)), Inside(r, t, Some(t), Free, Unlock);
    assert Goto(m, t, SubmitLock(k, dwords)) == m1 && Wf(r) && r.threads == m.threads;
    assert r.mutex == None && r.section == Free;
    hide *;
    EnterStep(m, t, k, dwords);
    HoldStep(m, t, k, dwords);
    StoreStep(m, t, k, dwords);
    LeaveStep(r, t);
    LeadsOn(m, m1, m2);
    LeadsOn(m, m2, m3);
    LeadsOn(m, m3, m4);
    LeadsOn(m, m4, r);
  }

  // -------------------------------------------------- the trigger settles on ring `n`

  lemma ScanStep(m: Machine, f: nat, n: nat, i: nat) returns (r: Machine)
    requires Scanning(m, f, n, i) && m.section == Free && m.rptr[n] != m.wp[n]
    ensures Leads(m, r) && r == Goto(m, f, if i < n then Scan(i + 1, false) else Same(false))
  {
    hide Programming, Answering, Finishing, Deciding, Closing, Repairing, Submitting;
    r := Goto(m, f, if i < n then Scan(i + 1, false) else Same(false));
    StepLeads(m, f, Then(m, r.threads[f]));
  }

  lemma {:induction false} ScanStage(m: Machine, f: nat, n: nat, i: nat)
    requires Scanning(m, f, n, i) && m.section == Free && m.rptr[n] != m.wp[n]
    ensures Leads(m, Goto(m, f, Same(false)))
    decreases n - i
  {
    var r := ScanStep(m, f, n, i);
    if i < n {
      assert Scanning(r, f, n, i + 1) && Goto(r, f, Same(false)) == Goto(m, f, Same(false));
      hide *;
      ScanStage(r, f, n, i + 1);
      LeadsOn(m, r, Goto(m, f, Same(false)));
    }
  }

  // It rings the doorbell, the state is NONE again, and then the hardware switches with the older pointer.
  lemma LateSwitch(m: Machine, f: nat, n: nat) returns (r: Machine)
    requires Wf(m) && f < |m.threads| && m.threads[f] == Same(false) && m.section == Free && m.switching
        && m.cur == m.restore == n
    requires m.saved[n] != m.wp[n]
    ensures Leads(m, r) && Spoiled(r)
  {
    var rung := Then(Ring(m), Leave(false));
    SameStep(m, f, rung);
    var m1 := Goto(rung.shared, f, rung.pc);
    var left := Then(m1.(state := P.Clear, owner := None), Idle);
    LeaveScan(m1, f, left);
    var m2 := Goto(left.shared, f, left.pc);
    r := m2.(switching := false, core := n, wptr := m2.saved[n]);
    LeadsStep(m2, PreemptionThreads.Switch, r);
    assert Spoiled(r);
    hide *;
    LeadsOn(m, m1, m2);
    LeadsOn(m, m2, r);
  }

  lemma SameStep(m: Machine, f: nat, step: Step)
    requires Wf(m) && f < |m.threads| && m.threads[f] == Same(false) && m.section == Free
        && step == Then(Ring(m), Leave(false))
    ensures Leads(m, Goto(step.shared, f, step.pc))
  {
    hide Programming, Answering, Finishing, Deciding, Closing, Repairing, Submitting;
    StepLeads(m, f, step);
  }

  lemma LeaveScan(m: Machine, f: nat, step: Step)
    requires Wf(m) && f < |m.threads| && m.threads[f] == Leave(false)
        && step == Then(m.(state := P.Clear, owner := None), Idle)
    ensures Leads(m, Goto(step.shared, f, step.pc))
  {
    hide Programming, Answering, Finishing, Deciding, Closing, Repairing, Submitting;
    StepLeads(m, f, step);
  }

  lemma TriggerStage(m: Machine, t: nat, f: nat, n: nat) returns (r: Machine)
    requires Handed(m, t, f, n, n) && t != f
    ensures Leads(m, r) && Spoiled(r)
  {
    var m1 := TakeStage(m, t, f, n);
    var d := m1.saved[n] + m1.rptr[n] + 1;
    SubmissionStage(m1, t, n, d);
    var m2 := Submitted(m1, n, d);
    assert Scanning(m2, f, n, 0) && m2.section == Free && m2.rptr[n] != m2.wp[n];
    ScanStage(m2, f, n, 0);
    var m3 := Goto(m2, f, Same(false));
    r := LateSwitch(m3, f, n);
    hide *;
    LeadsOn(m, m1, m2);
    LeadsOn(m, m2, m3);
    LeadsOn(m, m3, r);
  }

  lemma DecidedSpoils(m: Machine, t: nat, f: nat, n: nat) returns (r: Machine)
    requires Decided(m, t, f, n)
    ensures Leads(m, r) && Spoiled(r)
  {
    assert t != f;
    hide *;
    var m1 := FireStage(m, t, f, n);
    var m2 := HandOffStage(m1, t, f, n);
    var m3 := ReportStage(m2, t, f, n, 0);
    r := TriggerStage(m3, t, f, n);
    LeadsOn(m, m1, m2);
    LeadsOn(m, m2, m3);
    LeadsOn(m, m3, r);
  }

  // -------------------------------------------- whoever else holds the mutex

  // The same as `Decided`, with the mutex wherever it may be and no submission about to go astray.
  ghost predicate Poised(m: Machine, t: nat, f: nat, n: nat) {
    && Invariant(m) && Wf(m) && t < |m.threads| && f < |m.threads|
    && m.next == Some(n) && m.restore == n < |m.wp| && m.core == m.cur
    && (m.threads[t].IrqSwap? || m.threads[t].DoneSwap?) && m.threads[f].Fire?
    && (forall u | 0 <= u < |m.threads| :: m.threads[u].Fire? ==> u == f)
    && !Straying(m)
  }

  // A thread is about to write the doorbell register for a ring that does not run.
  predicate Straying(m: Machine) {
    exists u | 0 <= u < |m.threads| :: m.threads[u].SubmitRing? && m.threads[u].k != m.core
  }

  // How many steps the holder of the mutex needs at most to give it back, in state PENDING.
  function Rank(pc: Pc): nat {
    match pc
    case ScheduleCheck => 3
    case SubmitState(_, _) => 4
    case SubmitCur(_, _) => 4
    case SubmitRing(_, _) => 3
    case SubmitStore(_, _) => 2
    case Unlock => 1
    case _ => 2
  }

  // The step brings the holder nearer to giving the mutex back and keeps what a decided hand-off needs.
  ghost predicate Frees(m: Machine, w: nat, step: Step)
    requires w < |m.threads|
  {
    var r, pc := step.shared, m.threads[w];
    && r.threads == m.threads && r.next == m.next && r.restore == m.restore && r.core == m.core && r.cur == m.cur
        && |r.wp| == |m.wp|
    && !step.pc.Fire? && (step.pc.SubmitRing? ==> step.pc.k == r.core)
    && (r.mutex == None || (r.mutex == m.mutex && Rank(step.pc) < Rank(pc)))
    && !TooSoon(m, pc, true) && !Strays(m, pc)
  }

  predicate Passing(m: Machine, w: nat) {
    && Wf(m) && w < |m.threads| && Carries(m.threads[w], |m.wp|, m.cur) && m.state == P.Pending && m.core == m.cur
    && HoldsMutex(m.threads[w]) && RoleOf(m.threads[w]) == NoRole && !m.threads[w].Fire?
    && (m.threads[w].SubmitRing? ==> m.threads[w].k == m.core)
  }

  lemma HolderStep(m: Machine, w: nat)
    requires Passing(m, w)
    ensures Frees(m, w, StepOf(m, w, true))
  {
    if PhaseOf(m.threads[w]) == Submits {
      SubmitterStep(m, w);
    } else {
      DispatcherStep(m, w);
    }
  }

  lemma SubmitterStep(m: Machine, w: nat)
    requires Passing(m, w) && PhaseOf(m.threads[w]) == Submits
    ensures Frees(m, w, StepOf(m, w, true))
  {
    hide Choosing, Programming, Answering, Finishing, Deciding, Closing, Repairing, Frees, Submitting;
    if m.threads[w].SubmitStore? {
      StoreFrees(m, w);
    } else {
      EnterFrees(m, w);
    }
  }

  lemma StoreFrees(m: Machine, w: nat)
    requires Passing(m, w) && m.threads[w].SubmitStore?
    ensures Frees(m, w, Submitting(m, w, m.threads[w]))
  {
  }

  lemma EnterFrees(m: Machine, w: nat)
    requires Passing(m, w) && PhaseOf(m.threads[w]) == Submits && !m.threads[w].SubmitStore?
    ensures Frees(m, w, Submitting(m, w, m.threads[w]))
  {
  }

  lemma DispatcherStep(m: Machine, w: nat)
    requires Passing(m, w) && PhaseOf(m.threads[w]) != Submits
    ensures Frees(m, w, StepOf(m, w, true))
  {
    hide Programming, Answering, Finishing, Closing, Submitting;
  }

  lemma PoisedHolder(m: Machine, t: nat, f: nat, n: nat)
    requires Poised(m, t, f, n)
    ensures m.mutex == None || m.mutex == Some(f) || m.mutex == Some(t) ==> Decided(m, t, f, n)
    ensures m.mutex.Some? && m.mutex != Some(f) && m.mutex != Some(t)
        ==> Passing(m, m.mutex.value) && m.threads[t].IrqSwap?
  {
    assert Fits(m, t, m.threads[t]) && Fits(m, f, m.threads[f]);
    if m.mutex.Some? && m.mutex != Some(f) && m.mutex != Some(t) {
      var w := m.mutex.value;
      assert Fits(m, w, m.threads[w]);
      assert m.threads[w].SubmitRing? ==> m.threads[w].k == m.core;
    }
  }

  lemma FreesPoised(m: Machine, t: nat, f: nat, n: nat, w: nat, step: Step)
    requires Poised(m, t, f, n) && w < |m.threads| && w != t && w != f && Frees(m, w, step)
    requires Invariant(Goto(step.shared, w, step.pc))
    ensures Poised(Goto(step.shared, w, step.pc), t, f, n)
  {
    hide Owned, Flown, Wired;
    var r := Goto(step.shared, w, step.pc);
    assert Wf(r) by { InvariantWf(r); }
    forall u | 0 <= u < |r.threads| ensures r.threads[u].Fire? ==> u == f {
      assert u != w ==> r.threads[u] == m.threads[u];
    }
    forall u | 0 <= u < |r.threads| ensures r.threads[u].SubmitRing? ==> r.threads[u].k == r.core {
      assert u != w ==> r.threads[u] == m.threads[u];
    }
  }

  lemma InvariantWf(m: Machine)
    requires Invariant(m)
    ensures Wf(m)
  {
  }

  // Any other holder of the mutex passes it on.
  lemma {:induction false} FreeStage(m: Machine, t: nat, f: nat, n: nat) returns (r: Machine)
    requires Poised(m, t, f, n)
    ensures Leads(m, r) && Decided(r, t, f, n)
    decreases if m.mutex.Some? && m.mutex.value < |m.threads| then Rank(m.threads[m.mutex.value]) else 0
  {
    PoisedHolder(m, t, f, n);
    if m.mutex == None || m.mutex == Some(f) || m.mutex == Some(t) {
      LeadsSelf(m);
      r := m;
    } else {
      var w := m.mutex.value;
      HolderStep(m, w);
      var step := StepOf(m, w, true);
      StepLeads(m, w, step);
      var next := Goto(step.shared, w, step.pc);
      assert next.mutex.Some? ==> next.mutex.value == w && Rank(next.threads[w]) < Rank(m.threads[w]);
      hide *;
      LeadsInvariant(m, next);
      FreesPoised(m, t, f, n, w, step);
      r := FreeStage(next, t, f, n);
      LeadsOn(m, next, r);
    }
  }

  // ------------------------------------------------------ the early hand-off

  /**
    The converse of `Doorbell` for early decisions: whenever a hand-off has been decided while some thread has yet to
    write the register, it can be followed to a wrong doorbell, with nothing else decided early and nothing astray.
   */
  lemma EarlyDecisionSpoils(m: Machine, t: nat, f: nat)
    requires Invariant(m) && t < |m.threads| && f < |m.threads| && m.core == m.cur && !Straying(m)
    requires (m.threads[t].IrqSwap? || m.threads[t].DoneSwap?) && m.threads[f].Fire?
    requires forall u | 0 <= u < |m.threads| :: m.threads[u].Fire? ==> u == f
    ensures Spoilable(m)
  {
    DecidedHasNext(m, t);
    var n := m.next.value;
    assert Poised(m, t, f, n);
    hide *;
    var r := FreeStage(m, t, f, n);
    var end := DecidedSpoils(r, t, f, n);
    LeadsOn(m, r, end);
    SpoiledEnd(m, end);
  }

  lemma SpoiledEnd(m: Machine, r: Machine)
    requires Leads(m, r) && Spoiled(r)
    ensures Spoilable(m)
  {
    hide Leads, Spoiled;
  }

  // A hand-off that has been decided has its ring.
  lemma DecidedHasNext(m: Machine, t: nat)
    requires Invariant(m) && t < |m.threads| && (m.threads[t].IrqSwap? || m.threads[t].DoneSwap?)
    ensures Wf(m) && m.next.Some? && m.next.value < |m.wp| && m.restore == m.next.value
  {
    assert Fits(m, t, m.threads[t]) && FliesAt(m, t, m.threads[t]);
  }

  // A thread is between the state write and the register write of a trigger.
  predicate Unwritten(m: Machine) {
    exists f :: 0 <= f < |m.threads| && m.threads[f].Fire?
  }

  // The thread reads the register as 0 and decides on the hand-off.
  predicate Decides(m: Machine, t: nat) {
    t < |m.threads| && (m.threads[t].IrqRead? || m.threads[t].DoneRead?) && !m.switching
  }

  lemma DecideStep(m: Machine, t: nat)
    requires Wf(m) && Decides(m, t)
    ensures Allowed(m, Run(t, true))
    ensures var r := Next(m, Run(t, true));
            && r.threads == m.threads[t := if m.threads[t].IrqRead? then IrqSwap else DoneSwap]
            && r.core == m.core && r.cur == m.cur && r.astray == m.astray && r.early == (m.early || m.firing.Some?)
  {
    hide Choosing, Programming, Finishing, Closing, Repairing, Submitting;
  }

  lemma FiringThread(m: Machine)
    requires Invariant(m) && !Upset(m)
    ensures Wf(m) && (m.firing.Some? <==> Unwritten(m)) && (m.firing.Some? ==> m.core == m.cur)
    ensures forall f | 0 <= f < |m.threads| :: m.threads[f].Fire? ==> m.firing == Some(f)
  {
    hide Fits, Flown, Ready, Rings;
    if m.firing.Some? {
      assert WireAt(m, m.firing.value, m.threads[m.firing.value]);
    }
    forall f | 0 <= f < |m.threads| && m.threads[f].Fire? ensures m.firing == Some(f) {
      assert WireAt(m, f, m.threads[f]);
    }
  }

  // Without an early decision and a submission astray nothing is spoiled.
  lemma CleanIsSound(m: Machine, r: Machine)
    requires Invariant(m) && !Upset(m) && Leads(m, r)
    ensures !Spoiled(r)
  {
    LeadsInvariant(m, r);
    var moves :| AllowedRun(m, moves) && Clean(m, moves) && After(m, moves) == r;
    UpsetRun(m, moves);
    hide AllowedRun, After, Clean;
  }

  // Thread `w` can not move without going astray, and holds its ring's spinlock and the mutex until it does.
  ghost predicate Stuck(m: Machine, w: nat, k: nat) {
    && Invariant(m) && w < |m.threads| && m.threads[w].SubmitRing? && m.threads[w].k == k && m.section == Passed(k)
    && m.core != k && m.restore != k
    && forall u | 0 <= u < |m.threads| :: m.threads[u].Publish? ==> m.threads[u].n != k
  }

  lemma StuckAt(m: Machine, w: nat)
    requires Invariant(m) && !Upset(m) && m.firing.Some? && w < |m.threads|
    requires m.threads[w].SubmitRing? && m.threads[w].k != m.core
    ensures Stuck(m, w, m.threads[w].k)
  {
    assert Fits(m, w, m.threads[w]);
    var k := m.threads[w].k;
    hide Recorded, Rings;
    forall u | 0 <= u < |m.threads| ensures m.threads[u].Publish? ==> m.threads[u].n != k {
      assert WireAt(m, u, m.threads[u]);
    }
  }

  // What a thread's step does to the ring a switch goes to, while ring `k` is locked.
  ghost predicate Aims(m: Machine, pc: Pc, k: nat, step: Step) {
    && step.shared.core == m.core && step.shared.restore == (if pc.Publish? then pc.n else m.restore)
    && (step.pc.Publish? ==> step.pc.n != k)
  }

  lemma ChoosingAims(m: Machine, t: nat, pc: Pc, k: nat)
    requires Wf(m) && Carries(pc, |m.wp|, m.cur) && m.section == Passed(k) && PhaseOf(pc) == Chooses
    ensures Aims(m, pc, k, Choosing(m, t, pc))
  {
  }

  lemma ProgrammingAims(m: Machine, t: nat, pc: Pc, k: nat)
    requires Wf(m) && Carries(pc, |m.wp|, m.cur) && m.section == Passed(k) && PhaseOf(pc) == Programs
    ensures Aims(m, pc, k, Programming(m, t, pc))
  {
  }

  lemma AnsweringAims(m: Machine, t: nat, pc: Pc, k: nat)
    requires Wf(m) && PhaseOf(pc) == Answers
    ensures Aims(m, pc, k, Answering(m, t, pc))
  {
  }

  lemma FinishingAims(m: Machine, t: nat, pc: Pc, k: nat)
    requires Wf(m) && PhaseOf(pc) == Finishes
    ensures Aims(m, pc, k, Finishing(m, t, pc))
  {
  }

  lemma DecidingAims(m: Machine, t: nat, pc: Pc, awake: bool, k: nat)
    requires Wf(m) && PhaseOf(pc) == Phase.Decides
    ensures Aims(m, pc, k, Deciding(m, t, pc, awake))
  {
  }

  lemma ClosingAims(m: Machine, t: nat, pc: Pc, k: nat)
    requires Wf(m) && PhaseOf(pc) == Closes
    ensures Aims(m, pc, k, Closing(m, t, pc))
  {
  }

  lemma RepairingAims(m: Machine, t: nat, pc: Pc, awake: bool, k: nat)
    requires Wf(m) && PhaseOf(pc) == Repairs
    ensures Aims(m, pc, k, Repairing(m, t, pc, awake))
  {
  }

  lemma SubmittingAims(m: Machine, t: nat, pc: Pc, k: nat)
    requires Wf(m) && Carries(pc, |m.wp|, m.cur) && m.section == Passed(k) && PhaseOf(pc) == Submits
    ensures Aims(m, pc, k, Submitting(m, t, pc))
  {
  }

  lemma RestoreStep(m: Machine, t: nat, awake: bool, k: nat)
    requires Allowed(m, Run(t, awake)) && m.section == Passed(k)
    ensures Aims(m, m.threads[t], k, StepOf(m, t, awake))
  {
    var pc := m.threads[t];
    hide Carries, Wf, Aims, Choosing, Programming, Answering, Finishing, Deciding, Closing, Repairing, Submitting;
    match PhaseOf(pc)
    case Chooses => ChoosingAims(m, t, pc, k);
    case Programs => ProgrammingAims(m, t, pc, k);
    case Answers => AnsweringAims(m, t, pc, k);
    case Finishes => FinishingAims(m, t, pc, k);
    case Decides => DecidingAims(m, t, pc, awake, k);
    case Closes => ClosingAims(m, t, pc, k);
    case Repairs => RepairingAims(m, t, pc, awake, k);
    case Submits => SubmittingAims(m, t, pc, k);
  }

  lemma StuckNext(m: Machine, move: Move, w: nat, k: nat)
    requires Stuck(m, w, k) && Allowed(m, move) && !Upsets(m, move)
    ensures Stuck(Next(m, move), w, k)
  {
    InvariantNext(m, move);
    assert Fits(m, w, m.threads[w]);
    var r := Next(m, move);
    if move.Run? {
      StuckRun(m, move.t, move.awake, w, k);
    } else {
      hide Invariant, Fits, Wf, Carries;
    }
  }

  lemma StuckRun(m: Machine, t: nat, awake: bool, w: nat, k: nat)
    requires Stuck(m, w, k) && Allowed(m, Run(t, awake)) && !Upsets(m, Run(t, awake))
    requires Invariant(Next(m, Run(t, awake)))
    ensures Stuck(Next(m, Run(t, awake)), w, k)
  {
    assert Fits(m, w, m.threads[w]) && m.mutex == Some(w) && t != w;
    StepOrderly(m, t, awake);
    RestoreStep(m, t, awake, k);
    StepHistory(m, t, awake);
    var step := StepOf(m, t, awake);
    assert step.shared.section == m.section;
    hide StepOf, Invariant, Fits, Orderly, Considerate, Wf, Carries, Upsets;
    var r := Goto(step.shared, t, step.pc);
    forall u | 0 <= u < |r.threads| ensures r.threads[u].Publish? ==> r.threads[u].n != k {
    }
  }

  lemma {:induction false} StuckStays(m: Machine, moves: seq<Move>, w: nat, k: nat)
    requires Stuck(m, w, k) && AllowedRun(m, moves) && Clean(m, moves)
    ensures Stuck(After(m, moves), w, k)
    decreases |moves|
  {
    hide Stuck, Next, Allowed, Upsets;
    if |moves| != 0 {
      StuckNext(m, moves[0], w, k);
      StuckStays(Next(m, moves[0]), moves[1..], w, k);
    }
  }

  lemma StuckIsSound(m: Machine, r: Machine, w: nat, k: nat)
    requires Stuck(m, w, k) && Leads(m, r)
    ensures !Spoiled(r)
  {
    hide AllowedRun, Clean, After;
    var moves :| AllowedRun(m, moves) && Clean(m, moves) && After(m, moves) == r;
    StuckStays(m, moves, w, k);
  }

  lemma DecisionExact(m: Machine, t: nat)
    requires Invariant(m) && !Upset(m) && Decides(m, t)
    ensures Allowed(m, Run(t, true)) && (Spoilable(Next(m, Run(t, true))) <==> Unwritten(m) && !Straying(m))
  {
    FiringThread(m);
    DecideStep(m, t);
    var r := Next(m, Run(t, true));
    InvariantNext(m, Run(t, true));
    hide Invariant, Next, Allowed, Leads, Spoiled;
    if !Unwritten(m) {
      forall end | Leads(r, end) ensures !Spoiled(end) {
        CleanIsSound(r, end);
      }
    } else if !Straying(m) {
      var f :| 0 <= f < |m.threads| && m.threads[f].Fire?;
      StillStraying(m, r, t);
      EarlyDecisionSpoils(r, t, f);
    } else {
      var w :| 0 <= w < |m.threads| && m.threads[w].SubmitRing? && m.threads[w].k != m.core;
      StuckAt(m, w);
      StuckDecision(m, t, w, m.threads[w].k);
      forall end | Leads(r, end) ensures !Spoiled(end) {
        StuckIsSound(r, end, w, m.threads[w].k);
      }
    }
  }

  lemma StuckDecision(m: Machine, t: nat, w: nat, k: nat)
    requires Stuck(m, w, k) && Decides(m, t) && Allowed(m, Run(t, true))
    ensures Stuck(Next(m, Run(t, true)), w, k)
  {
    InvariantNext(m, Run(t, true));
    hide Choosing, Programming, Finishing, Closing, Repairing, Submitting, Invariant;
    var r := Next(m, Run(t, true));
    assert r.section == m.section && r.restore == m.restore && r.core == m.core;
  }

  lemma StillStraying(m: Machine, r: Machine, t: nat)
    requires t < |m.threads| && r.core == m.core && !Straying(m)
    requires r.threads == m.threads[t := if m.threads[t].IrqRead? then IrqSwap else DoneSwap]
    ensures !Straying(r)
  {
  }

  /**
    Exactly which decisions can spoil the doorbell: over every run without an early one and nothing astray, the next
    decision to hand over can be followed to a wrong doorbell, with nothing early or astray any more, if and only if a
    trigger is unwritten and no submission is about to go astray, which would block all others.
   */
  lemma DecisionSpoilsExactly(rings: nat, threads: nat, moves: seq<Move>, t: nat)
    requires rings > 0 && AllowedRun(Idling(rings, threads), moves) && Clean(Idling(rings, threads), moves)
    requires Decides(After(Idling(rings, threads), moves), t)
    ensures var m := After(Idling(rings, threads), moves);
            && Allowed(m, Run(t, true))
            && (Spoilable(Next(m, Run(t, true))) <==> Unwritten(m) && !Straying(m))
  {
    hide AllowedRun, After, Clean, Next, Allowed, Decides, Unwritten, Spoilable, Invariant, Straying;
    var start := Idling(rings, threads);
    IdlingInvariant(rings, threads);
    RunKeepsInvariant(start, moves);
    UpsetRun(start, moves);
    DecisionExact(After(start, moves), t);
  }

  // ------------------------------------------------------ a whole switch by one thread

  // Ring `i` is the first with work, and neither it nor a ring in front of it is locked.
  predicate FirstWork(m: Machine, i: nat) {
    && Wf(m) && i < |m.wp| && m.rptr[i] != m.wp[i] && (m.section.Free? || m.section.k > i)
    && forall j | 0 <= j < i :: m.rptr[j] == m.wp[j]
  }

  // Somewhere in a switch of thread `u` to ring `i`; nobody else has moved since `m`.
  predicate Amid(m: Machine, r: Machine, u: nat, i: nat) {
    && Wf(r) && FirstWork(r, i) && u < |m.threads| && |r.threads| == |m.threads|
    && (forall v | 0 <= v < |m.threads| && v != u :: r.threads[v] == m.threads[v])
    && r.wp == m.wp && r.rptr == m.rptr && r.section == m.section && r.mutex == m.mutex
  }

  // Outside a switch, with thread `u` about to trigger.
  predicate Outside(m: Machine, u: nat) {
    m.state == P.Clear && m.core == m.cur && !m.switching && m.firing == None && u < |m.threads|
        && m.threads[u] == TriggerCas(false)
  }

  predicate Seeking(m: Machine, u: nat, i: nat, j: nat) {
    && m.state == P.Start && m.core == m.cur != i && !m.switching && m.firing == None
    && j <= i && u < |m.threads| && m.threads[u] == Scan(j, false)
  }

  // The ring is chosen; `u` stands at `pc` of the trigger.
  predicate Chosen(m: Machine, u: nat, i: nat, pc: Pc) {
    && m.state == P.Start && m.core == m.cur != i && !m.switching && m.firing == None && u < |m.threads|
        && m.threads[u] == pc
    && (pc.SetTriggered? ==> m.next == Some(i) && m.restore == i)
  }

  // The hardware has been told, and then has switched; `u` stands at `pc` of the interrupt.
  predicate Told(m: Machine, u: nat, i: nat, pc: Pc) {
    && u < |m.threads| && m.threads[u] == pc && m.restore == i
    && m.state == (if pc == IrqRead || pc == IrqSwap then P.Pending else P.Triggered)
    && (if pc.Fire? then m.firing == Some(u) && !m.switching else m.firing == None)
    && (if pc == Idle then m.switching else pc.Fire? || (!m.switching && m.core == i))
    && m.next == Some(i)
  }

  predicate Landing(m: Machine, u: nat, i: nat, pc: Pc) {
    && u < |m.threads| && m.threads[u] == pc && m.cur == m.core == i && !m.switching && m.firing == None
        && i < |m.late| == |m.wp|
    && (pc.IrqClear? ==> !m.late[i] && m.wptr == m.wp[i])
  }

  predicate Arrived(m: Machine, u: nat, i: nat) {
    Outside(m, u) && i < |m.wp| == |m.late| && m.cur == i && !m.late[i] && m.wptr == m.wp[i]
  }

  lemma TakeStep(m: Machine, u: nat, i: nat) returns (r: Machine)
    requires FirstWork(m, i) && Outside(m, u) && m.cur != i
    ensures Leads(m, r) && Amid(m, r, u, i) && Seeking(r, u, i, 0)
  {
    var step := Then(m.(state := P.Start, owner := Some(u)), Scan(0, false));
    CasStep(m, u, step);
    r := Goto(step.shared, u, step.pc);
  }

  lemma SeekStep(m: Machine, u: nat, i: nat, j: nat) returns (r: Machine)
    requires FirstWork(m, i) && Seeking(m, u, i, j)
    ensures Leads(m, r) && Amid(m, r, u, i) && if j < i then Seeking(r, u, i, j + 1) else Chosen(r, u, i, Arm(i, false))
  {
    hide Programming, Answering, Finishing, Deciding, Closing, Repairing, Submitting;
    r := Goto(m, u, if j < i then Scan(j + 1, false) else Arm(i, false));
    StepLeads(m, u, Then(m, r.threads[u]));
  }

  lemma {:induction false} SeekStage(m: Machine, u: nat, i: nat, j: nat) returns (r: Machine)
    requires FirstWork(m, i) && Seeking(m, u, i, j)
    ensures Leads(m, r) && Amid(m, r, u, i) && Chosen(r, u, i, Arm(i, false))
    decreases i - j
  {
    r := SeekStep(m, u, i, j);
    if j < i {
      var end := SeekStage(r, u, i, j + 1);
      hide Leads, FirstWork, Chosen, Seeking;
      LeadsOn(m, r, end);
      r := end;
    }
  }

  lemma ChosenStep(m: Machine, u: nat, i: nat, pc: Pc) returns (r: Machine)
    requires FirstWork(m, i) && Chosen(m, u, i, pc)
    requires pc == Arm(i, false) || pc == Publish(i, false) || pc == SetTriggered(i, false)
    ensures Leads(m, r) && Amid(m, r, u, i)
    ensures if pc.Arm? then Chosen(r, u, i, Publish(i, false))
        else if pc.Publish? then Chosen(r, u, i, SetTriggered(i, false))
            else Told(r, u, i, Fire(false))
  {
    hide Choosing, Answering, Finishing, Deciding, Closing, Repairing, Submitting;
    var step := if pc.Arm? then Then(m.(saved := m.saved[i := m.wp[i]], late := m.late[i := false]), Publish(i, false))
                else if pc.Publish? then Then(m.(restore := i, next := Some(i)), SetTriggered(i, false))
                else Then(m.(state := P.Triggered, owner := None, firing := Some(u), inFlight := true,
                               triggers := m.triggers + 1), Fire(false));
    StepLeads(m, u, step);
    r := Goto(step.shared, u, step.pc);
  }

  lemma ToldStep(m: Machine, u: nat, i: nat) returns (r: Machine)
    requires FirstWork(m, i) && Told(m, u, i, Fire(false))
    ensures Leads(m, r) && Amid(m, r, u, i) && Told(r, u, i, Idle)
  {
    hide Choosing, Answering, Finishing, Deciding, Closing, Repairing, Submitting;
    var step := Then(m.(switching := true, firing := None), Idle);
    StepLeads(m, u, step);
    r := Goto(step.shared, u, step.pc);
  }

  lemma SwitchStep(m: Machine, u: nat, i: nat) returns (r: Machine)
    requires FirstWork(m, i) && Told(m, u, i, Idle)
    ensures Leads(m, r) && Amid(m, r, u, i) && Told(r, u, i, IrqCas)
  {
    var m1 := m.(switching := false, core := i, wptr := m.saved[i]);
    LeadsStep(m, PreemptionThreads.Switch, m1);
    CallLeads(m1, u, IrqCas);
    r := Goto(m1, u, IrqCas);
    LeadsOn(m, m1, r);
  }

  lemma AnswerStep(m: Machine, u: nat, i: nat, pc: Pc) returns (r: Machine)
    requires FirstWork(m, i) && Told(m, u, i, pc) && (pc == IrqCas || pc == IrqRead)
    ensures Leads(m, r) && Amid(m, r, u, i) && Told(r, u, i, if pc == IrqCas then IrqRead else IrqSwap)
  {
    hide Choosing, Programming, Finishing, Deciding, Closing, Repairing, Submitting;
    var step := if pc == IrqCas then Then(m.(state := P.Pending, owner := Some(u)), IrqRead) else Then(m, IrqSwap);
    StepLeads(m, u, step);
    r := Goto(step.shared, u, step.pc);
  }

  lemma LandStep(m: Machine, u: nat, i: nat, pc: Pc) returns (r: Machine)
    requires FirstWork(m, i) && if pc == IrqSwap then Told(m, u, i, pc) else pc == IrqUpdate && Landing(m, u, i, pc)
    ensures Leads(m, r) && Amid(m, r, u, i) && Landing(r, u, i, if pc == IrqSwap then IrqUpdate else IrqClear)
  {
    hide Choosing, Programming, Answering, Deciding, Closing, Repairing, Submitting;
    var step := if pc == IrqSwap then Then(Swap(m), IrqUpdate) else Then(Ring(m), IrqClear);
    StepLeads(m, u, step);
    r := Goto(step.shared, u, step.pc);
  }

  lemma EndStep(m: Machine, u: nat, i: nat) returns (r: Machine)
    requires FirstWork(m, i) && Landing(m, u, i, IrqClear)
    ensures Leads(m, r) && Amid(m, r, u, i) && Arrived(r, u, i)
  {
    hide Choosing, Programming, Answering, Deciding, Closing, Repairing, Submitting;
    var step := Then(m.(state := P.Clear, owner := None), TriggerCas(false));
    StepLeads(m, u, step);
    r := Goto(step.shared, u, step.pc);
  }

  lemma AmidOn(a: Machine, b: Machine, c: Machine, u: nat, i: nat)
    requires Amid(a, b, u, i) && Amid(b, c, u, i) && Leads(a, b) && Leads(b, c)
    ensures Amid(a, c, u, i) && Leads(a, c)
  {
    hide Leads, FirstWork, Wf;
    LeadsOn(a, b, c);
  }

  lemma AmidWork(m: Machine, r: Machine, u: nat, i: nat)
    requires Amid(m, r, u, i)
    ensures FirstWork(r, i)
  {
  }

  lemma ChooseStage(m: Machine, u: nat, i: nat) returns (r: Machine)
    requires FirstWork(m, i) && Outside(m, u) && m.cur != i
    ensures Leads(m, r) && Amid(m, r, u, i) && Told(r, u, i, Fire(false))
  {
    hide *;
    var m1 := TakeStep(m, u, i);
    AmidWork(m, m1, u, i);
    var m2 := SeekStage(m1, u, i, 0);
    AmidWork(m1, m2, u, i);
    var m3 := ChosenStep(m2, u, i, Arm(i, false));
    AmidWork(m2, m3, u, i);
    var m4 := ChosenStep(m3, u, i, Publish(i, false));
    AmidWork(m3, m4, u, i);
    r := ChosenStep(m4, u, i, SetTriggered(i, false));
    AmidOn(m, m1, m2, u, i);
    AmidOn(m, m2, m3, u, i);
    AmidOn(m, m3, m4, u, i);
    AmidOn(m, m4, r, u, i);
  }

  lemma LandStage(m: Machine, u: nat, i: nat) returns (r: Machine)
    requires FirstWork(m, i) && Told(m, u, i, Fire(false))
    ensures Leads(m, r) && Amid(m, r, u, i) && Arrived(r, u, i)
  {
    hide *;
    var m1 := ToldStep(m, u, i);
    AmidWork(m, m1, u, i);
    var m2 := SwitchStep(m1, u, i);
    AmidWork(m1, m2, u, i);
    var m3 := AnswerStep(m2, u, i, IrqCas);
    AmidWork(m2, m3, u, i);
    var m4 := AnswerStep(m3, u, i, IrqRead);
    AmidWork(m3, m4, u, i);
    var m5 := LandStep(m4, u, i, IrqSwap);
    AmidWork(m4, m5, u, i);
    var m6 := LandStep(m5, u, i, IrqUpdate);
    AmidWork(m5, m6, u, i);
    r := EndStep(m6, u, i);
    AmidOn(m, m1, m2, u, i);
    AmidOn(m, m2, m3, u, i);
    AmidOn(m, m3, m4, u, i);
    AmidOn(m, m4, m5, u, i);
    AmidOn(m, m5, m6, u, i);
    AmidOn(m, m6, r, u, i);
  }

  // A switch from start to end, while everybody else stands still.
  lemma SwitchStage(m: Machine, u: nat, i: nat) returns (r: Machine)
    requires FirstWork(m, i) && Outside(m, u) && m.cur != i
    ensures Leads(m, r) && Amid(m, r, u, i) && Arrived(r, u, i)
  {
    hide *;
    var m1 := ChooseStage(m, u, i);
    AmidWork(m, m1, u, i);
    r := LandStage(m1, u, i);
    AmidOn(m, m1, r, u, i);
  }

  // ------------------------------------------------------ a stale interrupt

  /**
    Every trigger has the window: an interrupt answered between its state write and its register write is about to
    decide.
   */
  lemma StaleInterrupt(m: Machine, f: nat, u: nat)
    requires Invariant(m) && f < |m.threads| && u < |m.threads| && !m.switching
    requires m.threads[f].SetTriggered? && m.threads[u].Idle?
    ensures exists r :: Leads(m, r) && Decides(r, u) && Unwritten(r)
  {
    assert Wf(m) && Fits(m, f, m.threads[f]);
    assert Carries(m.threads[f], |m.wp|, m.cur);
    var m1 := Announced(m, f);
    AnnounceStep(m, f);
    var r := Answered(Goto(m1, u, IrqCas), u);
    AnsweredStep(m1, u);
    LeadsOn(m, m1, r);
    assert r.threads[f].Fire? && Decides(r, u);
  }

  function Announced(m: Machine, f: nat): Machine
    requires f < |m.threads| && m.threads[f].SetTriggered?
  {
    Goto(m.(state := P.Triggered, owner := None, firing := Some(f), inFlight := true, triggers := m.triggers + 1), f,
        Fire(m.threads[f].locked))
  }

  function Answered(m: Machine, u: nat): Machine
    requires u < |m.threads|
  {
    Goto(m.(state := P.Pending, owner := Some(u)), u, IrqRead)
  }

  lemma AnnounceStep(m: Machine, f: nat)
    requires Wf(m) && f < |m.threads| && m.threads[f].SetTriggered? && Carries(m.threads[f], |m.wp|, m.cur)
    ensures Leads(m, Announced(m, f)) && Wf(Announced(m, f))
  {
    hide Choosing, Answering, Finishing, Deciding, Closing, Repairing, Submitting;
    var step := Then(m.(state := P.Triggered, owner := None, firing := Some(f), inFlight := true,
                         triggers := m.triggers + 1), Fire(m.threads[f].locked));
    StepLeads(m, f, step);
  }

  lemma AnsweredStep(m: Machine, u: nat)
    requires Wf(m) && u < |m.threads| && m.threads[u].Idle? && m.state == P.Triggered
    ensures Leads(m, Answered(Goto(m, u, IrqCas), u))
  {
    hide Choosing, Programming, Finishing, Deciding, Closing, Repairing, Submitting;
    var m1 := Goto(m, u, IrqCas);
    CallLeads(m, u, IrqCas);
    StepLeads(m1, u, Then(m1.(state := P.Pending, owner := Some(u)), IrqRead));
    LeadsOn(m, m1, Answered(m1, u));
  }

  // ---------------------------------------------------- a submission gone astray

  // The rest of the submission's section.
  ghost function Landed(m: Machine, s: nat): Machine
    requires Wf(m) && s < |m.threads| && m.threads[s].SubmitRing? && m.threads[s].k < |m.wp|
  {
    var k, d := m.threads[s].k, m.threads[s].dwords;
    var wptr := m.wp[k] + d;
    m.(wptr := wptr, wp := m.wp[k := wptr], late := m.late[k := false], section := Free,
       astray := m.astray || m.core != k,
       threads := m.threads[s := Unlock])
  }

  lemma LandedIs(m: Machine, s: nat)
    requires Wf(m) && s < |m.threads| && m.threads[s].SubmitRing? && m.threads[s].k < |m.wp|
    ensures Allowed(m, Run(s, true)) && Allowed(Next(m, Run(s, true)), Run(s, true))
    ensures Next(Next(m, Run(s, true)), Run(s, true)) == Landed(m, s)
  {
    hide *;
    PostIs(m, s);
    PostedShape(m, s);
    StoreIs(PostedBy(m, s), s, m.threads[s].k, m.threads[s].dwords);
  }

  lemma PostedShape(m: Machine, s: nat)
    requires Wf(m) && s < |m.threads| && m.threads[s].SubmitRing? && m.threads[s].k < |m.wp|
    ensures var r, k, d := PostedBy(m, s), m.threads[s].k, m.threads[s].dwords;
            && Wf(r) && s < |r.threads| && r.threads[s] == SubmitStore(k, d) && r.section.Posted?
            && k < |r.wp| == |r.late|
            && Landed(m, s)
               == Goto(r.(wp := r.wp[k := r.wp[k] + d], late := r.late[k := false], section := Free), s, Unlock)
  {
    assert PostedBy(m, s).threads[s := Unlock] == m.threads[s := Unlock];
  }

  ghost function PostedBy(m: Machine, s: nat): Machine
    requires Wf(m) && s < |m.threads| && m.threads[s].SubmitRing? && m.threads[s].k < |m.wp|
  {
    var k, d := m.threads[s].k, m.threads[s].dwords;
    var wptr := m.wp[k] + d;
    Goto(m.(wptr := wptr, section := Posted(k, wptr), astray := m.astray || m.core != k), s, SubmitStore(k, d))
  }

  lemma PostIs(m: Machine, s: nat)
    requires Wf(m) && s < |m.threads| && m.threads[s].SubmitRing? && m.threads[s].k < |m.wp|
    ensures Allowed(m, Run(s, true)) && Next(m, Run(s, true)) == PostedBy(m, s)
  {
    hide Choosing, Programming, Answering, Finishing, Deciding, Closing, Repairing;
  }

  lemma StoreIs(m: Machine, s: nat, k: nat, d: nat)
    requires Wf(m) && s < |m.threads| && m.threads[s] == SubmitStore(k, d) && k < |m.wp| && m.section.Posted?
    ensures Allowed(m, Run(s, true))
    ensures Next(m, Run(s, true))
         == Goto(m.(wp := m.wp[k := m.wp[k] + d], late := m.late[k := false], section := Free), s, Unlock)
  {
    hide Choosing, Programming, Answering, Finishing, Deciding, Closing, Repairing;
  }

  /**
    Exactly when a submission that found the state NONE and its ring current spoils the doorbell: over every run without
    an early decision and nothing astray, its two last steps in state NONE do if and only if another ring runs by then,
    everything submitted to that ring had been rung, and the two rings' pointers differ.
   */
  lemma StrayExactly(rings: nat, threads: nat, moves: seq<Move>, s: nat)
    requires rings > 0 && AllowedRun(Idling(rings, threads), moves) && Clean(Idling(rings, threads), moves)
    requires var m := After(Idling(rings, threads), moves);
             s < |m.threads| && m.threads[s].SubmitRing? && m.state == P.Clear
    ensures var m := After(Idling(rings, threads), moves);
            var k, d := m.threads[s].k, m.threads[s].dwords;
            && Wf(m) && k < |m.wp| && Allowed(m, Run(s, true)) && Allowed(Next(m, Run(s, true)), Run(s, true))
            && (Spoiled(Next(Next(m, Run(s, true)), Run(s, true))) <==>
                  m.core != k && !m.late[m.core] && m.wp[m.core] != m.wp[k] + d)
  {
    var m := After(Idling(rings, threads), moves);
    hide AllowedRun, After, Clean;
    IdlingInvariant(rings, threads);
    RunKeepsInvariant(Idling(rings, threads), moves);
    UpsetRun(Idling(rings, threads), moves);
    StrayExact(m, s);
  }

  lemma StrayExact(m: Machine, s: nat)
    requires Invariant(m) && !Upset(m) && s < |m.threads| && m.threads[s].SubmitRing? && m.state == P.Clear
    ensures var k, d := m.threads[s].k, m.threads[s].dwords;
            && Wf(m) && k < |m.wp| && Allowed(m, Run(s, true)) && Allowed(Next(m, Run(s, true)), Run(s, true))
            && (Spoiled(Next(Next(m, Run(s, true)), Run(s, true))) <==>
                  m.core != k && !m.late[m.core] && m.wp[m.core] != m.wp[k] + d)
  {
    assert Fits(m, s, m.threads[s]);
    assert Wf(m) && m.core == m.cur && !m.switching;
    hide Fits, Next, Allowed, Invariant;
    LandedIs(m, s);
  }

  /**
    Every such submission has the window: if a ring of higher priority is the first with work, an idle thread's trigger,
    the switch and the hand-off leave it about to go astray, whatever ring it is for.
   */
  lemma OvertakenSubmission(m: Machine, s: nat, u: nat, i: nat)
    requires Invariant(m) && s < |m.threads| && m.threads[s].SubmitRing? && m.threads[s].k == m.cur
    requires Outside(m, u) && i < m.cur < |m.wp| == |m.rptr| && m.rptr[i] != m.wp[i]
    requires forall j | 0 <= j < i :: m.rptr[j] == m.wp[j]
    ensures exists r ::
      Leads(m, r) && Arrived(r, u, i) && Straying(r) && s < |r.threads| && r.threads[s] == m.threads[s]
  {
    assert Fits(m, s, m.threads[s]);
    assert FirstWork(m, i);
    hide *;
    var r := SwitchStage(m, u, i);
    StillThere(m, r, s, u, i);
  }

  lemma StillThere(m: Machine, r: Machine, s: nat, u: nat, i: nat)
    requires s < |m.threads| && m.threads[s].SubmitRing? && m.threads[s].k == m.cur != i && Outside(m, u)
    requires Amid(m, r, u, i) && Arrived(r, u, i)
    ensures Straying(r) && s < |r.threads| && r.threads[s] == m.threads[s]
  {
    assert s != u;
    assert r.threads[s].SubmitRing? && r.threads[s].k != r.core;
  }

  // -------------------------------------------------------- from the start

  lemma LeadsClean(m: Machine, r: Machine)
    requires Leads(m, r) && !Upset(m)
    ensures !Upset(r)
  {
    var moves :| AllowedRun(m, moves) && Clean(m, moves) && After(m, moves) == r;
    UpsetRun(m, moves);
  }

  // Ring 1 has work, and thread 1 is about to trigger.
  function Opening(rings: nat, threads: nat): Machine
    requires rings > 1 && threads > 1
  {
    Goto(Submitted(Idling(rings, threads), 1, 1), 1, TriggerCas(false))
  }

  lemma OpeningStage(rings: nat, threads: nat)
    requires rings > 1 && threads > 1
    ensures var m := Opening(rings, threads);
            && Leads(Idling(rings, threads), m) && FirstWork(m, 1) && Outside(m, 1) && m.cur == 0
            && |m.wp| == |m.rptr| == rings && m.wp[0] == m.rptr[0] == 0 && m.wp[1] == 1
            && m.mutex == None && m.section == Free && |m.threads| == threads
            && forall v | 0 <= v < threads && v != 1 :: m.threads[v] == Idle
  {
    var start := Idling(rings, threads);
    SubmissionStage(start, 0, 1, 1);
    CallLeads(Submitted(start, 1, 1), 1, TriggerCas(false));
    LeadsOn(start, Submitted(start, 1, 1), Opening(rings, threads));
  }

  // A state after a clean run from the start in which a thread is about to decide, and can spoil the doorbell.
  ghost predicate DecidesWrongly(start: Machine, m: Machine, t: nat) {
    Leads(start, m) && Decides(m, t) && Allowed(m, Run(t, true)) && Spoilable(Next(m, Run(t, true)))
  }

  /** From the start, with any two rings and two threads, a stale interrupt comes to decide early. */
  lemma EarlyHandOffMisses(rings: nat, threads: nat)
    requires rings > 1 && threads > 1
    ensures exists m, t :: DecidesWrongly(Idling(rings, threads), m, t)
  {
    hide *;
    var start, m := Idling(rings, threads), Opening(rings, threads);
    OpeningStage(rings, threads);
    var told := ChooseStage(m, 1, 1);
    LeadsOn(start, m, told);
    var r := StaleDecision(m, told);
    LeadsOn(start, told, r);
    IdlingInvariant(rings, threads);
    LeadsInvariant(start, r);
    IdlingClean(rings, threads);
    LeadsClean(start, r);
    DecisionExact(r, 0);
    assert DecidesWrongly(start, r, 0) by { DecidesWronglyIs(start, r, 0); }
  }

  lemma IdlingClean(rings: nat, threads: nat)
    requires rings > 0
    ensures !Upset(Idling(rings, threads))
  {
  }

  lemma DecidesWronglyIs(start: Machine, m: Machine, t: nat)
    requires Leads(start, m) && Decides(m, t) && Allowed(m, Run(t, true)) && Spoilable(Next(m, Run(t, true)))
    ensures DecidesWrongly(start, m, t)
  {
    hide Leads, Decides, Allowed, Spoilable, Next;
  }

  lemma StaleDecision(m: Machine, told: Machine) returns (r: Machine)
    requires Amid(m, told, 1, 1) && Told(told, 1, 1, Fire(false)) && |m.threads| > 1
    requires forall v | 0 <= v < |m.threads| && v != 1 :: m.threads[v] == Idle
    ensures Leads(told, r) && Decides(r, 0) && Unwritten(r) && !Straying(r)
  {
    assert told.threads[0] == m.threads[0];
    AnsweredStep(told, 0);
    r := Answered(Goto(told, 0, IrqCas), 0);
    assert r.threads[1].Fire?;
    forall v | 0 <= v < |r.threads| ensures !r.threads[v].SubmitRing? {
      assert v != 0 && v != 1 ==> r.threads[v] == told.threads[v] == m.threads[v];
    }
  }

  // After a clean run from the start: the rest of a submission's section spoils the doorbell.
  ghost predicate StraysWrongly(start: Machine, m: Machine, s: nat) {
    && Leads(start, m) && s < |m.threads| && m.threads[s].SubmitRing? && m.state == P.Clear
    && Allowed(m, Run(s, true)) && Allowed(Next(m, Run(s, true)), Run(s, true))
    && Spoiled(Next(Next(m, Run(s, true)), Run(s, true)))
  }

  // Ring 1 runs, and ring 0 has nothing, or one dword, to do; both threads are free to submit and to trigger.
  predicate Prepared(m: Machine, first: nat) {
    && Wf(m) && Outside(m, 1) && m.cur == 1 && |m.threads| > 1 && m.threads[0] == Idle && m.mutex == None
    && m.section == Free && |m.wp| == |m.rptr| > 1 && m.rptr[0] == 0 && m.wp[0] == first && m.wp[1] == 1
  }

  lemma FirstRingStage(m: Machine) returns (r: Machine)
    requires Prepared(m, 0)
    ensures Leads(m, r) && Prepared(r, 1)
  {
    SubmissionStage(m, 0, 0, 1);
    r := Submitted(m, 0, 1);
  }

  // Thread 0 submits to ring 1 as far as finding the state NONE and ring 1 current.
  lemma SecondRingStage(m: Machine) returns (r: Machine)
    requires Prepared(m, 1)
    ensures Leads(m, r) && FirstWork(r, 0) && Outside(r, 1) && r.cur == 1
    ensures |r.threads| > 1 && r.threads[0] == SubmitRing(1, 1) && |r.wp| > 1 && r.wp[0] == 1 && r.wp[1] == 1
  {
    CallLeads(m, 0, SubmitLock(1, 1));
    var m1, m2 := Inside(m, 0, None, Free, SubmitLock(1, 1)), Inside(m, 0, Some(0), Free, SubmitState(1, 1));
    var m3 := Inside(m, 0, Some(0), Passed(1), SubmitCur(1, 1));
    r := Inside(m, 0, Some(0), Passed(1), SubmitRing(1, 1));
    assert Goto(m, 0, SubmitLock(1, 1)) == m1;
    assert FirstWork(r, 0) && Outside(r, 1) && r.wp == m.wp;
    assert Wf(m) && m.state == P.Clear && m.cur == 1 && m.mutex == None && m.section == Free;
    assert |m.wp| > 1 && m.wp[0] == 1 && m.wp[1] == 1 && |m.threads| > 1;
    hide *;
    EnterStep(m, 0, 1, 1);
    PassStep(m, 0, 1, 1);
    CurStep(m, 0, 1, 1);
    LeadsOn(m, m1, m2);
    LeadsOn(m, m2, m3);
    LeadsOn(m, m3, r);
  }

  /** From the start, with any two rings and two threads, a submission goes astray without an early decision. */
  lemma SubmissionStrays(rings: nat, threads: nat)
    requires rings > 1 && threads > 1
    ensures exists m, s :: StraysWrongly(Idling(rings, threads), m, s)
  {
    hide *;
    var start, m := Idling(rings, threads), Opening(rings, threads);
    OpeningStage(rings, threads);
    var m1 := SwitchStage(m, 1, 1);
    LeadsOn(start, m, m1);
    FirstSwitch(m, m1);
    var both := FirstRingStage(m1);
    LeadsOn(start, m1, both);
    var m2 := SecondRingStage(both);
    LeadsOn(start, both, m2);
    var r := SwitchStage(m2, 1, 0);
    LeadsOn(start, m2, r);
    IdlingInvariant(rings, threads);
    LeadsInvariant(start, r);
    IdlingClean(rings, threads);
    LeadsClean(start, r);
    SecondSwitch(start, m2, r);
  }

  lemma FirstSwitch(m: Machine, r: Machine)
    requires Amid(m, r, 1, 1) && Arrived(r, 1, 1) && |m.threads| > 1 && m.threads[0] == Idle && m.mutex == None
        && m.section == Free
    requires |m.wp| == |m.rptr| > 1 && m.rptr[0] == m.wp[0] == 0 && m.wp[1] == 1
    ensures Prepared(r, 0)
  {
  }

  lemma SecondSwitch(start: Machine, m: Machine, r: Machine)
    requires Amid(m, r, 1, 0) && Arrived(r, 1, 0) && Leads(start, r) && Invariant(r) && !Upset(r)
    requires |m.threads| > 1 && m.threads[0] == SubmitRing(1, 1) && |m.wp| > 1 && m.wp[0] == 1 && m.wp[1] == 1
    ensures StraysWrongly(start, r, 0)
  {
    assert r.threads[0] == SubmitRing(1, 1) && r.state == P.Clear && r.core == 0 && !r.late[0] && r.wp[0] == 1
        && r.wp[1] == 1;
    hide Leads, Invariant, Next, Allowed, Spoiled, Amid, Arrived, Outside;
    StrayExact(r, 0);
  }
}
