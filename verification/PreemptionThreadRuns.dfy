/**
  Every run of any number of threads through the preemption handlers: who owns the
  state, what a hand-off hands over to, and which submissions the hardware knows of.
 */
module PreemptionThreadRuns {
  import opened Words
  import opened PreemptionThreads
  import P = Preemption

  function Idling(rings: nat, threads: nat): Machine
    requires rings > 0
  {
    Machine(P.Clear, 0, None, None, seq(rings, i => 0), seq(rings, i => 0), seq(rings, i => 0), 0, false, 0, 0,
            None, Free, seq(threads, i => Idle), None, None, None, false, 0, 0, seq(rings, i => false), false, false)
  }

  ghost predicate Invariant(m: Machine) {
    Owned(m) && Flown(m) && Wired(m)
  }

  lemma IdlingInvariant(rings: nat, threads: nat)
    requires rings > 0
    ensures Invariant(Idling(rings, threads))
  {
  }

  lemma InvariantNext(m: Machine, move: Move)
    requires Invariant(m) && Allowed(m, move)
    ensures Invariant(Next(m, move))
  {
    hide Owned, Flown, Wired, Next, Allowed;
    OwnedKept(m, move);
    FlownKept(m, move);
    WiredKept(m, move);
  }

  ghost predicate AllowedRun(m: Machine, moves: seq<Move>)
    decreases |moves|
  {
    |moves| != 0 ==> Allowed(m, moves[0]) && AllowedRun(Next(m, moves[0]), moves[1..])
  }

  ghost function After(m: Machine, moves: seq<Move>): Machine
    requires AllowedRun(m, moves)
    decreases |moves|
  {
    if |moves| == 0 then m else After(Next(m, moves[0]), moves[1..])
  }

  lemma {:induction false} RunKeepsInvariant(m: Machine, moves: seq<Move>)
    requires Invariant(m) && AllowedRun(m, moves)
    ensures Invariant(After(m, moves))
    decreases |moves|
  {
    hide Invariant, Next, Allowed;
    if |moves| != 0 {
      InvariantNext(m, moves[0]);
      RunKeepsInvariant(Next(m, moves[0]), moves[1..]);
    }
  }

  /** Whoever is inside START, a hand-off or the fault handling is alone there, and the state says where. */
  lemma SingleOwner(rings: nat, threads: nat, moves: seq<Move>, t: nat, u: nat)
    requires rings > 0 && AllowedRun(Idling(rings, threads), moves)
    requires var m := After(Idling(rings, threads), moves); t < |m.threads| && u < |m.threads|
    ensures var m := After(Idling(rings, threads), moves);
            var mine, yours := RoleOf(m.threads[t]), RoleOf(m.threads[u]);
            && (mine != NoRole ==> StateOf(mine) == Some(m.state))
            && (mine != NoRole && yours != NoRole ==> t == u)
            && (HoldsMutex(m.threads[t]) && HoldsMutex(m.threads[u]) ==> t == u)
  {
    hide AllowedRun, After, Next;
    IdlingInvariant(rings, threads);
    RunKeepsInvariant(Idling(rings, threads), moves);
    var m := After(Idling(rings, threads), moves);
    assert Fits(m, t, m.threads[t]) && Fits(m, u, m.threads[u]);
  }

  /** START and PENDING are never left without the thread that will end them. */
  lemma OwnerExists(rings: nat, threads: nat, moves: seq<Move>)
    requires rings > 0 && AllowedRun(Idling(rings, threads), moves)
    ensures var m := After(Idling(rings, threads), moves);
            m.state == P.Start || m.state == P.Pending ==>
              m.owner.Some? && m.owner.value < |m.threads| && StateOf(RoleOf(m.threads[m.owner.value])) == Some(m.state)
  {
    hide AllowedRun, After, Next;
    IdlingInvariant(rings, threads);
    RunKeepsInvariant(Idling(rings, threads), moves);
    var m := After(Idling(rings, threads), moves);
    if m.owner.Some? {
      assert Fits(m, m.owner.value, m.threads[m.owner.value]);
    }
  }

  // The thread is between reading that the switch is over and handing over, or between finding out and reading.
  predicate BeforeHandOff(pc: Pc) {
    pc.IrqRead? || pc.IrqComplete? || pc.IrqSwap? || pc.DoneRead? || pc.DoneSwap? || pc.WorkerRead?
        || pc.WorkerComplete?
  }

  /** A hand-off never lacks its ring, and every trigger is handed off at most once. */
  lemma ValidHandOff(rings: nat, threads: nat, moves: seq<Move>, t: nat)
    requires rings > 0 && AllowedRun(Idling(rings, threads), moves)
    ensures var m := After(Idling(rings, threads), moves);
            && (m.state == P.Triggered || m.state == P.Faulted || (t < |m.threads| && BeforeHandOff(m.threads[t])) ==>
                  m.next.Some? && m.next.value < |m.wp| && m.next.value != m.cur && m.triggers == m.handOffs + 1)
            && m.handOffs <= m.triggers <= m.handOffs + 1
            && (m.state == P.Clear || m.state == P.Start ==> m.triggers == m.handOffs)
  {
    hide AllowedRun, After, Next;
    IdlingInvariant(rings, threads);
    RunKeepsInvariant(Idling(rings, threads), moves);
    var m := After(Idling(rings, threads), moves);
    if t < |m.threads| {
      assert Fits(m, t, m.threads[t]) && FliesAt(m, t, m.threads[t]);
    }
  }

  /**
    As long as no hand-off comes early and no submission goes astray: outside a switch the running ring is the
    current one, and the doorbell register holds its write pointer, or the pointer of the submission to it that is
    under way, or a submission slipped in since it was last rung.
   */
  lemma Doorbell(rings: nat, threads: nat, moves: seq<Move>)
    requires rings > 0 && AllowedRun(Idling(rings, threads), moves)
    ensures var m := After(Idling(rings, threads), moves);
            m.state == P.Clear && !m.early && !m.astray ==>
              && Wf(m) && m.core == m.cur && !m.switching
              && (m.wptr == m.wp[m.cur] || m.late[m.cur] || m.section == Posted(m.cur, m.wptr))
  {
    hide AllowedRun, After, Next;
    IdlingInvariant(rings, threads);
    RunKeepsInvariant(Idling(rings, threads), moves);
  }

  // ------------------------------------------------- what a trigger delivers

  // No submission to ring `k` takes the ring's spinlock.
  ghost predicate Quiet(m: Machine, moves: seq<Move>, k: nat)
    requires AllowedRun(m, moves)
    decreases |moves|
  {
    |moves| != 0 ==> !Enters(m, moves[0], k) && Quiet(Next(m, moves[0]), moves[1..], k)
  }

  predicate Enters(m: Machine, move: Move, k: nat) {
    move.Run? && move.t < |m.threads| && m.threads[move.t].SubmitState? && m.threads[move.t].k == k
  }

  // Everything submitted to ring `k` was rung or stored, and nothing is on its way.
  ghost predicate Settled(m: Machine, k: nat) {
    k < |m.wp| == |m.late| && !m.late[k] && !m.section.Locks(k)
  }

  lemma ChoosingSettles(m: Machine, t: nat, pc: Pc, k: nat)
    requires Wf(m) && Carries(pc, |m.wp|, m.cur) && Settled(m, k)
    ensures Settled(Choosing(m, t, pc).shared, k)
  {
  }

  lemma ProgrammingSettles(m: Machine, t: nat, pc: Pc, k: nat)
    requires Wf(m) && Carries(pc, |m.wp|, m.cur) && Settled(m, k)
    ensures Settled(Programming(m, t, pc).shared, k)
  {
  }

  lemma AnsweringSettles(m: Machine, t: nat, pc: Pc, k: nat)
    requires Wf(m) && Settled(m, k)
    ensures Settled(Answering(m, t, pc).shared, k)
  {
  }

  lemma FinishingSettles(m: Machine, t: nat, pc: Pc, k: nat)
    requires Wf(m) && Settled(m, k)
    ensures Settled(Finishing(m, t, pc).shared, k)
  {
  }

  lemma DecidingSettles(m: Machine, t: nat, pc: Pc, awake: bool, k: nat)
    requires Wf(m) && Settled(m, k)
    ensures Settled(Deciding(m, t, pc, awake).shared, k)
  {
  }

  lemma ClosingSettles(m: Machine, t: nat, pc: Pc, k: nat)
    requires Wf(m) && Settled(m, k)
    ensures Settled(Closing(m, t, pc).shared, k)
  {
  }

  lemma RepairingSettles(m: Machine, t: nat, pc: Pc, awake: bool, k: nat)
    requires Wf(m) && Settled(m, k)
    ensures Settled(Repairing(m, t, pc, awake).shared, k)
  {
  }

  lemma SubmittingSettles(m: Machine, t: nat, pc: Pc, k: nat)
    requires Wf(m) && Carries(pc, |m.wp|, m.cur) && Fits(m, t, pc) && Settled(m, k)
    requires PhaseOf(pc) == Submits && (pc.SubmitState? ==> pc.k != k)
    ensures Settled(Submitting(m, t, pc).shared, k)
  {
    SectionElsewhere(m, t, pc, k);
    hide Fits, Settled, Submitting;
    match pc
    case SubmitLock(_, _) => LockSettles(m, t, pc, k);
    case SubmitStore(_, _) => StoreSettles(m, t, pc, k);
    case SubmitState(_, _) => StateSettles(m, t, pc, k);
    case SubmitCur(_, _) => CurSettles(m, t, pc, k);
    case SubmitRing(_, _) => PostSettles(m, t, pc, k);
  }

  lemma LockSettles(m: Machine, t: nat, pc: Pc, k: nat)
    requires Wf(m) && Carries(pc, |m.wp|, m.cur) && Settled(m, k) && pc.SubmitLock?
    ensures Settled(Submitting(m, t, pc).shared, k)
  {
  }

  lemma StateSettles(m: Machine, t: nat, pc: Pc, k: nat)
    requires Wf(m) && Carries(pc, |m.wp|, m.cur) && Settled(m, k) && pc.SubmitState? && pc.k != k
    ensures Settled(Submitting(m, t, pc).shared, k)
  {
    hide Settled;
    SectionSettles(m, Passed(pc.k), k);
    SectionSettles(m, Held(pc.k), k);
  }

  lemma SectionSettles(m: Machine, section: Section, k: nat)
    requires Settled(m, k) && !section.Locks(k)
    ensures Settled(m.(section := section), k)
  {
  }

  lemma CurSettles(m: Machine, t: nat, pc: Pc, k: nat)
    requires Wf(m) && Carries(pc, |m.wp|, m.cur) && Settled(m, k) && pc.SubmitCur? && pc.k != k
    ensures Settled(Submitting(m, t, pc).shared, k)
  {
  }

  lemma PostSettles(m: Machine, t: nat, pc: Pc, k: nat)
    requires Wf(m) && Carries(pc, |m.wp|, m.cur) && Settled(m, k) && pc.SubmitRing? && pc.k != k
    ensures Settled(Submitting(m, t, pc).shared, k)
  {
  }

  lemma StoreSettles(m: Machine, t: nat, pc: Pc, k: nat)
    requires Wf(m) && Carries(pc, |m.wp|, m.cur) && Settled(m, k) && pc.SubmitStore? && pc.k != k
    ensures Settled(Submitting(m, t, pc).shared, k)
  {
  }

  // A submission inside its section is not to a settled ring.
  lemma SectionElsewhere(m: Machine, t: nat, pc: Pc, k: nat)
    requires Fits(m, t, pc) && Settled(m, k)
    ensures pc.SubmitCur? || pc.SubmitRing? || pc.SubmitStore? ==> pc.k != k
  {
    hide Carries;
  }

  lemma StepSettles(m: Machine, t: nat, awake: bool, k: nat)
    requires Invariant(m) && Allowed(m, Run(t, awake)) && Settled(m, k) && !Enters(m, Run(t, awake), k)
    ensures Settled(StepOf(m, t, awake).shared, k)
  {
    var pc := m.threads[t];
    assert Fits(m, t, pc);
    hide Settled, Wf, Carries, Fits, Invariant;
    hide Choosing, Programming, Answering, Finishing, Deciding, Closing, Repairing, Submitting;
    match PhaseOf(pc)
    case Chooses => ChoosingSettles(m, t, pc, k);
    case Programs => ProgrammingSettles(m, t, pc, k);
    case Answers => AnsweringSettles(m, t, pc, k);
    case Finishes => FinishingSettles(m, t, pc, k);
    case Decides => DecidingSettles(m, t, pc, awake, k);
    case Closes => ClosingSettles(m, t, pc, k);
    case Repairs => RepairingSettles(m, t, pc, awake, k);
    case Submits => SubmittingSettles(m, t, pc, k);
  }

  lemma SettledNext(m: Machine, move: Move, k: nat)
    requires Invariant(m) && Allowed(m, move) && Settled(m, k) && !Enters(m, move, k)
    ensures Settled(Next(m, move), k)
  {
    hide StepOf, Carries, Invariant, Enters;
    if move.Run? {
      StepSettles(m, move.t, move.awake, k);
    }
  }

  lemma {:induction false} SettledRun(m: Machine, moves: seq<Move>, k: nat)
    requires Invariant(m) && AllowedRun(m, moves) && Settled(m, k) && Quiet(m, moves, k)
    ensures Settled(After(m, moves), k)
    decreases |moves|
  {
    hide Next, Allowed, Invariant, Settled, Enters;
    if |moves| != 0 {
      SettledNext(m, moves[0], k);
      InvariantNext(m, moves[0]);
      SettledRun(Next(m, moves[0]), moves[1..], k);
    }
  }

  // The ring whose write pointer a thread is about to ring or to store, unless a submission has its spinlock.
  function Served(m: Machine, pc: Pc): Option<nat> {
    var k := if pc.Arm? then pc.n else m.cur;
    if (pc.Same? || pc.Arm? || pc.IrqUpdate? || pc.DoneUpdate?) && !m.section.Locks(k) then Some(k) else None
  }

  lemma ServedStep(m: Machine, t: nat, awake: bool, k: nat)
    requires Allowed(m, Run(t, awake)) && Served(m, m.threads[t]) == Some(k) && k < |m.wp|
    ensures Settled(Next(m, Run(t, awake)), k)
  {
    var pc := m.threads[t];
    assert pc.Same? || pc.Arm? || pc.IrqUpdate? || pc.DoneUpdate?;
    hide Choosing, Programming, Finishing, Closing, Settled, Wf, Carries, Served;
    ServedShared(m, t, pc, k);
    GotoSettles(StepOf(m, t, awake).shared, t, StepOf(m, t, awake).pc, k);
  }

  lemma GotoSettles(m: Machine, t: nat, pc: Pc, k: nat)
    requires t < |m.threads| && Settled(m, k)
    ensures Settled(Goto(m, t, pc), k)
  {
  }

  lemma ServedShared(m: Machine, t: nat, pc: Pc, k: nat)
    requires Wf(m) && Carries(pc, |m.wp|, m.cur) && Served(m, pc) == Some(k)
    ensures pc.Same? ==> Settled(Choosing(m, t, pc).shared, k)
    ensures pc.Arm? ==> Settled(Programming(m, t, pc).shared, k)
    ensures pc.IrqUpdate? ==> Settled(Finishing(m, t, pc).shared, k)
    ensures pc.DoneUpdate? ==> Settled(Closing(m, t, pc).shared, k)
  {
  }

  /**
    A trigger or hand-off delivers: once it has rung or stored a ring's write pointer, and until a submission to that
    ring takes its spinlock, the ring's record holds the pointer while a switch to it is in flight and the doorbell
    register holds it whenever the ring is current outside a switch.
   */
  lemma TriggerDelivers(rings: nat, threads: nat, before: seq<Move>, t: nat, awake: bool, k: nat, after: seq<Move>)
    requires rings > 0 && AllowedRun(Idling(rings, threads), before)
    requires var m := After(Idling(rings, threads), before);
             && Allowed(m, Run(t, awake)) && Served(m, m.threads[t]) == Some(k) && k < |m.wp|
             && AllowedRun(Next(m, Run(t, awake)), after) && Quiet(Next(m, Run(t, awake)), after, k)
    ensures var r := After(Next(After(Idling(rings, threads), before), Run(t, awake)), after);
            !r.early && !r.astray ==>
              && Wf(r) && k < |r.wp|
              && (r.inFlight && r.next == Some(k) ==> r.saved[k] == r.wp[k])
              && (!r.inFlight && r.cur == k ==> r.wptr == r.wp[k])
  {
    hide AllowedRun, After, Next, Allowed, Quiet;
    var m := After(Idling(rings, threads), before);
    IdlingInvariant(rings, threads);
    RunKeepsInvariant(Idling(rings, threads), before);
    InvariantNext(m, Run(t, awake));
    RunKeepsInvariant(Next(m, Run(t, awake)), after);
    ServedStep(m, t, awake, k);
    SettledRun(Next(m, Run(t, awake)), after, k);
  }

  // ------------------------------------------------- what upsets the doorbell

  // A hand-off is decided before its trigger has reached the hardware, or a submission goes astray.
  ghost predicate Upsets(m: Machine, move: Move) {
    move.Run? && move.t < |m.threads| && (TooSoon(m, m.threads[move.t], move.awake) || Strays(m, m.threads[move.t]))
  }

  ghost predicate Clean(m: Machine, moves: seq<Move>)
    requires AllowedRun(m, moves)
    decreases |moves|
  {
    |moves| != 0 ==> !Upsets(m, moves[0]) && Clean(Next(m, moves[0]), moves[1..])
  }

  lemma UpsetNext(m: Machine, move: Move)
    requires Allowed(m, move)
    ensures Upset(Next(m, move)) <==> Upset(m) || Upsets(m, move)
  {
    hide StepOf, Carries, Wf, TooSoon, Strays;
    if move.Run? {
      StepHistory(m, move.t, move.awake);
    }
  }

  /** The proviso of `Doorbell` is exactly that no move decided early or went astray. */
  lemma {:induction false} UpsetRun(m: Machine, moves: seq<Move>)
    requires AllowedRun(m, moves)
    ensures Upset(After(m, moves)) <==> Upset(m) || !Clean(m, moves)
    decreases |moves|
  {
    hide Next, Allowed, Upsets, Upset;
    if |moves| != 0 {
      UpsetNext(m, moves[0]);
      UpsetRun(Next(m, moves[0]), moves[1..]);
    }
  }

  // Outside a switch, with all submissions rung and none under way, and yet the doorbell register is not the running
  // ring's write pointer.
  predicate Spoiled(m: Machine) {
    && Wf(m) && m.state == P.Clear && m.section == Free && !m.switching && m.core == m.cur
    && !m.late[m.cur] && m.wptr != m.wp[m.cur]
  }

  ghost predicate Leads(m: Machine, r: Machine) {
    exists moves: seq<Move> :: AllowedRun(m, moves) && Clean(m, moves) && After(m, moves) == r
  }

  ghost predicate Spoilable(m: Machine) {
    exists r :: Leads(m, r) && Spoiled(r)
  }
}
