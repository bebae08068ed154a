/**
  The A5xx preemption protocol step by step: any number of threads run the driver's
  handlers side by side. Spinlock sections, state exchanges, state writes and register
  accesses are single steps; everything else interleaves.
 */
module PreemptionThreads {
  import opened Words
  import P = Preemption

  type State = P.State

  /** Where a thread stands. `locked` says that the device mutex is given back after the trigger. */
  datatype Pc =
    | Idle
    // a5xx_preemption_trigger()
    | TriggerCas(locked: bool)
    | Scan(i: nat, locked: bool)
    | Same(locked: bool)
    | Leave(locked: bool)
    | Arm(n: nat, locked: bool)
    | Publish(n: nat, locked: bool)
    | SetTriggered(n: nat, locked: bool)
    | Fire(locked: bool)
    // a5xx_preempt_callback()
    | IrqCas
    | IrqRead
    | IrqComplete
    | IrqSwap
    | IrqUpdate
    | IrqClear
    // a5xx_preemption_schedule() and _a5xx_preemption_done()
    | ScheduleLock
    | ScheduleCheck
    | DoneRead
    | DoneSwap
    | DoneUpdate
    | DoneClear
    // _a5xx_preemption_worker() and _a5xx_preemption_fault()
    | WorkerLock
    | WorkerCheck
    | WorkerRead
    | WorkerComplete
    | Unlock
    // a5xx_ringbuffer_submit(), under the device mutex and then the ring's spinlock
    | SubmitLock(k: nat, dwords: nat)
    | SubmitState(k: nat, dwords: nat)
    | SubmitCur(k: nat, dwords: nat)
    | SubmitRing(k: nat, dwords: nat)
    | SubmitStore(k: nat, dwords: nat)

  /**
    How far the one submission that may be under way is: it holds its ring's spinlock, and has found the state
    NONE (`Passed`), written the doorbell register (`Posted`) or neither.
   */
  datatype Section = Free | Held(k: nat) | Passed(k: nat) | Posted(k: nat, value: nat) {
    predicate Locks(i: nat) { !Free? && k == i }
    predicate Open(i: nat) { Locks(i) && !Held? }
  }

  /**
    The shared state. `wp`, `rptr` and `saved` belong to the rings; `core` is the ring the
    command processor runs. The last three lines are history: the thread that won the last
    exchange, the one that is closing a hand-off under the mutex and the one that is about to
    start the switch; whether a trigger awaits its hand-off; how many triggers and hand-offs
    there were; which rings have a submission that was neither rung nor stored in their record;
    whether a hand-off was decided before its trigger had reached the hardware; and whether a
    submission went astray, writing the doorbell register while another ring was running.
   */
  datatype Machine = Machine(
    state: State, cur: nat, next: Option<nat>, prev: Option<nat>,
    wp: seq<nat>, rptr: seq<nat>, saved: seq<nat>,
    wptr: nat, switching: bool, restore: nat, core: nat,
    mutex: Option<nat>, section: Section, threads: seq<Pc>,
    owner: Option<nat>, closing: Option<nat>, firing: Option<nat>,
    inFlight: bool, triggers: nat, handOffs: nat, late: seq<bool>, early: bool, astray: bool)

  datatype Move =
    | Call(t: nat, entry: Pc)
    | Run(t: nat, awake: bool)
    | Timer
    | Switch
    | Report(ring: nat, position: nat)

  // ---------------------------------------------------------------- shapes

  predicate Wf(m: Machine) {
    && |m.wp| == |m.rptr| == |m.saved| == |m.late| && m.cur < |m.wp| && m.core < |m.wp| && m.restore < |m.wp|
    && (m.next.Some? ==> m.next.value < |m.wp|)
    && (m.owner.Some? ==> m.owner.value < |m.threads|) && (m.mutex.Some? ==> m.mutex.value < |m.threads|)
    && (!m.section.Free? ==> m.section.k < |m.wp|)
  }

  // The ring indices a thread carries are good, and a ring it has chosen is not the current one.
  predicate Carries(pc: Pc, rings: nat, cur: nat) {
    match pc
    case Scan(i, _) => i <= rings
    case Arm(n, _) => n < rings && n != cur
    case Publish(n, _) => n < rings && n != cur
    case SetTriggered(n, _) => n < rings && n != cur
    case SubmitLock(k, _) => k < rings
    case SubmitState(k, _) => k < rings
    case SubmitCur(k, _) => k < rings
    case SubmitRing(k, _) => k < rings
    case SubmitStore(k, _) => k < rings
    case _ => true
  }

  /**
    What a thread owns: the state from a won exchange to the state write that ends it, or a state seen under the mutex.
   */
  datatype Role = NoRole | Starter | Finisher | Completer | Fixer

  function RoleOf(pc: Pc): Role {
    match pc
    case Scan(_, _) => Starter
    case Same(_) => Starter
    case Leave(_) => Starter
    case Arm(_, _) => Starter
    case Publish(_, _) => Starter
    case SetTriggered(_, _) => Starter
    case IrqRead => Finisher
    case IrqComplete => Finisher
    case IrqSwap => Finisher
    case IrqUpdate => Finisher
    case IrqClear => Finisher
    case DoneRead => Completer
    case DoneSwap => Completer
    case DoneUpdate => Completer
    case DoneClear => Completer
    case WorkerRead => Fixer
    case WorkerComplete => Fixer
    case _ => NoRole
  }

  function StateOf(role: Role): Option<State> {
    match role
    case NoRole => None
    case Starter => Some(P.Start)
    case Finisher => Some(P.Pending)
    case Completer => Some(P.Complete)
    case Fixer => Some(P.Faulted)
  }

  predicate HoldsMutex(pc: Pc) {
    match pc
    case TriggerCas(l) => l
    case Scan(_, l) => l
    case Same(l) => l
    case Leave(l) => l
    case Arm(_, l) => l
    case Publish(_, l) => l
    case SetTriggered(_, l) => l
    case Fire(l) => l
    case ScheduleCheck => true
    case DoneRead => true
    case DoneSwap => true
    case DoneUpdate => true
    case DoneClear => true
    case WorkerCheck => true
    case WorkerRead => true
    case WorkerComplete => true
    case Unlock => true
    case SubmitState(_, _) => true
    case SubmitCur(_, _) => true
    case SubmitRing(_, _) => true
    case SubmitStore(_, _) => true
    case _ => false
  }

  // What the holder of the mutex has to do with the section.
  predicate Sectioned(m: Machine, pc: Pc) {
    match pc
    case SubmitCur(k, _) => m.section == Passed(k)
    case SubmitRing(k, _) => m.section == Passed(k)
    case SubmitStore(k, d) => m.section == Held(k) || (k < |m.wp| && m.section == Posted(k, m.wp[k] + d))
    case _ => m.section == Free
  }

  // ----------------------------------------------------------------- steps

  function Goto(m: Machine, t: nat, pc: Pc): Machine
    requires t < |m.threads|
  {
    m.(threads := m.threads[t := pc])
  }

  function Return(locked: bool): Pc {
    if locked then Unlock else Idle
  }

  // _update_wptr()
  function Ring(m: Machine): Machine
    requires m.cur < |m.wp| && |m.late| == |m.wp|
  {
    m.(wptr := m.wp[m.cur], late := m.late[m.cur := false])
  }

  function Swap(m: Machine): Machine {
    m.(prev := Some(m.cur), cur := if m.next.Some? then m.next.value else m.cur, next := None, inFlight := false,
       handOffs := m.handOffs + 1)
  }

  // Reading CONTEXT_SWITCH_CNTL as 0 although a trigger has yet to write it.
  function Noticed(m: Machine): Machine {
    m.(early := m.early || (!m.switching && m.firing.Some?))
  }

  // The thread is about to take the register's 0 for the end of a switch whose trigger has yet to write it.
  predicate TooSoon(m: Machine, pc: Pc, awake: bool) {
    !m.switching && m.firing.Some? && (pc.IrqRead? || (pc.DoneRead? && awake))
  }

  // The thread is about to write a pointer to the doorbell register that is not the running ring's.
  predicate Strays(m: Machine, pc: Pc) {
    pc.SubmitRing? && m.core != pc.k
  }

  /** One step of a thread: what it does to the shared state, and where it goes. */
  datatype Step = Then(shared: Machine, pc: Pc)

  ghost function Choosing(m: Machine, t: nat, pc: Pc): (step: Step)
    requires Wf(m) && Carries(pc, |m.wp|, m.cur)
    ensures step.shared.threads == m.threads
    ensures step.shared.early == m.early && step.shared.astray == m.astray
  {
    match pc
    case TriggerCas(l) =>
      if m.state == P.Clear then Then(m.(state := P.Start, owner := Some(t)), Scan(0, l)) else Then(m, Return(l))
    case Scan(i, l) =>
      Then(m, if i == |m.wp| then Leave(l)
              else if m.section.Locks(i) then pc
              else if m.rptr[i] == m.wp[i] then Scan(i + 1, l)
              else if i == m.cur then Same(l) else Arm(i, l))
    case Same(l) => if m.section.Locks(m.cur) then Then(m, pc) else Then(Ring(m), Leave(l))
    case Leave(l) => Then(m.(state := P.Clear, owner := None), Return(l))
    case _ => Then(m, pc)
  }

  ghost function Programming(m: Machine, t: nat, pc: Pc): (step: Step)
    requires Wf(m) && Carries(pc, |m.wp|, m.cur)
    ensures step.shared.threads == m.threads
    ensures step.shared.early == m.early && step.shared.astray == m.astray
  {
    match pc
    case Arm(n, l) =>
      if m.section.Locks(n) then Then(m, pc)
      else Then(m.(saved := m.saved[n := m.wp[n]], late := m.late[n := false]), Publish(n, l))
    case Publish(n, l) => Then(m.(restore := n, next := Some(n)), SetTriggered(n, l))
    case SetTriggered(n, l) =>
      Then(m.(state := P.Triggered, owner := None, firing := Some(t), inFlight := true, triggers := m.triggers + 1),
          Fire(l))
    case Fire(l) => Then(m.(switching := true, firing := if m.firing == Some(t) then None else m.firing), Return(l))
    case _ => Then(m, pc)
  }

  ghost function Answering(m: Machine, t: nat, pc: Pc): (step: Step)
    requires Wf(m)
    ensures step.shared.threads == m.threads
    ensures step.shared.early == (m.early || (pc.IrqRead? && TooSoon(m, pc, true))) && step.shared.astray == m.astray
  {
    match pc
    case IrqCas =>
      if m.state == P.Triggered then Then(m.(state := P.Pending, owner := Some(t)), IrqRead) else Then(m, Idle)
    case IrqRead => Then(Noticed(m), if m.switching then IrqComplete else IrqSwap)
    case IrqComplete => Then(m.(state := P.Complete, owner := None), Idle)
    case _ => Then(m, pc)
  }

  ghost function Finishing(m: Machine, t: nat, pc: Pc): (step: Step)
    requires Wf(m)
    ensures step.shared.threads == m.threads
    ensures step.shared.early == m.early && step.shared.astray == m.astray
  {
    match pc
    case IrqSwap => Then(Swap(m), IrqUpdate)
    case IrqUpdate => if m.section.Locks(m.cur) then Then(m, pc) else Then(Ring(m), IrqClear)
    case IrqClear => Then(m.(state := P.Clear, owner := None), TriggerCas(false))
    case _ => Then(m, pc)
  }

  ghost function Deciding(m: Machine, t: nat, pc: Pc, awake: bool): (step: Step)
    requires Wf(m)
    ensures step.shared.threads == m.threads
    ensures step.shared.early == (m.early || (pc.DoneRead? && TooSoon(m, pc, awake))) && step.shared.astray == m.astray
  {
    match pc
    case ScheduleLock => if m.mutex == None then Then(m.(mutex := Some(t)), ScheduleCheck) else Then(m, pc)
    case ScheduleCheck => Then(m, if m.state == P.Complete then DoneRead else TriggerCas(true))
    case DoneRead =>
      if !awake then Then(m, TriggerCas(true))
      else Then(Noticed(m), if m.switching then TriggerCas(true) else DoneSwap)
    case _ => Then(m, pc)
  }

  ghost function Closing(m: Machine, t: nat, pc: Pc): (step: Step)
    requires Wf(m)
    ensures step.shared.threads == m.threads
    ensures step.shared.early == m.early && step.shared.astray == m.astray
  {
    match pc
    case DoneSwap => Then(Swap(m).(closing := Some(t)), DoneUpdate)
    case DoneUpdate => if m.section.Locks(m.cur) then Then(m, pc) else Then(Ring(m), DoneClear)
    case DoneClear => Then(m.(state := P.Clear, closing := None), TriggerCas(true))
    case _ => Then(m, pc)
  }

  ghost function Repairing(m: Machine, t: nat, pc: Pc, awake: bool): (step: Step)
    requires Wf(m)
    ensures step.shared.threads == m.threads
    ensures step.shared.early == m.early && step.shared.astray == m.astray
  {
    match pc
    case WorkerLock => if m.mutex == None then Then(m.(mutex := Some(t)), WorkerCheck) else Then(m, pc)
    case WorkerCheck => Then(m, if m.state == P.Faulted then WorkerRead else Unlock)
    case WorkerRead => Then(m, if awake && !m.switching then WorkerComplete else Unlock)
    case WorkerComplete => Then(m.(state := P.Complete), Unlock)
    case Unlock => Then(m.(mutex := None), Idle)
    case _ => Then(m, pc)
  }

  ghost function Submitting(m: Machine, t: nat, pc: Pc): (step: Step)
    requires Wf(m) && Carries(pc, |m.wp|, m.cur)
    ensures step.shared.threads == m.threads
    ensures step.shared.early == m.early && step.shared.astray == (m.astray || Strays(m, pc))
  {
    match pc
    case SubmitLock(k, d) => if m.mutex == None then Then(m.(mutex := Some(t)), SubmitState(k, d)) else Then(m, pc)
    case SubmitState(k, d) =>
      if m.state == P.Clear then Then(m.(section := Passed(k)), SubmitCur(k, d))
      else Then(m.(section := Held(k)), SubmitStore(k, d))
    case SubmitCur(k, d) =>
      if m.cur == k then Then(m, SubmitRing(k, d)) else Then(m.(section := Held(k)), SubmitStore(k, d))
    case SubmitRing(k, d) =>
      var wptr := m.wp[k] + d;
      Then(m.(wptr := wptr, section := Posted(k, wptr), astray := m.astray || m.core != k), SubmitStore(k, d))
    case SubmitStore(k, d) =>
      Then(m.(wp := m.wp[k := m.wp[k] + d], late := m.late[k := !m.section.Posted?], section := Free), Unlock)
    case _ => Then(m, pc)
  }

  datatype Phase = Chooses | Programs | Answers | Finishes | Decides | Closes | Repairs | Submits

  function PhaseOf(pc: Pc): Phase {
    match pc
    case TriggerCas(_) => Chooses
    case Scan(_, _) => Chooses
    case Same(_) => Chooses
    case Leave(_) => Chooses
    case Arm(_, _) => Programs
    case Publish(_, _) => Programs
    case SetTriggered(_, _) => Programs
    case Fire(_) => Programs
    case IrqCas => Answers
    case IrqRead => Answers
    case IrqComplete => Answers
    case IrqSwap => Finishes
    case IrqUpdate => Finishes
    case IrqClear => Finishes
    case ScheduleLock => Decides
    case ScheduleCheck => Decides
    case DoneRead => Decides
    case DoneSwap => Closes
    case DoneUpdate => Closes
    case DoneClear => Closes
    case SubmitLock(_, _) => Submits
    case SubmitState(_, _) => Submits
    case SubmitCur(_, _) => Submits
    case SubmitRing(_, _) => Submits
    case SubmitStore(_, _) => Submits
    case _ => Repairs
  }

  ghost function StepOf(m: Machine, t: nat, awake: bool): (step: Step)
    requires Wf(m) && t < |m.threads| && Carries(m.threads[t], |m.wp|, m.cur)
  {
    var pc := m.threads[t];
    match PhaseOf(pc)
    case Chooses => Choosing(m, t, pc)
    case Programs => Programming(m, t, pc)
    case Answers => Answering(m, t, pc)
    case Finishes => Finishing(m, t, pc)
    case Decides => Deciding(m, t, pc, awake)
    case Closes => Closing(m, t, pc)
    case Repairs => Repairing(m, t, pc, awake)
    case Submits => Submitting(m, t, pc)
  }

  // What a step leaves alone, and what it adds to the history.
  lemma StepHistory(m: Machine, t: nat, awake: bool)
    requires Wf(m) && t < |m.threads| && Carries(m.threads[t], |m.wp|, m.cur)
    ensures var step := StepOf(m, t, awake);
            && step.shared.threads == m.threads && step.shared.early == (m.early || TooSoon(m, m.threads[t], awake))
            && step.shared.astray == (m.astray || Strays(m, m.threads[t]))
  {
    hide Wf, Carries, Choosing, Programming, Answering, Finishing, Deciding, Closing, Repairing, Submitting;
  }

  predicate IsEntry(pc: Pc) {
    pc == TriggerCas(false) || pc == IrqCas || pc == ScheduleLock || pc == WorkerLock || pc.SubmitLock?
  }

  ghost predicate Allowed(m: Machine, move: Move) {
    && Wf(m)
    && match move
       case Call(t, entry) => t < |m.threads| && m.threads[t].Idle? && IsEntry(entry) && Carries(entry, |m.wp|, m.cur)
       case Run(t, _) => t < |m.threads| && Carries(m.threads[t], |m.wp|, m.cur)
       case Report(k, p) => k < |m.wp| && p <= m.wp[k]
       case _ => true
  }

  ghost function Next(m: Machine, move: Move): Machine
    requires Allowed(m, move)
  {
    match move
    case Call(t, entry) => Goto(m, t, entry)
    case Run(t, awake) => StepHistory(m, t, awake); var step := StepOf(m, t, awake); Goto(step.shared, t, step.pc)
    case Timer => if m.state == P.Triggered then m.(state := P.Faulted) else m
    case Switch => if m.switching then m.(switching := false, core := m.restore, wptr := m.saved[m.restore]) else m
    case Report(k, p) => m.(rptr := m.rptr[k := p])
  }

  // ------------------------------------------------------------- invariants

  // What is known of thread `t` when it stands at `pc`.
  predicate Fits(m: Machine, t: nat, pc: Pc) {
    && Carries(pc, |m.wp|, m.cur)
    && (RoleOf(pc) == Starter || RoleOf(pc) == Finisher <==> m.owner == Some(t))
    && (HoldsMutex(pc) <==> m.mutex == Some(t))
    && (m.mutex == Some(t) ==> Sectioned(m, pc))
    && (RoleOf(pc) != NoRole ==> StateOf(RoleOf(pc)) == Some(m.state))
  }

  predicate Busy(m: Machine) {
    && (m.owner.Some? <==> m.state == P.Start || m.state == P.Pending)
    && (m.mutex == None ==> m.section == Free)
  }

  /** Single ownership: an owner's state is the global state, and there is never a second owner. */
  ghost predicate Owned(m: Machine) {
    Wf(m) && Busy(m) && forall t :: 0 <= t < |m.threads| ==> Fits(m, t, m.threads[t])
  }

  // What thread `t` may do to the state without disturbing any other thread.
  predicate Considerate(m: Machine, r: Machine, t: nat) {
    && |r.wp| == |m.wp|
    && (r.owner == m.owner || ((m.owner == None || m.owner == Some(t)) && (r.owner == None || r.owner == Some(t))))
    && (r.mutex == m.mutex || ((m.mutex == None || m.mutex == Some(t)) && (r.mutex == None || r.mutex == Some(t))))
    && (|| r.state == m.state || m.state == P.Clear || m.state == P.Triggered
        || (m.owner == Some(t) && (m.state == P.Start || m.state == P.Pending))
        || (m.mutex == Some(t) && (m.state == P.Complete || m.state == P.Faulted)))
    && (r.cur == m.cur || m.state != P.Start)
    && ((r.section == m.section && r.wp == m.wp) || m.mutex == Some(t))
  }

  lemma OthersFit(m: Machine, r: Machine, t: nat, u: nat, pc: Pc)
    requires u != t && Fits(m, u, pc) && Considerate(m, r, t)
    ensures Fits(r, u, pc)
  {
  }

  // A considerate step of a thread that ends where it fits.
  ghost predicate Orderly(m: Machine, t: nat, step: Step) {
    && Wf(step.shared) && Busy(step.shared) && step.shared.threads == m.threads
    && Considerate(m, step.shared, t) && Fits(step.shared, t, step.pc)
  }

  // Steps that change nothing, ring the doorbell, change the section, or the state and its owner.
  lemma StayOrderly(m: Machine, t: nat, pc: Pc)
    requires Wf(m) && Busy(m) && Fits(m, t, pc)
    ensures Orderly(m, t, Then(m, pc))
  {
    hide Carries, RoleOf, HoldsMutex, Sectioned;
  }

  lemma RingOrderly(m: Machine, t: nat, pc: Pc)
    requires Wf(m) && Busy(m) && Fits(m, t, pc)
    ensures Orderly(m, t, Then(Ring(m), pc))
  {
    hide Carries, RoleOf, HoldsMutex;
  }

  lemma SectionOrderly(m: Machine, t: nat, section: Section, pc: Pc)
    requires Wf(m) && Busy(m) && m.mutex == Some(t) && (!section.Free? ==> section.k < |m.wp|)
    requires Fits(m.(section := section), t, pc)
    ensures Orderly(m, t, Then(m.(section := section), pc))
  {
    hide Carries, RoleOf, HoldsMutex, Sectioned;
  }

  lemma StateOwnerOrderly(m: Machine, t: nat, state: State, owner: Option<nat>, pc: Pc)
    requires Wf(m) && Busy(m) && t < |m.threads|
    requires m.state == P.Clear || m.state == P.Triggered || m.owner == Some(t)
    requires (m.owner == None || m.owner == Some(t)) && (owner == None || owner == Some(t))
    requires owner.Some? <==> state == P.Start || state == P.Pending
    requires Fits(m.(state := state, owner := owner), t, pc)
    ensures Orderly(m, t, Then(m.(state := state, owner := owner), pc))
  {
    hide Carries, RoleOf, HoldsMutex, Sectioned;
  }

  lemma ChoosingOrderly(m: Machine, t: nat, pc: Pc)
    requires Wf(m) && Busy(m) && t < |m.threads| && Fits(m, t, pc)
    ensures Orderly(m, t, Choosing(m, t, pc))
  {
    StayOrderly(m, t, pc);
    hide Orderly, Fits, Wf, Busy;
    if pc.TriggerCas? || pc.Leave? {
      ExchangeOrderly(m, t, pc);
    } else if pc.Scan? {
      ScanOrderly(m, t, pc);
    } else if pc.Same? {
      SameOrderly(m, t, pc);
    }
  }

  lemma ExchangeOrderly(m: Machine, t: nat, pc: Pc)
    requires Wf(m) && Busy(m) && t < |m.threads| && Fits(m, t, pc) && (pc.TriggerCas? || pc.Leave?)
    ensures Orderly(m, t, Choosing(m, t, pc))
  {
    hide Orderly, Considerate;
    if pc.TriggerCas? && m.state != P.Clear {
      assert Fits(m, t, Return(pc.locked));
      StayOrderly(m, t, Return(pc.locked));
    } else if pc.TriggerCas? {
      StateOwnerOrderly(m, t, P.Start, Some(t), Scan(0, pc.locked));
    } else {
      StateOwnerOrderly(m, t, P.Clear, None, Return(pc.locked));
    }
  }

  lemma ScanOrderly(m: Machine, t: nat, pc: Pc)
    requires Wf(m) && Busy(m) && t < |m.threads| && Fits(m, t, pc) && pc.Scan?
    ensures Orderly(m, t, Choosing(m, t, pc))
  {
  }

  lemma SameOrderly(m: Machine, t: nat, pc: Pc)
    requires Wf(m) && Busy(m) && t < |m.threads| && Fits(m, t, pc) && pc.Same?
    ensures Orderly(m, t, Choosing(m, t, pc))
  {
    hide Orderly, Considerate;
    StayOrderly(m, t, pc);
    assert Fits(m, t, Leave(pc.locked));
    RingOrderly(m, t, Leave(pc.locked));
  }

  lemma ProgrammingOrderly(m: Machine, t: nat, pc: Pc)
    requires Wf(m) && Busy(m) && t < |m.threads| && Fits(m, t, pc)
    ensures Orderly(m, t, Programming(m, t, pc))
  {
    StayOrderly(m, t, pc);
    hide Orderly, Fits, Wf, Busy;
    if pc.Arm? || pc.Publish? {
      RecordOrderly(m, t, pc);
    } else if pc.SetTriggered? {
      AnnounceOrderly(m, t, pc);
    } else if pc.Fire? {
      FireOrderly(m, t, pc);
    }
  }

  lemma RecordOrderly(m: Machine, t: nat, pc: Pc)
    requires Wf(m) && Busy(m) && t < |m.threads| && Fits(m, t, pc) && (pc.Arm? || pc.Publish?)
    ensures Orderly(m, t, Programming(m, t, pc))
  {
  }

  lemma AnnounceOrderly(m: Machine, t: nat, pc: Pc)
    requires Wf(m) && Busy(m) && t < |m.threads| && Fits(m, t, pc) && pc.SetTriggered?
    ensures Orderly(m, t, Programming(m, t, pc))
  {
  }

  lemma FireOrderly(m: Machine, t: nat, pc: Pc)
    requires Wf(m) && Busy(m) && t < |m.threads| && Fits(m, t, pc) && pc.Fire?
    ensures Orderly(m, t, Programming(m, t, pc))
  {
  }

  lemma AnsweringOrderly(m: Machine, t: nat, pc: Pc)
    requires Wf(m) && Busy(m) && t < |m.threads| && Fits(m, t, pc)
    ensures Orderly(m, t, Answering(m, t, pc))
  {
    StayOrderly(m, t, pc);
    hide Orderly, Fits, Wf, Busy;
    if pc.IrqCas? {
      AnswerOrderly(m, t, pc);
    } else if pc.IrqRead? {
      ReadOrderly(m, t, pc);
    } else if pc.IrqComplete? {
      DeferOrderly(m, t, pc);
    }
  }

  lemma AnswerOrderly(m: Machine, t: nat, pc: Pc)
    requires Wf(m) && Busy(m) && t < |m.threads| && Fits(m, t, pc) && pc.IrqCas?
    ensures Orderly(m, t, Answering(m, t, pc))
  {
  }

  lemma ReadOrderly(m: Machine, t: nat, pc: Pc)
    requires Wf(m) && Busy(m) && t < |m.threads| && Fits(m, t, pc) && pc.IrqRead?
    ensures Orderly(m, t, Answering(m, t, pc))
  {
  }

  lemma DeferOrderly(m: Machine, t: nat, pc: Pc)
    requires Wf(m) && Busy(m) && t < |m.threads| && Fits(m, t, pc) && pc.IrqComplete?
    ensures Orderly(m, t, Answering(m, t, pc))
  {
  }

  lemma FinishingOrderly(m: Machine, t: nat, pc: Pc)
    requires Wf(m) && Busy(m) && t < |m.threads| && Fits(m, t, pc)
    ensures Orderly(m, t, Finishing(m, t, pc))
  {
    StayOrderly(m, t, pc);
    hide Orderly, Fits, Wf, Busy;
    if pc.IrqSwap? {
      IrqSwapOrderly(m, t, pc);
    } else if pc.IrqUpdate? {
      IrqUpdateOrderly(m, t, pc);
    } else if pc.IrqClear? {
      IrqClearOrderly(m, t, pc);
    }
  }

  lemma IrqSwapOrderly(m: Machine, t: nat, pc: Pc)
    requires Wf(m) && Busy(m) && t < |m.threads| && Fits(m, t, pc) && pc.IrqSwap?
    ensures Orderly(m, t, Finishing(m, t, pc))
  {
  }

  lemma IrqUpdateOrderly(m: Machine, t: nat, pc: Pc)
    requires Wf(m) && Busy(m) && t < |m.threads| && Fits(m, t, pc) && pc.IrqUpdate?
    ensures Orderly(m, t, Finishing(m, t, pc))
  {
    hide Orderly, Considerate;
    StayOrderly(m, t, pc);
    assert Fits(m, t, IrqClear);
    RingOrderly(m, t, IrqClear);
  }

  lemma IrqClearOrderly(m: Machine, t: nat, pc: Pc)
    requires Wf(m) && Busy(m) && t < |m.threads| && Fits(m, t, pc) && pc.IrqClear?
    ensures Orderly(m, t, Finishing(m, t, pc))
  {
  }

  lemma DecidingOrderly(m: Machine, t: nat, pc: Pc, awake: bool)
    requires Wf(m) && Busy(m) && t < |m.threads| && Fits(m, t, pc)
    ensures Orderly(m, t, Deciding(m, t, pc, awake))
  {
    StayOrderly(m, t, pc);
    hide Orderly, Fits, Wf, Busy;
    if pc.ScheduleLock? || pc.ScheduleCheck? {
      ScheduleOrderly(m, t, pc, awake);
    } else if pc.DoneRead? {
      DoneOrderly(m, t, pc, awake);
    }
  }

  lemma ScheduleOrderly(m: Machine, t: nat, pc: Pc, awake: bool)
    requires Wf(m) && Busy(m) && t < |m.threads| && Fits(m, t, pc) && (pc.ScheduleLock? || pc.ScheduleCheck?)
    ensures Orderly(m, t, Deciding(m, t, pc, awake))
  {
  }

  lemma DoneOrderly(m: Machine, t: nat, pc: Pc, awake: bool)
    requires Wf(m) && Busy(m) && t < |m.threads| && Fits(m, t, pc) && pc.DoneRead?
    ensures Orderly(m, t, Deciding(m, t, pc, awake))
  {
  }

  lemma ClosingOrderly(m: Machine, t: nat, pc: Pc)
    requires Wf(m) && Busy(m) && t < |m.threads| && Fits(m, t, pc)
    ensures Orderly(m, t, Closing(m, t, pc))
  {
    StayOrderly(m, t, pc);
    hide Orderly, Fits, Wf, Busy;
    if pc.DoneSwap? {
      DoneSwapOrderly(m, t, pc);
    } else if pc.DoneUpdate? {
      DoneUpdateOrderly(m, t, pc);
    } else if pc.DoneClear? {
      DoneClearOrderly(m, t, pc);
    }
  }

  lemma DoneSwapOrderly(m: Machine, t: nat, pc: Pc)
    requires Wf(m) && Busy(m) && t < |m.threads| && Fits(m, t, pc) && pc.DoneSwap?
    ensures Orderly(m, t, Closing(m, t, pc))
  {
  }

  lemma DoneUpdateOrderly(m: Machine, t: nat, pc: Pc)
    requires Wf(m) && Busy(m) && t < |m.threads| && Fits(m, t, pc) && pc.DoneUpdate?
    ensures Orderly(m, t, Closing(m, t, pc))
  {
    hide Orderly, Considerate;
    StayOrderly(m, t, pc);
    assert Fits(m, t, DoneClear);
    RingOrderly(m, t, DoneClear);
  }

  lemma DoneClearOrderly(m: Machine, t: nat, pc: Pc)
    requires Wf(m) && Busy(m) && t < |m.threads| && Fits(m, t, pc) && pc.DoneClear?
    ensures Orderly(m, t, Closing(m, t, pc))
  {
  }

  lemma RepairingOrderly(m: Machine, t: nat, pc: Pc, awake: bool)
    requires Wf(m) && Busy(m) && t < |m.threads| && Fits(m, t, pc)
    ensures Orderly(m, t, Repairing(m, t, pc, awake))
  {
    StayOrderly(m, t, pc);
    hide Orderly, Fits, Wf, Busy;
    if pc.WorkerLock? || pc.Unlock? {
      MutexOrderly(m, t, pc, awake);
    } else if pc.WorkerCheck? || pc.WorkerRead? {
      CheckOrderly(m, t, pc, awake);
    } else if pc.WorkerComplete? {
      RepairOrderly(m, t, pc, awake);
    }
  }

  lemma MutexOrderly(m: Machine, t: nat, pc: Pc, awake: bool)
    requires Wf(m) && Busy(m) && t < |m.threads| && Fits(m, t, pc) && (pc.WorkerLock? || pc.Unlock?)
    ensures Orderly(m, t, Repairing(m, t, pc, awake))
  {
  }

  lemma CheckOrderly(m: Machine, t: nat, pc: Pc, awake: bool)
    requires Wf(m) && Busy(m) && t < |m.threads| && Fits(m, t, pc) && (pc.WorkerCheck? || pc.WorkerRead?)
    ensures Orderly(m, t, Repairing(m, t, pc, awake))
  {
  }

  lemma RepairOrderly(m: Machine, t: nat, pc: Pc, awake: bool)
    requires Wf(m) && Busy(m) && t < |m.threads| && Fits(m, t, pc) && pc.WorkerComplete?
    ensures Orderly(m, t, Repairing(m, t, pc, awake))
  {
  }

  lemma SubmittingOrderly(m: Machine, t: nat, pc: Pc)
    requires Wf(m) && Busy(m) && t < |m.threads| && Fits(m, t, pc)
    ensures Orderly(m, t, Submitting(m, t, pc))
  {
    StayOrderly(m, t, pc);
    hide Orderly, Fits, Wf, Busy;
    if pc.SubmitLock? {
      LockOrderly(m, t, pc);
    } else if pc.SubmitState? {
      StateOrderly(m, t, pc);
    } else if pc.SubmitCur? {
      CurOrderly(m, t, pc);
    } else if pc.SubmitRing? {
      PostOrderly(m, t, pc);
    } else if pc.SubmitStore? {
      StoreOrderly(m, t, pc);
    }
  }

  lemma LockOrderly(m: Machine, t: nat, pc: Pc)
    requires Wf(m) && Busy(m) && t < |m.threads| && Fits(m, t, pc) && pc.SubmitLock?
    ensures Orderly(m, t, Submitting(m, t, pc))
  {
  }

  lemma StateOrderly(m: Machine, t: nat, pc: Pc)
    requires Wf(m) && Busy(m) && t < |m.threads| && Fits(m, t, pc) && pc.SubmitState?
    ensures Orderly(m, t, Submitting(m, t, pc))
  {
    hide Orderly, Considerate;
    if m.state == P.Clear {
      SectionOrderly(m, t, Passed(pc.k), SubmitCur(pc.k, pc.dwords));
    } else {
      SectionOrderly(m, t, Held(pc.k), SubmitStore(pc.k, pc.dwords));
    }
  }

  lemma CurOrderly(m: Machine, t: nat, pc: Pc)
    requires Wf(m) && Busy(m) && t < |m.threads| && Fits(m, t, pc) && pc.SubmitCur?
    ensures Orderly(m, t, Submitting(m, t, pc))
  {
    hide Orderly, Considerate;
    if m.cur == pc.k {
      assert Fits(m, t, SubmitRing(pc.k, pc.dwords));
      StayOrderly(m, t, SubmitRing(pc.k, pc.dwords));
    } else {
      SectionOrderly(m, t, Held(pc.k), SubmitStore(pc.k, pc.dwords));
    }
  }

  lemma PostOrderly(m: Machine, t: nat, pc: Pc)
    requires Wf(m) && Busy(m) && t < |m.threads| && Fits(m, t, pc) && pc.SubmitRing?
    ensures Orderly(m, t, Submitting(m, t, pc))
  {
  }

  lemma StoreOrderly(m: Machine, t: nat, pc: Pc)
    requires Wf(m) && Busy(m) && t < |m.threads| && Fits(m, t, pc) && pc.SubmitStore?
    ensures Orderly(m, t, Submitting(m, t, pc))
  {
  }

  lemma OrderlyKeepsOwned(m: Machine, t: nat, step: Step)
    requires Owned(m) && t < |m.threads| && Orderly(m, t, step)
    ensures Owned(Goto(step.shared, t, step.pc))
  {
    var r := Goto(step.shared, t, step.pc);
    hide Fits, Considerate, Busy;
    forall u | 0 <= u < |r.threads| ensures Fits(step.shared, u, r.threads[u]) {
      if u != t {
        OthersFit(m, step.shared, t, u, m.threads[u]);
      }
    }
    GotoFits(step.shared, t, step.pc);
  }

  lemma GotoFits(m: Machine, t: nat, pc: Pc)
    requires t < |m.threads|
    ensures forall u: nat, at: Pc :: Fits(m, u, at) ==> Fits(Goto(m, t, pc), u, at)
    ensures Busy(m) ==> Busy(Goto(m, t, pc))
  {
    hide Carries, RoleOf, HoldsMutex;
  }

  // Steps of nobody's: the timer and the hardware.
  lemma OwnedElsewhere(m: Machine, r: Machine)
    requires Owned(m) && Wf(r) && r.threads == m.threads && r.wp == m.wp && r.section == m.section
    requires r.cur == m.cur && r.owner == m.owner && r.mutex == m.mutex
    requires r.state == m.state || (m.state == P.Triggered && r.state == P.Faulted)
    ensures Owned(r)
  {
    forall u | 0 <= u < |r.threads| ensures Fits(r, u, r.threads[u]) {
      assert Fits(m, u, m.threads[u]);
    }
  }

  lemma StepOrderly(m: Machine, t: nat, awake: bool)
    requires Owned(m) && t < |m.threads| && Carries(m.threads[t], |m.wp|, m.cur)
    ensures Orderly(m, t, StepOf(m, t, awake))
  {
    var pc := m.threads[t];
    assert Fits(m, t, pc);
    hide Fits, Orderly, Choosing, Programming, Answering, Finishing, Deciding, Closing, Repairing, Submitting, Busy, Wf;
    ChoosingOrderly(m, t, pc);
    ProgrammingOrderly(m, t, pc);
    AnsweringOrderly(m, t, pc);
    FinishingOrderly(m, t, pc);
    DecidingOrderly(m, t, pc, awake);
    ClosingOrderly(m, t, pc);
    RepairingOrderly(m, t, pc, awake);
    SubmittingOrderly(m, t, pc);
  }

  lemma OwnedKept(m: Machine, move: Move)
    requires Owned(m) && Allowed(m, move)
    ensures Owned(Next(m, move))
  {
    hide StepOf, Owned, Fits, Carries;
    match move
    case Run(t, awake) =>
      StepOrderly(m, t, awake);
      OrderlyKeepsOwned(m, t, StepOf(m, t, awake));
    case Call(t, entry) => CallOwned(m, t, entry);
    case _ => EnvironmentOwned(m, move);
  }

  lemma EnvironmentOwned(m: Machine, move: Move)
    requires Owned(m) && Allowed(m, move) && !move.Run? && !move.Call?
    ensures Owned(Next(m, move))
  {
    hide StepOf, Fits, Carries, Goto;
    var r := Next(m, move);
    assert Wf(r);
    hide Owned, Wf;
    OwnedElsewhere(m, r);
  }

  lemma CallOwned(m: Machine, t: nat, entry: Pc)
    requires Owned(m) && Allowed(m, Call(t, entry))
    ensures Owned(Goto(m, t, entry))
  {
    assert Fits(m, t, m.threads[t]) && Orderly(m, t, Then(m, entry));
    hide *;
    OrderlyKeepsOwned(m, t, Then(m, entry));
  }

  // -------------------------------------------------------------- hand-offs

  /** A trigger in flight has a ring to hand over to, and is handed over once. */
  predicate InFlight(m: Machine) {
    && (m.inFlight ==> m.next.Some? && m.next.value != m.cur && m.restore == m.next.value)
    && m.triggers == m.handOffs + (if m.inFlight then 1 else 0)
    && (m.state == P.Triggered || m.state == P.Faulted ==> m.inFlight)
    && (m.state == P.Clear || m.state == P.Start ==> !m.inFlight)
    && (if m.state == P.Complete then m.inFlight <==> m.closing == None else m.closing == None)
    && (m.closing.Some? ==> m.closing == m.mutex)
  }

  predicate HandedOver(pc: Pc) {
    pc.IrqUpdate? || pc.IrqClear? || pc.DoneUpdate? || pc.DoneClear?
  }

  predicate FliesAt(m: Machine, t: nat, pc: Pc) {
    && (RoleOf(pc) == Finisher || RoleOf(pc) == Completer ==> (m.inFlight <==> !HandedOver(pc)))
    && (pc.DoneUpdate? || pc.DoneClear? <==> m.closing == Some(t))
    && (pc.SetTriggered? ==> m.next == Some(pc.n) && m.restore == pc.n)
  }

  ghost predicate Flown(m: Machine) {
    InFlight(m) && forall t :: 0 <= t < |m.threads| ==> FliesAt(m, t, m.threads[t])
  }

  // What thread `t` may do to a trigger other threads may be working on.
  predicate FlightConsiderate(m: Machine, r: Machine, t: nat) {
    && (r.inFlight == m.inFlight || m.owner == Some(t) || (m.mutex == Some(t) && m.state == P.Complete))
    && (r.closing == m.closing
        || ((m.closing == None || m.closing == Some(t)) && (r.closing == None || r.closing == Some(t))))
    && ((r.next == m.next && r.restore == m.restore) || m.owner == Some(t) || m.state != P.Start)
  }

  lemma OthersFly(m: Machine, r: Machine, t: nat, u: nat, pc: Pc)
    requires u != t && Busy(m) && Fits(m, u, pc) && FliesAt(m, u, pc) && FlightConsiderate(m, r, t)
    ensures FliesAt(r, u, pc)
  {
  }

  ghost predicate FlightOrderly(m: Machine, t: nat, step: Step) {
    InFlight(step.shared) && FlightConsiderate(m, step.shared, t) && FliesAt(step.shared, t, step.pc)
  }

  ghost predicate Placed(m: Machine, t: nat, pc: Pc) {
    Wf(m) && Busy(m) && t < |m.threads| && Fits(m, t, pc) && InFlight(m) && FliesAt(m, t, pc)
  }

  lemma ChoosingFlight(m: Machine, t: nat, pc: Pc)
    requires Placed(m, t, pc)
    ensures FlightOrderly(m, t, Choosing(m, t, pc))
  {
  }

  lemma ProgrammingFlight(m: Machine, t: nat, pc: Pc)
    requires Placed(m, t, pc)
    ensures FlightOrderly(m, t, Programming(m, t, pc))
  {
  }

  lemma AnsweringFlight(m: Machine, t: nat, pc: Pc)
    requires Placed(m, t, pc)
    ensures FlightOrderly(m, t, Answering(m, t, pc))
  {
  }

  lemma FinishingFlight(m: Machine, t: nat, pc: Pc)
    requires Placed(m, t, pc)
    ensures FlightOrderly(m, t, Finishing(m, t, pc))
  {
  }

  lemma DecidingFlight(m: Machine, t: nat, pc: Pc, awake: bool)
    requires Placed(m, t, pc)
    ensures FlightOrderly(m, t, Deciding(m, t, pc, awake))
  {
  }

  lemma ClosingFlight(m: Machine, t: nat, pc: Pc)
    requires Placed(m, t, pc)
    ensures FlightOrderly(m, t, Closing(m, t, pc))
  {
  }

  lemma RepairingFlight(m: Machine, t: nat, pc: Pc, awake: bool)
    requires Placed(m, t, pc)
    ensures FlightOrderly(m, t, Repairing(m, t, pc, awake))
  {
  }

  lemma SubmittingFlight(m: Machine, t: nat, pc: Pc)
    requires Placed(m, t, pc)
    ensures FlightOrderly(m, t, Submitting(m, t, pc))
  {
    hide FlightOrderly, Placed;
    if pc.SubmitLock? {
      LockFlight(m, t, pc);
    } else if pc.SubmitState? || pc.SubmitCur? {
      EnterFlight(m, t, pc);
    } else {
      PostFlight(m, t, pc);
    }
  }

  lemma LockFlight(m: Machine, t: nat, pc: Pc)
    requires Placed(m, t, pc) && pc.SubmitLock?
    ensures FlightOrderly(m, t, Submitting(m, t, pc))
  {
  }

  lemma EnterFlight(m: Machine, t: nat, pc: Pc)
    requires Placed(m, t, pc) && (pc.SubmitState? || pc.SubmitCur?)
    ensures FlightOrderly(m, t, Submitting(m, t, pc))
  {
  }

  lemma PostFlight(m: Machine, t: nat, pc: Pc)
    requires Placed(m, t, pc) && !pc.SubmitLock? && !pc.SubmitState? && !pc.SubmitCur?
    ensures FlightOrderly(m, t, Submitting(m, t, pc))
  {
  }

  lemma StepFlight(m: Machine, t: nat, awake: bool)
    requires Owned(m) && Flown(m) && t < |m.threads| && Carries(m.threads[t], |m.wp|, m.cur)
    ensures FlightOrderly(m, t, StepOf(m, t, awake))
  {
    var pc := m.threads[t];
    assert Fits(m, t, pc) && FliesAt(m, t, pc) && Placed(m, t, pc);
    hide Fits, FlightOrderly, Choosing, Programming, Answering, Finishing, Deciding, Closing, Repairing, Submitting,
        Busy, Wf, Placed, FliesAt;
    ChoosingFlight(m, t, pc);
    ProgrammingFlight(m, t, pc);
    AnsweringFlight(m, t, pc);
    FinishingFlight(m, t, pc);
    DecidingFlight(m, t, pc, awake);
    ClosingFlight(m, t, pc);
    RepairingFlight(m, t, pc, awake);
    SubmittingFlight(m, t, pc);
  }

  lemma GotoFlies(m: Machine, t: nat, pc: Pc)
    requires t < |m.threads|
    ensures forall u: nat, at: Pc :: FliesAt(m, u, at) ==> FliesAt(Goto(m, t, pc), u, at)
    ensures InFlight(m) ==> InFlight(Goto(m, t, pc))
  {
    hide RoleOf, HandedOver;
  }

  lemma OrderlyKeepsFlight(m: Machine, t: nat, step: Step)
    requires Owned(m) && Flown(m) && t < |m.threads| && step.shared.threads == m.threads && FlightOrderly(m, t, step)
    ensures Flown(Goto(step.shared, t, step.pc))
  {
    var r := Goto(step.shared, t, step.pc);
    hide Fits, FliesAt, FlightConsiderate, Busy, InFlight;
    forall u | 0 <= u < |r.threads| ensures FliesAt(step.shared, u, r.threads[u]) {
      if u != t {
        OthersFly(m, step.shared, t, u, m.threads[u]);
      }
    }
    GotoFlies(step.shared, t, step.pc);
  }

  lemma FlownElsewhere(m: Machine, r: Machine)
    requires Owned(m) && Flown(m) && r.threads == m.threads && InFlight(r)
    requires r.inFlight == m.inFlight && r.closing == m.closing && r.mutex == m.mutex && r.next == m.next
        && r.restore == m.restore
    ensures Flown(r)
  {
    hide InFlight;
    forall u | 0 <= u < |r.threads| ensures FliesAt(r, u, r.threads[u]) {
      assert FliesAt(m, u, m.threads[u]);
    }
  }

  lemma CallFlown(m: Machine, t: nat, entry: Pc)
    requires Owned(m) && Flown(m) && Allowed(m, Call(t, entry))
    ensures Flown(Goto(m, t, entry))
  {
    assert FliesAt(m, t, m.threads[t]) && FlightOrderly(m, t, Then(m, entry));
    hide *;
    OrderlyKeepsFlight(m, t, Then(m, entry));
  }

  lemma FlownKept(m: Machine, move: Move)
    requires Owned(m) && Flown(m) && Allowed(m, move)
    ensures Flown(Next(m, move))
  {
    hide StepOf, Owned, Flown, Carries;
    match move
    case Run(t, awake) =>
      StepFlight(m, t, awake);
      StepHistory(m, t, awake);
      OrderlyKeepsFlight(m, t, StepOf(m, t, awake));
    case Call(t, entry) => CallFlown(m, t, entry);
    case _ => EnvironmentFlown(m, move);
  }

  lemma EnvironmentFlown(m: Machine, move: Move)
    requires Owned(m) && Flown(m) && Allowed(m, move) && !move.Run? && !move.Call?
    ensures Flown(Next(m, move))
  {
    hide StepOf, Fits, Carries, Goto, FliesAt;
    var r := Next(m, move);
    assert InFlight(m) && InFlight(r);
    hide Owned, Flown, InFlight;
    FlownElsewhere(m, r);
  }

  // ---------------------------------------------------------- the doorbell

  // The record of ring `n` holds its write pointer, or the ring got a submission since.
  predicate Recorded(m: Machine, n: nat)
    requires Wf(m) && n < |m.wp|
  {
    m.saved[n] == m.wp[n] || m.late[n]
  }

  // So does what a trigger hands over to, and no submission on its way may ring the doorbell for it.
  predicate Ready(m: Machine, n: nat)
    requires Wf(m) && n < |m.wp|
  {
    Recorded(m, n) && !m.section.Open(n)
  }

  // The doorbell register holds what the current ring's submission wrote, or its write pointer, or the ring got a
  // submission since.
  predicate Rings(m: Machine)
    requires Wf(m)
  {
    if m.section.Posted? && m.section.k == m.cur then m.wptr == m.section.value
    else m.wptr == m.wp[m.cur] || m.late[m.cur]
  }

  /**
    The write pointers, as long as no hand-off came early and no submission went astray: outside a
    switch the doorbell register belongs to the current ring, and that ring runs; during one, the
    next ring is ready, and once the hardware has switched the register holds what its record said.
   */
  predicate Wire(m: Machine)
    requires Wf(m)
  {
    && (m.firing.Some? ==> m.firing.value < |m.threads| && m.inFlight && !m.switching && m.core == m.cur)
    && (m.inFlight ==>
          && m.next.Some? && Ready(m, m.next.value)
          && (m.firing == None && m.switching ==> m.core == m.cur)
          && (m.firing == None && !m.switching ==> m.core == m.next.value && m.wptr == m.saved[m.next.value]))
    && (!m.inFlight ==> !m.switching && m.core == m.cur && Rings(m))
  }

  predicate WireAt(m: Machine, t: nat, pc: Pc)
    requires Wf(m) && Carries(pc, |m.wp|, m.cur)
  {
    && (pc.Fire? <==> m.firing == Some(t))
    && (pc.IrqSwap? || pc.DoneSwap? ==> m.firing == None && !m.switching)
    && (pc.Publish? || pc.SetTriggered? ==> Ready(m, pc.n))
  }

  predicate Upset(m: Machine) {
    m.early || m.astray
  }

  ghost predicate Wired(m: Machine)
    requires Owned(m)
  {
    || Upset(m)
    || (Wire(m) && forall t :: 0 <= t < |m.threads| ==>
          Carries(m.threads[t], |m.wp|, m.cur) && WireAt(m, t, m.threads[t]))
  }

  predicate WireConsiderate(m: Machine, r: Machine, t: nat)
    requires Wf(m) && Wf(r)
  {
    && |r.wp| == |m.wp|
    && (r.firing == m.firing || m.firing == Some(t) || (m.firing == None && r.firing == Some(t) && m.state == P.Start))
    && (r.firing == None || r.firing == m.firing || r.firing == Some(t))
    && (r.switching == m.switching || m.firing == Some(t))
    && ((forall n :: 0 <= n < |m.wp| && Ready(m, n) ==> Ready(r, n)) || m.owner == Some(t) || m.state != P.Start)
  }

  lemma OthersWired(m: Machine, r: Machine, t: nat, u: nat, pc: Pc)
    requires u != t && Wf(m) && Wf(r) && Busy(m) && Fits(m, u, pc) && WireAt(m, u, pc)
    requires WireConsiderate(m, r, t) && Carries(pc, |r.wp|, r.cur)
    ensures WireAt(r, u, pc)
  {
    hide Ready;
  }

  ghost predicate WireOrderly(m: Machine, t: nat, step: Step)
    requires Wf(m)
  {
    var r := step.shared;
    && Wf(r) && Carries(step.pc, |r.wp|, r.cur) && (Upset(m) ==> Upset(r))
    && (Upset(r) || (Wire(r) && WireConsiderate(m, r, t) && WireAt(r, t, step.pc)))
  }

  ghost predicate Hooked(m: Machine, t: nat, pc: Pc) {
    Placed(m, t, pc) && !Upset(m) && Wire(m) && WireAt(m, t, pc)
  }

  lemma ChoosingWire(m: Machine, t: nat, pc: Pc)
    requires Hooked(m, t, pc)
    ensures WireOrderly(m, t, Choosing(m, t, pc))
  {
    ChoosingOrderly(m, t, pc);
  }

  lemma ProgrammingWire(m: Machine, t: nat, pc: Pc)
    requires Hooked(m, t, pc)
    ensures WireOrderly(m, t, Programming(m, t, pc))
  {
    ProgrammingOrderly(m, t, pc);
  }

  lemma AnsweringWire(m: Machine, t: nat, pc: Pc)
    requires Hooked(m, t, pc)
    ensures WireOrderly(m, t, Answering(m, t, pc))
  {
    AnsweringOrderly(m, t, pc);
  }

  lemma FinishingWire(m: Machine, t: nat, pc: Pc)
    requires Hooked(m, t, pc)
    ensures WireOrderly(m, t, Finishing(m, t, pc))
  {
    FinishingOrderly(m, t, pc);
  }

  lemma DecidingWire(m: Machine, t: nat, pc: Pc, awake: bool)
    requires Hooked(m, t, pc)
    ensures WireOrderly(m, t, Deciding(m, t, pc, awake))
  {
    DecidingOrderly(m, t, pc, awake);
  }

  lemma ClosingWire(m: Machine, t: nat, pc: Pc)
    requires Hooked(m, t, pc)
    ensures WireOrderly(m, t, Closing(m, t, pc))
  {
    ClosingOrderly(m, t, pc);
  }

  lemma RepairingWire(m: Machine, t: nat, pc: Pc, awake: bool)
    requires Hooked(m, t, pc)
    ensures WireOrderly(m, t, Repairing(m, t, pc, awake))
  {
    RepairingOrderly(m, t, pc, awake);
  }

  lemma SubmittingWire(m: Machine, t: nat, pc: Pc)
    requires Hooked(m, t, pc)
    ensures WireOrderly(m, t, Submitting(m, t, pc))
  {
    SubmittingOrderly(m, t, pc);
    hide WireOrderly, Hooked, Orderly;
    if pc.SubmitRing? {
      PostWire(m, t, pc);
    } else if pc.SubmitStore? {
      StoreWire(m, t, pc);
    } else {
      EnterWire(m, t, pc);
    }
  }

  lemma EnterWire(m: Machine, t: nat, pc: Pc)
    requires Hooked(m, t, pc) && Orderly(m, t, Submitting(m, t, pc)) && !pc.SubmitRing? && !pc.SubmitStore?
    ensures WireOrderly(m, t, Submitting(m, t, pc))
  {
  }

  lemma PostWire(m: Machine, t: nat, pc: Pc)
    requires Hooked(m, t, pc) && Orderly(m, t, Submitting(m, t, pc)) && pc.SubmitRing?
    ensures WireOrderly(m, t, Submitting(m, t, pc))
  {
  }

  lemma StoreWire(m: Machine, t: nat, pc: Pc)
    requires Hooked(m, t, pc) && Orderly(m, t, Submitting(m, t, pc)) && pc.SubmitStore?
    ensures WireOrderly(m, t, Submitting(m, t, pc))
  {
  }

  lemma UpsetStays(m: Machine, t: nat, awake: bool)
    requires Owned(m) && Upset(m) && t < |m.threads| && Carries(m.threads[t], |m.wp|, m.cur)
    ensures Wf(m) && WireOrderly(m, t, StepOf(m, t, awake))
  {
    StepOrderly(m, t, awake);
    StepHistory(m, t, awake);
    hide Fits, Busy, Considerate, StepOf, Wire, WireAt, WireConsiderate;
  }

  lemma HookedAt(m: Machine, t: nat)
    requires Owned(m) && Flown(m) && Wired(m) && t < |m.threads| && !Upset(m)
    ensures Hooked(m, t, m.threads[t])
  {
    assert Fits(m, t, m.threads[t]) && FliesAt(m, t, m.threads[t]);
    hide Fits, FliesAt, Carries, InFlight, Busy;
  }

  lemma StepWire(m: Machine, t: nat, awake: bool)
    requires Owned(m) && Flown(m) && Wired(m) && t < |m.threads| && Carries(m.threads[t], |m.wp|, m.cur)
    ensures WireOrderly(m, t, StepOf(m, t, awake))
  {
    var pc := m.threads[t];
    StepHistory(m, t, awake);
    if Upset(m) {
      UpsetStays(m, t, awake);
    } else {
      HookedAt(m, t);
      hide Owned, Flown, Wired, Upset, Carries, Fits, WireOrderly, Choosing, Programming, Answering, Finishing;
      hide Deciding, Closing, Repairing, Submitting, Orderly, Hooked, Placed, Wire, WireAt;
      match PhaseOf(pc)
      case Chooses => ChoosingWire(m, t, pc);
      case Programs => ProgrammingWire(m, t, pc);
      case Answers => AnsweringWire(m, t, pc);
      case Finishes => FinishingWire(m, t, pc);
      case Decides => DecidingWire(m, t, pc, awake);
      case Closes => ClosingWire(m, t, pc);
      case Repairs => RepairingWire(m, t, pc, awake);
      case Submits => SubmittingWire(m, t, pc);
    }
  }

  lemma GotoWired(m: Machine, t: nat, pc: Pc)
    requires Wf(m) && t < |m.threads|
    ensures var r := Goto(m, t, pc);
            && Wf(r) && |r.wp| == |m.wp| && r.cur == m.cur && Upset(r) == Upset(m) && (Wire(m) ==> Wire(r))
            && forall u: nat, at: Pc :: Carries(at, |m.wp|, m.cur) && WireAt(m, u, at) ==> WireAt(r, u, at)
  {
    hide Carries;
  }

  lemma OrderlyKeepsWire(m: Machine, t: nat, step: Step)
    requires Owned(m) && Wired(m) && t < |m.threads| && Orderly(m, t, step) && WireOrderly(m, t, step)
    requires Owned(Goto(step.shared, t, step.pc))
    ensures Wired(Goto(step.shared, t, step.pc))
  {
    var s, r := step.shared, Goto(step.shared, t, step.pc);
    hide WireAt, WireConsiderate, Wire, Carries, Considerate, Upset;
    GotoWired(s, t, step.pc);
    if !Upset(r) {
      forall u | 0 <= u < |r.threads| ensures Carries(r.threads[u], |s.wp|, s.cur) && WireAt(s, u, r.threads[u]) {
        assert Fits(r, u, r.threads[u]);
        if u != t {
          assert Fits(m, u, m.threads[u]);
          OthersWired(m, s, t, u, m.threads[u]);
        }
      }
    }
  }

  lemma WiredKept(m: Machine, move: Move)
    requires Owned(m) && Flown(m) && Wired(m) && Allowed(m, move)
    ensures Owned(Next(m, move)) && Wired(Next(m, move))
  {
    OwnedKept(m, move);
    hide StepOf, Owned, Flown, Wired;
    match move
    case Run(t, awake) =>
      StepOrderly(m, t, awake);
      StepWire(m, t, awake);
      OrderlyKeepsWire(m, t, StepOf(m, t, awake));
    case Call(t, entry) => CallWired(m, t, entry);
    case _ => HardwareWired(m, move);
  }

  lemma CallWired(m: Machine, t: nat, entry: Pc)
    requires Owned(m) && Flown(m) && Wired(m) && Allowed(m, Call(t, entry)) && Owned(Goto(m, t, entry))
    ensures Wired(Goto(m, t, entry))
  {
    assert Fits(m, t, m.threads[t]) && Orderly(m, t, Then(m, entry));
    assert !Upset(m) ==> WireAt(m, t, m.threads[t]);
    assert WireOrderly(m, t, Then(m, entry));
    hide *;
    OrderlyKeepsWire(m, t, Then(m, entry));
  }

  lemma HardwareWired(m: Machine, move: Move)
    requires Owned(m) && Flown(m) && Wired(m) && Allowed(m, move) && (move.Timer? || move.Switch? || move.Report?)
    requires Owned(Next(m, move))
    ensures Wired(Next(m, move))
  {
    var r := Next(m, move);
    assert Wf(r) && (!Upset(m) ==> Wire(r));
    if !Upset(m) {
      forall u | 0 <= u < |r.threads| ensures Carries(r.threads[u], |r.wp|, r.cur) && WireAt(r, u, r.threads[u]) {
        assert Fits(m, u, m.threads[u]) && WireAt(m, u, m.threads[u]);
      }
    }
  }
}
