/**
  The A5xx preemption protocol with whole handlers as steps: the driver's state,
  the registers and memory it shares with the command processor, and the command
  processor itself.
 */
module Preemption {
  import opened Words
  import opened CommandProcessor
  import opened Adreno
  import opened A5xxStream
  import opened PagetableStream
  import A5xxRing
  import Pm4

  // Clear is ADRENO_PREEMPT_NONE.
  datatype State = Clear | Start | Triggered | Faulted | Pending | Complete

  /**
    A ringbuffer as the driver and the GPU's memory know it. Positions count the
    actions queued since the last start; the write pointer is the end of the log.
   */
  datatype Queue = Queue(log: seq<Action>, rptr: nat, saved: nat, scratch: u64, active: Option<Context>) {
    function Wptr(): nat { |log| }
    // adreno_rb_empty()
    predicate Empty() { rptr == Wptr() }
  }

  /** How far the command processor has come in one ring, and whether it could leave it there. */
  datatype Progress = Progress(done: nat, fine: bool, yielded: bool)

  datatype Core = Core(ring: nat, ttbr0: u64, progress: seq<Progress>)

  /**
    `wptr`, `switching` (CONTEXT_SWITCH_CNTL) and `restore` are registers, `smmu` is the TTBR0 in the SMMU info record.
   */
  datatype Machine = Machine(state: State, cur: nat, next: Option<nat>, prev: Option<nat>, rings: seq<Queue>,
                             wptr: nat, switching: bool, restore: nat, smmu: u64, core: Core)

  ghost predicate Wf(m: Machine) {
    && 1 <= |m.rings| <= MAX_RINGS && |m.core.progress| == |m.rings|
    && m.cur < |m.rings| && m.core.ring < |m.rings| && m.restore < |m.rings|
    && (m.next.Some? ==> m.next.value < |m.rings|)
  }

  // ------------------------------------------------------------ the handlers

  // a5xx_next_ringbuffer(), from ring `i` on.
  function FirstBusy(rings: seq<Queue>, i: nat): (n: Option<nat>)
    requires i <= |rings|
    ensures n.None? ==> forall j :: i <= j < |rings| ==> rings[j].Empty()
    ensures n.Some? ==>
      && i <= n.value < |rings| && !rings[n.value].Empty()
      && forall j :: i <= j < n.value ==> rings[j].Empty()
    decreases |rings| - i
  {
    if i == |rings| then None
    else if rings[i].Empty() then FirstBusy(rings, i + 1)
    else Some(i)
  }

  function Rung(m: Machine): Machine
    requires m.cur < |m.rings|
  {
    m.(wptr := m.rings[m.cur].Wptr())
  }

  // a5xx_preemption_trigger()
  function Triggers(m: Machine): (r: Machine)
    requires m.cur < |m.rings|
    ensures m.state == Clear ==> r.state == Clear || r.state == Triggered
  {
    if m.state != Clear then m
    else
      match FirstBusy(m.rings, 0)
      case None => m
      case Some(n) =>
        if n == m.cur then Rung(m)
        else
          m.(rings := m.rings[n := m.rings[n].(saved := m.rings[n].Wptr())], smmu := m.rings[n].scratch,
             restore := n, next := Some(n), state := Triggered, switching := true)
  }

  // The hand-off both the interrupt and the dispatcher end in.
  function HandedOff(m: Machine): Machine
    requires m.next.Some? && m.next.value < |m.rings|
  {
    m.(prev := Some(m.cur), cur := m.next.value, next := None, wptr := m.rings[m.next.value].Wptr(), state := Clear)
  }

  // a5xx_preempt_callback()
  ghost function CalledBack(m: Machine): Machine
    requires Wf(m) && (m.state == Triggered ==> m.next.Some?)
  {
    if m.state != Triggered then m
    else if m.switching then m.(state := Complete)
    else Triggers(HandedOff(m))
  }

  // a5xx_preemption_schedule(); without power the hand-off waits for the restart.
  ghost function Scheduled(m: Machine, awake: bool): Machine
    requires Wf(m) && (m.state == Complete ==> m.next.Some?)
  {
    Triggers(if m.state == Complete && awake && !m.switching then HandedOff(m) else m)
  }

  // adreno_preemption_timer()
  function TimedOut(m: Machine): Machine {
    if m.state == Triggered then m.(state := Faulted) else m
  }

  // _a5xx_preemption_worker()
  function Worked(m: Machine, awake: bool): Machine {
    if m.state == Faulted && awake && !m.switching then m.(state := Complete) else m
  }

  // Whether the worker, or the dispatcher, reports a preemption fault.
  predicate WorkerFaults(m: Machine, awake: bool) {
    m.state == Faulted && (awake ==> m.switching)
  }

  predicate ScheduleFaults(m: Machine, awake: bool) {
    m.state == Complete && awake && m.switching
  }

  // Queue `actions` on ring `k` and submit: the doorbell rings only outside a switch.
  function Submitted(m: Machine, k: nat, actions: seq<Action>): (r: Machine)
    requires k < |m.rings|
    ensures |r.rings| == |m.rings|
  {
    var ring := m.rings[k].(log := m.rings[k].log + actions);
    m.(rings := m.rings[k := ring], wptr := if m.state == Clear && m.cur == k then ring.Wptr() else m.wptr)
  }

  // a5xx_drawctxt_switch(), which does not notice when the switch could not be queued.
  function Switched(m: Machine, k: nat, ctx: Context, queued: bool, j: Job): Machine
    requires k < |m.rings|
  {
    var active := m.rings[k].active;
    if active == Some(ctx) then m
    else
      var actions := Actions(j, A5xxRing.SwitchDwords(j.gpu, j.rb, active, ctx));
      Activated(if queued then Submitted(m, k, actions) else m, k, ctx)
  }

  function Activated(m: Machine, k: nat, ctx: Context): Machine
    requires k < |m.rings|
  {
    m.(rings := m.rings[k := m.rings[k].(active := Some(ctx))])
  }

  function FreshQueue(gpu: Gpu): Queue {
    Queue([], 0, 0, gpu.defaultPagetable.ttbr0, None)
  }

  // A restart of the GPU on ring `cur`: the stale next_rb survives it.
  function Restarted(gpu: Gpu, m: Machine, cur: nat): Machine {
    var t, n := gpu.defaultPagetable.ttbr0, |m.rings|;
    m.(state := Clear, cur := cur, rings := seq(n, i => FreshQueue(gpu)), wptr := 0, switching := false, smmu := t,
       core := Core(cur, t, seq(n, i => Progress(0, false, true))))
  }

  // ------------------------------------------------------ the command processor

  function Spilled(gpu: Gpu, rings: seq<Queue>, e: Effect): (r: seq<Queue>)
    ensures |r| == |rings|
    ensures forall k | 0 <= k < |rings| :: r[k] == rings[k].(scratch := Scratch(gpu, k, e, rings[k].scratch))
  {
    seq(|rings|, k requires 0 <= k < |rings| => rings[k].(scratch := Scratch(gpu, k, e, rings[k].scratch)))
  }

  ghost predicate CanExecute(m: Machine) {
    && Wf(m)
    && m.core.progress[m.core.ring].done < m.wptr
    && m.core.progress[m.core.ring].done < m.rings[m.core.ring].Wptr()
  }

  ghost function NextAction(m: Machine): Action
    requires CanExecute(m)
  {
    m.rings[m.core.ring].log[m.core.progress[m.core.ring].done]
  }

  ghost function Executed(gpu: Gpu, m: Machine): Machine
    requires Wf(m)
  {
    if !CanExecute(m) then m
    else
      var h, e := m.core.ring, NextAction(m).effect;
      var v := Step(gpu, h, e, TablesOf(m, h));
      m.(rings := Spilled(gpu, m.rings, e),
         core := Core(h, v.ttbr0, m.core.progress[h := Progress(m.core.progress[h].done + 1, v.fine, v.yielded)]))
  }

  // A requested switch takes effect at a point where the running ring may be preempted.
  ghost predicate CanPreempt(m: Machine) {
    Wf(m) && m.switching && (m.core.progress[m.core.ring].fine || m.core.progress[m.core.ring].yielded)
  }

  ghost function Preempted(m: Machine): Machine
    requires Wf(m)
  {
    if !CanPreempt(m) then m
    else m.(switching := false, wptr := m.rings[m.restore].saved, core := m.core.(ring := m.restore, ttbr0 := m.smmu))
  }

  // The read pointer in memory follows the real one with a delay.
  ghost function Reported(m: Machine, k: nat, rptr: nat): Machine
    requires Wf(m) && k < |m.rings|
  {
    if m.rings[k].rptr <= rptr <= m.core.progress[k].done
    then m.(rings := m.rings[k := m.rings[k].(rptr := rptr)])
    else m
  }

  // Ring `k` as it would find the pagetable when it runs next.
  ghost function TablesOf(m: Machine, k: nat): Tables
    requires Wf(m) && k < |m.rings|
  {
    var p := m.core.progress[k];
    Tables(if m.core.ring == k then m.core.ttbr0 else m.rings[k].scratch, m.rings[k].scratch, p.fine, p.yielded)
  }

  // ------------------------------------------------------------------- runs

  datatype Move =
    | SwitchContext(k: nat, ctx: Context, queued: bool, switchJob: Job)
    | Enqueue(job: Job, input: seq<u32>)
    | Trigger
    | Callback
    | Schedule(awake: bool)
    | Timer
    | Worker(awake: bool)
    | Restart(cur: nat)
    | Execute
    | Preempt
    | Report(ring: nat, rptr: nat)

  function PayloadEffects(j: Job, input: seq<u32>): seq<Effect> {
    match Pm4.Parse(input)
    case None => []
    case Some(ps) => Strip(Run(ps, StartMode(j.flags)))
  }

  // Payloads that parse, stay in their mode and leave the pagetable alone.
  ghost predicate Plain(j: Job, input: seq<u32>) {
    && Pm4.Parse(input).Some?
    && Shows(Pm4.Parse(input).value, PayloadEffects(j, input), StartMode(j.flags))
    && AllNeutral(j.gpu, PayloadEffects(j, input))
  }

  // What the rest of the driver guarantees about its calls.
  ghost predicate Allowed(gpu: Gpu, m: Machine, move: Move) {
    match move
    case SwitchContext(k, ctx, _, j) => k < |m.rings| && j.gpu == gpu && j.rb.id == k && j.ctx == None && InRange(j)
    case Enqueue(j, input) =>
      && j.rb.id < |m.rings| && j.gpu == gpu && InRange(j) && Plain(j, input)
      && (j.ctx.Some? ==> m.rings[j.rb.id].active == j.ctx)
    case Restart(cur) => cur < |m.rings|
    case Report(k, _) => k < |m.rings|
    case _ => true
  }

  ghost function Next(gpu: Gpu, m: Machine, move: Move): Machine
    requires Protocol(m) && Allowed(gpu, m, move)
  {
    match move
    case SwitchContext(k, ctx, queued, j) => Switched(m, k, ctx, queued, j)
    case Enqueue(j, input) => Submitted(m, j.rb.id, Actions(j, input))
    case Trigger => Triggers(m)
    case Callback => CalledBack(m)
    case Schedule(awake) => Scheduled(m, awake)
    case Timer => TimedOut(m)
    case Worker(awake) => Worked(m, awake)
    case Restart(cur) => Restarted(gpu, m, cur)
    case Execute => Executed(gpu, m)
    case Preempt => Preempted(m)
    case Report(k, rptr) => Reported(m, k, rptr)
  }

  ghost function PowerUp(gpu: Gpu, rings: nat): (m: Machine)
    requires 1 <= rings <= MAX_RINGS
    ensures Protocol(m) && |m.rings| == rings
  {
    var blank := Machine(Clear, 0, None, None, seq(rings, i => FreshQueue(gpu)), 0, false, 0, 0,
                         Core(0, 0, seq(rings, i => Progress(0, false, true))));
    Restarted(gpu, blank, 0)
  }

  // ------------------------------------------------------------ the protocol

  ghost predicate Counters(m: Machine)
    requires Wf(m)
  {
    && (forall k :: 0 <= k < |m.rings| ==> m.rings[k].rptr <= m.core.progress[k].done <= m.rings[k].Wptr())
    && m.core.progress[m.core.ring].done <= m.wptr <= m.rings[m.core.ring].Wptr()
  }

  /** What holds whenever no handler is running. */
  ghost predicate Protocol(m: Machine) {
    && Wf(m) && Counters(m)
    && match m.state
       case Clear => !m.switching && m.core.ring == m.cur && m.wptr == m.rings[m.cur].Wptr()
       case Start => false
       case Pending => false
       case _ =>
         && m.next.Some? && m.next.value != m.cur && m.restore == m.next.value
         && m.core.progress[m.restore].done <= m.rings[m.restore].saved <= m.rings[m.restore].Wptr()
         && (m.switching ==> m.core.ring == m.cur)
         && (!m.switching ==> m.core.ring == m.restore && m.wptr == m.rings[m.restore].saved)
  }

  lemma TriggersKeepProtocol(m: Machine)
    requires Protocol(m)
    ensures Protocol(Triggers(m))
  {
  }

  lemma HandOffKeepsProtocol(m: Machine)
    requires Protocol(m) && m.state != Clear && !m.switching
    ensures Protocol(HandedOff(m))
  {
  }

  lemma SubmittedKeepsProtocol(m: Machine, k: nat, actions: seq<Action>)
    requires Protocol(m) && k < |m.rings|
    ensures Protocol(Submitted(m, k, actions))
  {
  }

  lemma SwitchedKeepsProtocol(m: Machine, k: nat, ctx: Context, queued: bool, j: Job)
    requires Protocol(m) && k < |m.rings|
    ensures Protocol(Switched(m, k, ctx, queued, j))
  {
    hide Actions, A5xxRing.SwitchDwords, Submitted, Activated;
    var actions := Actions(j, A5xxRing.SwitchDwords(j.gpu, j.rb, m.rings[k].active, ctx));
    SubmittedKeepsProtocol(m, k, actions);
    ActivatedKeepsProtocol(if queued then Submitted(m, k, actions) else m, k, ctx);
  }

  lemma ActivatedKeepsProtocol(m: Machine, k: nat, ctx: Context)
    requires Protocol(m) && k < |m.rings|
    ensures Protocol(Activated(m, k, ctx))
  {
  }

  lemma ExecutedKeepsProtocol(gpu: Gpu, m: Machine)
    requires Protocol(m)
    ensures Protocol(Executed(gpu, m))
  {
    hide Step, Scratch;
  }

  lemma RestartedProtocol(gpu: Gpu, m: Machine, cur: nat)
    requires Wf(m) && cur < |m.rings|
    ensures Protocol(Restarted(gpu, m, cur))
  {
  }

  lemma PreemptedKeepsProtocol(m: Machine)
    requires Protocol(m)
    ensures Protocol(Preempted(m))
  {
  }

  lemma ReportedKeepsProtocol(m: Machine, k: nat, rptr: nat)
    requires Protocol(m) && k < |m.rings|
    ensures Protocol(Reported(m, k, rptr))
  {
  }

  lemma ProtocolKept(gpu: Gpu, m: Machine, move: Move)
    requires Protocol(m) && Allowed(gpu, m, move)
    ensures Protocol(Next(gpu, m, move))
  {
    hide Actions, A5xxRing.SwitchDwords, Plain, Switched, Submitted, Executed, Triggers, Restarted, Preempted, Reported;
    match move
    case SwitchContext(k, ctx, queued, j) => SwitchedKeepsProtocol(m, k, ctx, queued, j);
    case Enqueue(j, input) => SubmittedKeepsProtocol(m, j.rb.id, Actions(j, input));
    case Trigger => TriggersKeepProtocol(m);
    case Callback =>
      if m.state == Triggered && !m.switching {
        HandOffKeepsProtocol(m);
        TriggersKeepProtocol(HandedOff(m));
      }
    case Schedule(awake) =>
      if m.state == Complete && awake && !m.switching {
        HandOffKeepsProtocol(m);
        TriggersKeepProtocol(HandedOff(m));
      } else {
        TriggersKeepProtocol(m);
      }
    case Execute => ExecutedKeepsProtocol(gpu, m);
    case Preempt => PreemptedKeepsProtocol(m);
    case Restart(cur) => RestartedProtocol(gpu, m, cur);
    case Report(k, rptr) => ReportedKeepsProtocol(m, k, rptr);
    case _ =>
  }
}
