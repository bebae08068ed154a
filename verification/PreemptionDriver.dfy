/**
  The A5xx preemption handlers as the driver runs them, updating its fields, the
  registers and the shared records step by step.
 */
module PreemptionDriver {
  import opened Words
  import opened Adreno
  import opened PagetableStream
  import opened Preemption

  class Driver {
    var state: State
    var cur: nat
    var next: Option<nat>
    var prev: Option<nat>
    var rings: seq<Queue>
    // Registers, and the TTBR0 field of the SMMU info record.
    var wptrRegister: nat
    var switching: bool
    var restore: nat
    var smmu: u64
    // The command processor's own state, out of the driver's reach.
    ghost var core: Core

    ghost function View(): Machine
      reads this
    {
      Machine(state, cur, next, prev, rings, wptrRegister, switching, restore, smmu, core)
    }

    // _update_wptr()
    method UpdateWptr()
      requires cur < |rings|
      modifies `wptrRegister
      ensures View() == Rung(old(View()))
    {
      var wptr := wptrRegister;
      if wptr != rings[cur].Wptr() {
        wptrRegister := rings[cur].Wptr();
      }
    }

    // a5xx_next_ringbuffer()
    method NextRingbuffer() returns (next: Option<nat>)
      ensures next == FirstBusy(rings, 0)
    {
      for i := 0 to |rings|
        invariant FirstBusy(rings, 0) == FirstBusy(rings, i)
      {
        if !rings[i].Empty() {
          return Some(i);
        }
      }
      return None;
    }

    /** a5xx_preemption_trigger() */
    method Trigger()
      requires cur < |rings|
      modifies this
      ensures View() == Triggers(old(View()))
    {
      if state != Clear {
        return;
      }
      state := Start;
      var found := NextRingbuffer();
      if found.None? || found.value == cur {
        if found.Some? {
          UpdateWptr();
        }
        state := Clear;
        return;
      }
      var ring := found.value;
      var ttbr0 := rings[ring].scratch;
      rings := rings[ring := rings[ring].(saved := rings[ring].Wptr())];
      smmu := ttbr0;
      restore := ring;
      next := Some(ring);
      state := Triggered;
      switching := true;
    }

    /** a5xx_preempt_callback() */
    method Callback()
      requires Protocol(View())
      modifies this
      ensures View() == CalledBack(old(View()))
    {
      if state != Triggered {
        return;
      }
      state := Pending;
      if switching {
        state := Complete;
        return;
      }
      prev := Some(cur);
      cur := next.value;
      next := None;
      UpdateWptr();
      state := Clear;
      Trigger();
    }

    // _a5xx_preemption_done()
    method Done(awake: bool) returns (fault: bool)
      requires Protocol(View()) && state == Complete
      modifies this
      ensures View() == if awake && !old(switching) then HandedOff(old(View())) else old(View())
      ensures fault == ScheduleFaults(old(View()), awake)
    {
      if !awake {
        return false;
      }
      if switching {
        return true;
      }
      prev := Some(cur);
      cur := next.value;
      next := None;
      UpdateWptr();
      state := Clear;
      fault := false;
    }

    /** a5xx_preemption_schedule() */
    method Schedule(awake: bool) returns (fault: bool)
      requires Protocol(View())
      modifies this
      ensures View() == Scheduled(old(View()), awake)
      ensures fault == ScheduleFaults(old(View()), awake)
    {
      fault := false;
      if state == Complete {
        fault := Done(awake);
      }
      Trigger();
    }

    /** adreno_preemption_timer(); the result says whether the worker is queued. */
    method Timer() returns (queued: bool)
      modifies this`state
      ensures View() == TimedOut(old(View()))
      ensures queued <==> old(state) == Triggered
    {
      if state != Triggered {
        return false;
      }
      state := Faulted;
      queued := true;
    }

    /** _a5xx_preemption_worker() with _a5xx_preemption_fault() */
    method Worker(awake: bool) returns (fault: bool)
      modifies this`state
      ensures View() == Worked(old(View()), awake)
      ensures fault == WorkerFaults(old(View()), awake)
    {
      if state != Faulted {
        return false;
      }
      if awake && !switching {
        state := Complete;
        return false;
      }
      fault := true;
    }

    /** a5xx_ringbuffer_submit() behind the dwords that decode to `actions`. */
    method Submit(ring: nat, actions: seq<Action>)
      requires ring < |rings|
      modifies `rings, `wptrRegister
      ensures View() == Submitted(old(View()), ring, actions)
    {
      var queue := rings[ring].(log := rings[ring].log + actions);
      if state == Clear {
        if cur == ring {
          wptrRegister := queue.Wptr();
        }
      }
      rings := rings[ring := queue];
    }

    // --------------------------------------------------------- the restart

    // adreno_set_active_ctxs_null()
    method SetActiveContextsNull()
      modifies `rings
      ensures |rings| == old(|rings|)
      ensures forall k :: 0 <= k < |rings| ==> rings[k] == old(rings[k]).(active := None)
    {
      for i := 0 to |rings|
        invariant |rings| == old(|rings|)
        invariant forall k :: 0 <= k < i ==> rings[k] == old(rings[k]).(active := None)
        invariant forall k :: i <= k < |rings| ==> rings[k] == old(rings[k])
      {
        rings := rings[i := rings[i].(active := None)];
      }
    }

    // a5xx_preemption_start(): of the protocol's state it resets nothing but `state`.
    method StartPreemption(gpu: Gpu)
      modifies `state, `smmu, `rings
      ensures state == Clear && smmu == gpu.defaultPagetable.ttbr0 && |rings| == old(|rings|)
      ensures forall k :: 0 <= k < |rings| ==>
        rings[k] == old(rings[k]).(saved := 0, scratch := gpu.defaultPagetable.ttbr0)
    {
      state := Clear;
      smmu := gpu.defaultPagetable.ttbr0;
      for i := 0 to |rings|
        invariant state == Clear && smmu == gpu.defaultPagetable.ttbr0 && |rings| == old(|rings|)
        invariant forall k :: 0 <= k < i ==>
          rings[k] == old(rings[k]).(saved := 0, scratch := gpu.defaultPagetable.ttbr0)
        invariant forall k :: i <= k < |rings| ==> rings[k] == old(rings[k])
      {
        rings := rings[i := rings[i].(saved := 0, scratch := gpu.defaultPagetable.ttbr0)];
      }
    }

    // The ringbuffer part of a5xx_rb_start().
    method ClearRings()
      modifies `rings
      ensures |rings| == old(|rings|)
      ensures forall k :: 0 <= k < |rings| ==> rings[k] == old(rings[k]).(log := [], rptr := 0)
    {
      for i := 0 to |rings|
        invariant |rings| == old(|rings|)
        invariant forall k :: 0 <= k < i ==> rings[k] == old(rings[k]).(log := [], rptr := 0)
        invariant forall k :: i <= k < |rings| ==> rings[k] == old(rings[k])
      {
        rings := rings[i := rings[i].(log := [], rptr := 0)];
      }
    }

    /** A restart on ring `on`: the GPU comes out of reset, then the driver's three loops run. */
    method Restart(gpu: Gpu, on: nat)
      requires on < |rings|
      modifies this
      ensures View() == Restarted(gpu, old(View()), on)
    {
      cur := on;
      SetActiveContextsNull();
      wptrRegister, switching := 0, false;
      core := Core(on, gpu.defaultPagetable.ttbr0, seq(|rings|, i => Progress(0, false, true)));
      StartPreemption(gpu);
      ClearRings();
      assert rings == seq(|rings|, i => FreshQueue(gpu));
    }
  }
}
