/**
  The CACHE_FLUSH_TS interrupt: how a storm is noticed, the interrupt suspended and
  later resumed, and the loop that hands interrupts to their callbacks.
 */
module IrqStorm {
  import opened Words
  import opened Bits
  import MachineWords

  const CACHE_FLUSH_BIT: nat := 20

  /**
    The storm detection's state; `enabled` is the interrupt's bit in irq_mask, `pending` says that the worker is queued.
   */
  datatype Storm = Storm(suspended: bool, enabled: bool, count: u32, prev: u32, pending: bool)

  datatype Outcome = Ignored | Suspends | Schedules | Resumes | Nothing

  // a5xx_cp_callback(), having read `cur` from memory
  function Callback(s: Storm, cur: u32): (Storm, Outcome) {
    if s.suspended then (s, Ignored)
    else if s.prev == cur then
      var count := (s.count + 1) % TWO_32;
      if count == 2 then (s.(suspended := true, enabled := false, count := count, pending := true), Suspends)
      else (s.(count := count), Schedules)
    else (s.(count := 0, prev := cur), Schedules)
  }

  // a5xx_irq_storm_worker()
  function Worker(s: Storm): (Storm, Outcome) {
    if s.pending then (s.(suspended := false, enabled := true, pending := false), Resumes) else (s, Nothing)
  }

  /** An interrupt through the mask, one that had passed it already, or the worker. */
  datatype Move = Interrupt(cur: u32) | Late(cur: u32) | Work

  function Step(s: Storm, move: Move): (Storm, Outcome) {
    match move
    case Interrupt(cur) => if s.enabled then Callback(s, cur) else (s, Ignored)
    case Late(cur) => Callback(s, cur)
    case Work => Worker(s)
  }

  const Quiet := Storm(false, true, 0, 0, false)

  // ------------------------------------------------------------- invariants

  predicate Consistent(s: Storm) {
    s.suspended == !s.enabled == s.pending
  }

  function Run(s: Storm, moves: seq<Move>): (Storm, seq<Outcome>)
    decreases |moves|
  {
    if |moves| == 0 then (s, [])
    else
      var (r, out) := Step(s, moves[0]);
      var (end, outs) := Run(r, moves[1..]);
      (end, [out] + outs)
  }

  // Every ignored interrupt is made up for by a later resumption, which schedules the dispatcher, or that is still to
  // come.
  predicate MadeUp(outs: seq<Outcome>, pending: bool) {
    forall i :: 0 <= i < |outs| && outs[i] == Ignored ==> pending || exists j :: i < j < |outs| && outs[j] == Resumes
  }

  lemma {:induction false} StormRuns(s: Storm, moves: seq<Move>)
    requires Consistent(s)
    ensures var (end, outs) := Run(s, moves);
            && |outs| == |moves| && Consistent(end) && MadeUp(outs, end.pending)
            && (s.pending && !end.pending ==> exists j :: 0 <= j < |outs| && outs[j] == Resumes)
    decreases |moves|
  {
    if |moves| != 0 {
      var (r, out) := Step(s, moves[0]);
      StormRuns(r, moves[1..]);
      var (end, rest) := Run(r, moves[1..]);
      var outs := [out] + rest;
      if s.pending && !end.pending && out == Resumes {
        assert outs[0] == Resumes;
      } else if s.pending && !end.pending {
        var j :| 0 <= j < |rest| && rest[j] == Resumes;
        assert outs[j + 1] == Resumes;
      }
      forall i | 0 <= i < |outs| && outs[i] == Ignored
        ensures end.pending || exists j :: i < j < |outs| && outs[j] == Resumes
      {
        if !end.pending {
          if i == 0 {
            assert r.pending;
            var j :| 0 <= j < |rest| && rest[j] == Resumes;
            assert outs[j + 1] == Resumes;
          } else {
            assert rest[i - 1] == Ignored;
            var j :| i - 1 < j < |rest| && rest[j] == Resumes;
            assert outs[j + 1] == Resumes;
          }
        }
      }
    }
  }

  /**
    Over every run: suspended, masked and worker pending are the same thing, and no ignored interrupt goes without a
    schedule.
   */
  lemma SuspensionProtocol(moves: seq<Move>)
    ensures var (end, outs) := Run(Quiet, moves);
            && (end.suspended <==> !end.enabled) && (end.suspended <==> end.pending)
            && MadeUp(outs, end.pending)
  {
    StormRuns(Quiet, moves);
  }

  // ------------------------------------------------------- when it suspends

  // How many callbacks that were not ignored saw the value again, since the last one that saw a new value.
  function Repeats(s: Storm, repeats: nat, move: Move): nat {
    if move.Work? || Step(s, move).1 == Ignored then repeats
    else if s.prev == move.cur then repeats + 1
    else 0
  }

  function RepeatsAfter(s: Storm, repeats: nat, moves: seq<Move>): nat
    decreases |moves|
  {
    if |moves| == 0 then repeats else RepeatsAfter(Step(s, moves[0]).0, Repeats(s, repeats, moves[0]), moves[1..])
  }

  // The counter counts the repeats, and `prev` is the value seen last.
  lemma CountStep(s: Storm, repeats: nat, move: Move)
    requires s.count == repeats % TWO_32
    ensures var (r, out) := Step(s, move);
            var now := Repeats(s, repeats, move);
            && r.count == now % TWO_32
            && (out == Suspends <==> now == repeats + 1 && now % TWO_32 == 2)
            && r.prev == if move.Work? || out == Ignored then s.prev else move.cur
  {
  }

  /**
    The interrupt is suspended exactly by a repeat whose number since the last new value is 2, as far as 32 bits can
    tell.
   */
  lemma {:induction false} SuspendsAt(s: Storm, repeats: nat, moves: seq<Move>, i: nat)
    requires s.count == repeats % TWO_32 && i < |moves|
    ensures var outs := Run(s, moves).1;
            var before, after := RepeatsAfter(s, repeats, moves[..i]), RepeatsAfter(s, repeats, moves[..i + 1]);
            |outs| == |moves| && (outs[i] == Suspends <==> after == before + 1 && after % TWO_32 == 2)
    decreases |moves|
  {
    hide Step, Repeats;
    CountStep(s, repeats, moves[0]);
    var r, now := Step(s, moves[0]).0, Repeats(s, repeats, moves[0]);
    RunLength(r, moves[1..]);
    assert moves[..i + 1][1..] == moves[1..][..i];
    if i == 0 {
      assert moves[..0] == [] && moves[1..][..0] == [];
    } else {
      assert moves[..i][1..] == moves[1..][..i - 1];
      SuspendsAt(r, now, moves[1..], i - 1);
    }
  }

  lemma {:induction false} RunLength(s: Storm, moves: seq<Move>)
    ensures |Run(s, moves).1| == |moves|
    decreases |moves|
  {
    hide Step;
    if |moves| != 0 {
      RunLength(Step(s, moves[0]).0, moves[1..]);
    }
  }

  /**
    The values seen last and counted start as 0, so that the driver takes a first value of 0 for one seen before: its
    second interrupt suspends, where any other first value takes a third.
   */
  lemma FirstInterrupts(cur: u32)
    ensures var outs := Run(Quiet, [Interrupt(cur), Interrupt(cur), Interrupt(cur)]).1;
            outs == if cur == 0 then [Schedules, Suspends, Ignored] else [Schedules, Schedules, Suspends]
  {
    var again := Interrupt(cur);
    var s1 := Step(Quiet, again).0;
    var s2 := Step(s1, again).0;
    assert [again][1..] == [] && [again, again][1..] == [again] && [again, again, again][1..] == [again, again];
    assert Run(s2, [again]).1 == [Step(s2, again).1];
    assert Run(s1, [again, again]).1 == [Step(s1, again).1] + Run(s2, [again]).1;
  }

  predicate NoNewValue(s: Storm, moves: seq<Move>)
    decreases |moves|
  {
    |moves| != 0 ==>
      (Step(s, moves[0]).1 == Ignored || moves[0].Work? || s.prev == moves[0].cur)
          && NoNewValue(Step(s, moves[0]).0, moves[1..])
  }

  lemma {:induction false} RepeatsGrow(s: Storm, repeats: nat, moves: seq<Move>)
    requires NoNewValue(s, moves)
    ensures repeats <= RepeatsAfter(s, repeats, moves)
    decreases |moves|
  {
    hide Step;
    if |moves| != 0 {
      RepeatsGrow(Step(s, moves[0]).0, Repeats(s, repeats, moves[0]), moves[1..]);
    }
  }

  /**
    Between two suspensions either some interrupt saw a new value, or the value came again some positive
    multiple of 2^32 times. `s` is the state behind the first suspension, move `i` suspends again.
   */
  lemma SuspensionsApart(s: Storm, repeats: nat, moves: seq<Move>, i: nat)
    requires s.count == repeats % TWO_32 && repeats % TWO_32 == 2 && i < |moves|
    requires |Run(s, moves).1| == |moves| && Run(s, moves).1[i] == Suspends && NoNewValue(s, moves[..i + 1])
    ensures var more := RepeatsAfter(s, repeats, moves[..i + 1]) - repeats; more > 0 && more % TWO_32 == 0
  {
    hide Step, Run, RepeatsAfter;
    SuspendsAt(s, repeats, moves, i);
    RepeatsGrow(s, repeats, moves[..i + 1]);
    PrefixQuiet(s, moves[..i + 1], i);
    assert moves[..i + 1][..i] == moves[..i];
    RepeatsGrow(s, repeats, moves[..i]);
  }

  lemma {:induction false} PrefixQuiet(s: Storm, moves: seq<Move>, n: nat)
    requires n <= |moves| && NoNewValue(s, moves)
    ensures NoNewValue(s, moves[..n])
    decreases |moves|
  {
    hide Step;
    if n != 0 {
      assert moves[..n][1..] == moves[1..][..n - 1];
      PrefixQuiet(Step(s, moves[0]).0, moves[1..], n - 1);
    }
  }

  // The same value again and again, the worker following every suspension.
  function Again(s: Storm, n: nat): Storm {
    if n == 0 then s else Worker(Step(Again(s, n - 1), Interrupt(s.prev)).0).0
  }

  lemma RepeatStep(s: Storm)
    requires Consistent(s) && !s.suspended
    ensures var (r, out) := Step(s, Interrupt(s.prev));
            && Worker(r).0 == s.(count := (s.count + 1) % TWO_32)
            && (out == Suspends <==> (s.count + 1) % TWO_32 == 2)
  {
  }

  lemma NextCount(n: nat)
    ensures ((n + 1) % TWO_32 + 1) % TWO_32 == (n + 2) % TWO_32
    ensures (n + 2) % TWO_32 == 2 <==> n % TWO_32 == 0
  {
  }

  /**
    Both cases happen: resumed from a suspension, the n-th further repeat suspends again exactly if n is a multiple of
    2^32.
   */
  lemma {:induction false} SuspendsAgain(s: Storm, n: nat)
    requires Consistent(s) && !s.suspended && s.count == 2 && n >= 1
    ensures var before := Again(s, n - 1);
            && before == s.(count := (n + 1) % TWO_32) && Consistent(before)
            && (Step(before, Interrupt(s.prev)).1 == Suspends <==> n % TWO_32 == 0)
  {
    hide Step, Worker;
    if n > 1 {
      SuspendsAgain(s, n - 1);
      RepeatStep(Again(s, n - 2));
      NextCount(n - 1);
    }
    RepeatStep(Again(s, n - 1));
    NextCount(n);
  }

  // ---------------------------------------------------------- the hand-out

  // The set bits of a word, highest first.
  function SetBits(status: nat): seq<nat> {
    if status == 0 then []
    else
      Log2Bounds(status);
      [Log2(status)] + SetBits(status - Pow2(Log2(status)))
  }

  lemma {:induction false} SetBitsExact(status: nat, i: nat)
    ensures i in SetBits(status) <==> Bit(status, i)
  {
    hide Bit, Log2, Pow2;
    if status == 0 {
      NoBits(i);
    } else {
      TopBit(status, i);
      SetBitsExact(status - Pow2(Log2(status)), i);
    }
  }

  /** In the status and mask words the interrupt is bit 20. */
  lemma FlushBit(status: u32)
    ensures Bit(status, CACHE_FLUSH_BIT) <==> MachineWords.Has(status, 0x10_0000)
  {
    assert MachineWords.Shl(1, 20) == 0x10_0000 by {
      assert MachineWords.Shl(1, 10) == 0x400;
    }
    hide MachineWords.Has, MachineWords.Shl, Pow2;
    MachineWords.HasBit(status, 20, 0x10_0000);
  }

  lemma NoBits(i: nat)
    ensures !Bit(0, i)
  {
    hide Pow2;
    Field(0, Pow2(i), 0, 0);
  }

  lemma {:induction false} SetBitsDescend(status: nat, j: nat, k: nat)
    requires j < k < |SetBits(status)|
    ensures SetBits(status)[k] < SetBits(status)[j]
  {
    hide Log2, Pow2, Bit;
    Log2Bounds(status);
    var rest: nat := status - Pow2(Log2(status));
    if j == 0 {
      var b := SetBits(status)[k];
      assert b == SetBits(rest)[k - 1];
      SetBitsExact(rest, b);
      SetBitsExact(status, b);
      TopBit(status, b);
    } else {
      SetBitsDescend(rest, j - 1, k - 1);
    }
  }

  // The callbacks a status word leads to: handled and enabled bits, highest first.
  function Called(bits: seq<nat>, handlers: set<nat>, mask: set<nat>): seq<nat> {
    if |bits| == 0 then []
    else (if bits[0] in handlers && bits[0] in mask then [bits[0]] else []) + Called(bits[1..], handlers, mask)
  }

  class Interrupts {
    var mask: set<nat>  // irq_mask
    var suspended: bool
    var count: u32
    var prev: u32
    var pending: bool
    var schedules: nat

    ghost function View(): Storm
      reads this
    {
      Storm(suspended, CACHE_FLUSH_BIT in mask, count, prev, pending)
    }

    /** a5xx_cp_callback() */
    method CpCallback(cur: u32)
      modifies this
      ensures View() == Callback(old(View()), cur).0
      ensures schedules == old(schedules) + if Callback(old(View()), cur).1 == Schedules then 1 else 0
      ensures forall i :: i != CACHE_FLUSH_BIT ==> (i in mask <==> i in old(mask))
    {
      if suspended {
        return;
      }
      if prev == cur {
        count := (count + 1) % TWO_32;
        if count == 2 {
          suspended := true;
          mask := mask - {CACHE_FLUSH_BIT};
          pending := true;
          return;
        }
      } else {
        count := 0;
        prev := cur;
      }
      schedules := schedules + 1;
    }

    /**
      a5xx_irq_storm_worker(): the interrupt is cleared and the status read until a reading, of those the
      hardware gives one after the other, no longer shows it; `clears` is how often that takes.
     */
    method StormWorker(readings: seq<u32>) returns (clears: nat)
      requires pending && exists i | 0 <= i < |readings| :: !Bit(readings[i], CACHE_FLUSH_BIT)
      modifies this
      ensures 1 <= clears <= |readings| && !Bit(readings[clears - 1], CACHE_FLUSH_BIT)
      ensures forall i | 0 <= i < clears - 1 :: Bit(readings[i], CACHE_FLUSH_BIT)
      ensures View() == Worker(old(View())).0 && schedules == old(schedules) + 1
      ensures forall i :: i != CACHE_FLUSH_BIT ==> (i in mask <==> i in old(mask))
    {
      hide Bit;
      clears := 1;
      while Bit(readings[clears - 1], CACHE_FLUSH_BIT)
        invariant 1 <= clears <= |readings|
        invariant forall i | 0 <= i < clears - 1 :: Bit(readings[i], CACHE_FLUSH_BIT)
        decreases |readings| - clears
      {
        clears := clears + 1;
      }
      mask := mask + {CACHE_FLUSH_BIT};
      suspended := false;
      pending := false;
      schedules := schedules + 1;
    }

    // One bit of a status word.
    method Dispatch(i: nat, handlers: set<nat>, cur: u32) returns (called: bool)
      modifies this
      ensures called == (i in handlers && i in old(mask))
      ensures View() == if called && i == CACHE_FLUSH_BIT then Callback(old(View()), cur).0 else old(View())
      ensures forall k :: k != CACHE_FLUSH_BIT ==> (k in mask <==> k in old(mask))
    {
      hide Callback;
      called := false;
      if i in handlers {
        if i in mask {
          called := true;
          if i == CACHE_FLUSH_BIT {
            CpCallback(cur);
          }
        }
      }
    }

    /**
      adreno_irq_callbacks(): every set bit that is handled and enabled is called back once, highest first;
      a storm suspended on the way changes nothing about the other bits.
     */
    method IrqCallbacks(status: u32, handlers: set<nat>, cur: u32) returns (handled: bool, called: seq<nat>)
      requires CACHE_FLUSH_BIT in handlers
      modifies this
      ensures handled <==> status != 0
      ensures called == Called(SetBits(status), handlers, old(mask))
      ensures View() == if Bit(status, CACHE_FLUSH_BIT) then Step(old(View()), Interrupt(cur)).0 else old(View())
      ensures forall i :: i != CACHE_FLUSH_BIT ==> (i in mask <==> i in old(mask))
    {
      hide Bit, Log2, Pow2, Callback, Called, SetBits;
      var rest: nat := status;
      handled, called := false, [];
      ghost var fired := false;
      while rest > 0
        invariant handled <==> rest != status
        invariant rest <= status
        invariant called + Called(SetBits(rest), handlers, old(mask)) == Called(SetBits(status), handlers, old(mask))
        invariant Bit(status, CACHE_FLUSH_BIT) <==> fired || Bit(rest, CACHE_FLUSH_BIT)
        invariant fired ==> !Bit(rest, CACHE_FLUSH_BIT)
        invariant View() == if fired then Step(old(View()), Interrupt(cur)).0 else old(View())
        invariant forall i :: i != CACHE_FLUSH_BIT ==> (i in mask <==> i in old(mask))
      {
        var i := Log2(rest);
        TopBit(rest, CACHE_FLUSH_BIT);
        CalledFirst(rest, handlers, old(mask));
        var did := Dispatch(i, handlers, cur);
        if did {
          called := called + [i];
        }
        fired := fired || i == CACHE_FLUSH_BIT;
        handled := true;
        rest := rest - Pow2(i);
      }
      NoBits(CACHE_FLUSH_BIT);
      CalledNone(handlers, old(mask));
    }
  }

  lemma CalledFirst(status: nat, handlers: set<nat>, mask: set<nat>)
    requires status >= 1
    ensures var i := Log2(status);
            && Pow2(i) <= status
            && Called(SetBits(status), handlers, mask)
               == (if i in handlers && i in mask then [i] else []) + Called(SetBits(status - Pow2(i)), handlers, mask)
  {
    hide Log2, Pow2;
    Log2Bounds(status);
    assert SetBits(status)[1..] == SetBits(status - Pow2(Log2(status)));
  }

  lemma CalledNone(handlers: set<nat>, mask: set<nat>)
    ensures Called(SetBits(0), handlers, mask) == []
  {
  }
}
