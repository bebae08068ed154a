/** The exclusive opening of a device node by any number of threads. */
module ExclusiveOpen {

  /** Where a thread stands: `Refused` has decremented the counter in vain and has yet to give that back. */
  datatype Thread = Idle | Refused | Holder

  datatype Node = Node(available: int, threads: seq<Thread>)

  /** The decrement-and-test of qbt_open(), its compensating increment, and qbt_release(). */
  datatype Move = Decrement(t: nat) | Compensate(t: nat) | Release(t: nat)

  predicate Enabled(n: Node, move: Move) {
    match move
    case Decrement(t) => t < |n.threads| && n.threads[t] == Idle
    case Compensate(t) => t < |n.threads| && n.threads[t] == Refused
    case Release(t) => t < |n.threads| && n.threads[t] == Holder
  }

  function Step(n: Node, move: Move): Node
    requires Enabled(n, move)
  {
    match move
    case Decrement(t) =>
      Node(n.available - 1, n.threads[t := if n.available - 1 == 0 then Holder else Refused])
    case Compensate(t) => Node(n.available + 1, n.threads[t := Idle])
    case Release(t) => Node(n.available + 1, n.threads[t := Idle])
  }

  function Count(threads: seq<Thread>, thread: Thread): nat {
    if |threads| == 0 then 0 else (if threads[0] == thread then 1 else 0) + Count(threads[1..], thread)
  }

  lemma {:induction false} CountUpdate(threads: seq<Thread>, t: nat, now: Thread, thread: Thread)
    requires t < |threads|
    ensures Count(threads[t := now], thread)
         == Count(threads, thread) - (if threads[t] == thread then 1 else 0) + (if now == thread then 1 else 0)
  {
    if t == 0 {
      assert threads[0 := now][1..] == threads[1..];
    } else {
      assert threads[t := now][1..] == threads[1..][t - 1 := now];
      CountUpdate(threads[1..], t - 1, now, thread);
    }
  }

  lemma {:induction false} CountTwo(threads: seq<Thread>, t: nat, u: nat, thread: Thread)
    requires t < u < |threads| && threads[t] == thread && threads[u] == thread
    ensures Count(threads, thread) >= 2
  {
    if t == 0 {
      CountOne(threads[1..], u - 1, thread);
    } else {
      CountTwo(threads[1..], t - 1, u - 1, thread);
    }
  }

  lemma {:induction false} CountOne(threads: seq<Thread>, t: nat, thread: Thread)
    requires t < |threads| && threads[t] == thread
    ensures Count(threads, thread) >= 1
  {
    if t != 0 {
      CountOne(threads[1..], t - 1, thread);
    }
  }

  ghost predicate Balanced(n: Node) {
    n.available == 1 - Count(n.threads, Holder) - Count(n.threads, Refused) && Count(n.threads, Holder) <= 1
  }

  lemma StepBalanced(n: Node, move: Move)
    requires Balanced(n) && Enabled(n, move)
    ensures Balanced(Step(n, move))
    ensures move.Decrement? ==>
      (Step(n, move).threads[move.t] == Holder <==> Count(n.threads, Holder) == 0 && Count(n.threads, Refused) == 0)
  {
    var now := Step(n, move).threads[move.t];
    CountUpdate(n.threads, move.t, now, Holder);
    CountUpdate(n.threads, move.t, now, Refused);
  }

  ghost predicate EnabledRun(n: Node, moves: seq<Move>)
    decreases |moves|
  {
    |moves| != 0 ==> Enabled(n, moves[0]) && EnabledRun(Step(n, moves[0]), moves[1..])
  }

  ghost function Run(n: Node, moves: seq<Move>): Node
    requires EnabledRun(n, moves)
    decreases |moves|
  {
    if |moves| == 0 then n else Run(Step(n, moves[0]), moves[1..])
  }

  lemma {:induction false} RunBalanced(n: Node, moves: seq<Move>)
    requires Balanced(n) && EnabledRun(n, moves)
    ensures Balanced(Run(n, moves))
    decreases |moves|
  {
    hide Balanced, Enabled, Step;
    if |moves| != 0 {
      StepBalanced(n, moves[0]);
      RunBalanced(Step(n, moves[0]), moves[1..]);
    }
  }

  lemma {:induction false} NobodyCounts(threads: nat, thread: Thread)
    ensures Count(seq(threads, i => Idle), thread) == if thread == Idle then threads else 0
  {
    if threads != 0 {
      assert seq(threads, i => Idle)[1..] == seq(threads - 1, i => Idle);
      NobodyCounts(threads - 1, thread);
    }
  }

  /**
    Over every run of any number of threads, the counter is one less the holders and the refused openers
    that have yet to compensate, and no two threads hold the node.
   */
  lemma ExclusiveHolder(threads: nat, moves: seq<Move>, t: nat, u: nat)
    requires EnabledRun(Node(1, seq(threads, i => Idle)), moves)
    ensures var n := Run(Node(1, seq(threads, i => Idle)), moves);
            && n.available == 1 - Count(n.threads, Holder) - Count(n.threads, Refused)
            && (t < |n.threads| && u < |n.threads| && n.threads[t] == Holder && n.threads[u] == Holder ==> t == u)
  {
    hide Run, EnabledRun;
    var start := Node(1, seq(threads, i => Idle));
    NobodyCounts(threads, Holder);
    NobodyCounts(threads, Refused);
    RunBalanced(start, moves);
    var n := Run(start, moves);
    if t < |n.threads| && u < |n.threads| && n.threads[t] == Holder && n.threads[u] == Holder && t != u {
      CountTwo(n.threads, if t < u then t else u, if t < u then u else t, Holder);
    }
  }

  /** An opener succeeds exactly if nobody holds the node and no refused opener is still to compensate. */
  lemma OpensWhenFree(n: Node, t: nat)
    requires Balanced(n) && Enabled(n, Decrement(t))
    ensures Step(n, Decrement(t)).threads[t] == Holder <==>
      forall u :: 0 <= u < |n.threads| ==> n.threads[u] == Idle
  {
    StepBalanced(n, Decrement(t));
    if forall u :: 0 <= u < |n.threads| ==> n.threads[u] == Idle {
      assert n.threads == seq(|n.threads|, i => Idle);
      NobodyCounts(|n.threads|, Holder);
      NobodyCounts(|n.threads|, Refused);
    } else {
      var u :| 0 <= u < |n.threads| && n.threads[u] != Idle;
      CountOne(n.threads, u, n.threads[u]);
    }
  }
}
