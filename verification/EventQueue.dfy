/** The fingerprint driver's event queue between the touch handling and a reader. */
module EventQueue {
  import opened Words

  const MAX_FW_EVENTS: nat := 128

  /** The queue, with what it has taken in and given out so far. */
  datatype Queue<T> = Queue(queued: seq<T>, accepted: seq<T>, delivered: seq<T>)

  // qbt_fd_report_event(): kfifo_put() fails when the queue is full.
  function Put<T>(q: Queue<T>, e: T): Queue<T> {
    if |q.queued| < MAX_FW_EVENTS then q.(queued := q.queued + [e], accepted := q.accepted + [e]) else q
  }

  // An FD read drains the queue, an IPC read takes one event.
  function ReadAll<T>(q: Queue<T>): Queue<T> {
    q.(queued := [], delivered := q.delivered + q.queued)
  }

  function ReadOne<T>(q: Queue<T>): Queue<T> {
    if |q.queued| == 0 then q else q.(queued := q.queued[1..], delivered := q.delivered + [q.queued[0]])
  }

  datatype Move<T> = Report(event: T) | Drain | Take

  function Step<T>(q: Queue<T>, move: Move<T>): Queue<T> {
    match move
    case Report(e) => Put(q, e)
    case Drain => ReadAll(q)
    case Take => ReadOne(q)
  }

  function Run<T>(q: Queue<T>, moves: seq<Move<T>>): Queue<T>
    decreases |moves|
  {
    if |moves| == 0 then q else Run(Step(q, moves[0]), moves[1..])
  }

  predicate Faithful<T(==)>(q: Queue<T>) {
    q.delivered + q.queued == q.accepted && |q.queued| <= MAX_FW_EVENTS
  }

  /**
    Over every run, what was delivered followed by what is queued is what was accepted, in order, and the bound holds.
   */
  lemma {:induction false} QueueIsFaithful<T>(q: Queue<T>, moves: seq<Move<T>>)
    requires Faithful(q)
    ensures Faithful(Run(q, moves)) && |Run(q, moves).queued| <= 128
    decreases |moves|
  {
    if |moves| != 0 {
      StepIsFaithful(q, moves[0]);
      QueueIsFaithful(Step(q, moves[0]), moves[1..]);
    }
  }

  lemma StepIsFaithful<T>(q: Queue<T>, move: Move<T>)
    requires Faithful(q)
    ensures Faithful(Step(q, move))
    ensures move.Report? ==> (Step(q, move).accepted == q.accepted <==> |q.queued| == 128)
  {
    match move
    case Report(e) => assert q.delivered + (q.queued + [e]) == (q.delivered + q.queued) + [e];
    case Drain =>
    case Take =>
      if |q.queued| != 0 {
        assert q.delivered + [q.queued[0]] + q.queued[1..] == q.delivered + q.queued;
      }
  }

  // The reports of a run that found room, in order.
  function Accepted<T>(q: Queue<T>, moves: seq<Move<T>>): seq<T>
    decreases |moves|
  {
    if |moves| == 0 then []
    else
      (if moves[0].Report? && |q.queued| < MAX_FW_EVENTS then [moves[0].event] else [])
      + Accepted(Step(q, moves[0]), moves[1..])
  }

  lemma {:induction false} AcceptedInOrder<T>(q: Queue<T>, moves: seq<Move<T>>)
    ensures Run(q, moves).accepted == q.accepted + Accepted(q, moves)
    decreases |moves|
  {
    if |moves| != 0 {
      AcceptedInOrder(Step(q, moves[0]), moves[1..]);
    }
  }

  /**
    From an empty queue: the reader has seen a prefix of the accepted reports, and the rest is queued, at most 128 of
    them.
   */
  lemma ReaderSeesPrefix<T>(moves: seq<Move<T>>)
    ensures var empty := Queue([], [], []);
            var end := Run(empty, moves);
            end.delivered + end.queued == Accepted(empty, moves) && |end.queued| <= 128
  {
    QueueIsFaithful(Queue([], [], []), moves);
    AcceptedInOrder(Queue([], [], []), moves);
  }

  // ------------------------------------------------------------ the driver

  /** scratch_buf of a read. */
  class Buffer<T(0)> {
    const events: array<T>
    var count: nat

    constructor ()
      ensures events.Length == MAX_FW_EVENTS && fresh(events) && count == 0
    {
      events := new T[MAX_FW_EVENTS];
      count := 0;
    }
  }

  class EventFifo<T(0)> {
    var queued: seq<T>

    constructor ()
      ensures queued == []
    {
      queued := [];
    }

    // kfifo_put()
    method Insert(e: T) returns (ok: bool)
      modifies this
      ensures ok <==> old(|queued|) < MAX_FW_EVENTS
      ensures queued == if ok then old(queued) + [e] else old(queued)
    {
      ok := |queued| < MAX_FW_EVENTS;
      if ok {
        queued := queued + [e];
      }
    }

    // kfifo_get()
    method Remove(slot: T) returns (ok: bool, e: T)
      modifies this
      ensures ok <==> old(queued) != []
      ensures ok ==> e == old(queued)[0] && queued == old(queued)[1..]
      ensures !ok ==> e == slot && queued == old(queued)
    {
      ok, e := queued != [], slot;
      if ok {
        e, queued := queued[0], queued[1..];
      }
    }

    /** qbt_fd_report_event() */
    method ReportEvent(e: T)
      modifies this
      ensures queued == if |old(queued)| < MAX_FW_EVENTS then old(queued) + [e] else old(queued)
      ensures queued == Put(Queue(old(queued), [], []), e).queued
    {
      var ok := Insert(e);
    }

    /**
      The FD half of qbt_read(), under the queue's mutex: the whole queue moves to the front of the buffer, in order.
     */
    method ReadFd(buf: Buffer<T>)
      requires buf.events.Length == MAX_FW_EVENTS && |queued| <= MAX_FW_EVENTS
      modifies this, buf, buf.events
      ensures queued == []
      ensures buf.count == old(|queued|) <= MAX_FW_EVENTS && buf.events[..buf.count] == old(queued)
      ensures forall k :: buf.count <= k < MAX_FW_EVENTS ==> buf.events[k] == old(buf.events[k])
    {
      buf.count := |queued|;
      var i := 0;
      while i < buf.count
        invariant i <= buf.count == old(|queued|)
        invariant queued == old(queued)[i..]
        invariant buf.events[..i] == old(queued)[..i]
        invariant forall k :: i <= k < MAX_FW_EVENTS ==> buf.events[k] == old(buf.events[k])
      {
        var ok, e := Remove(buf.events[i]);
        buf.events[i] := e;
        // Under the mutex the queue cannot run dry before the count does.
        if !ok {
          assert false;
        }
        i := i + 1;
      }
    }
  }
}
