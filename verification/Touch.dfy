/**
  The fingerprint driver's touch handling: per-slot classification of touch events
  with a region filter and a cumulative radius filter, and the INTR2 line.
 */
module Touch {
  import opened Words

  const MT_MAX_FINGERS: nat := 10

  datatype TouchEvent = TouchEvent(x: int, y: int, id: int, updated: bool)
  datatype Finger = Up | Down | Move
  datatype Report = Report(slot: nat, finger: Finger, x: int, y: int)

  datatype Config = Config(touchFdEnable: bool, intr2Enable: bool, radFilterEnable: bool,
                           left: int, top: int, right: int, bottom: int, radX: int, radY: int)

  // Arithmetic on a C int.
  function Wrap(x: int): (w: int)
    ensures -0x8000_0000 <= w < 0x8000_0000
  {
    (x + 0x8000_0000) % 0x1_0000_0000 - 0x8000_0000
  }

  function Abs(x: int): nat {
    if x < 0 then -x else x
  }

  // A radius, once it is compared with an unsigned number.
  function Radius(r: int): nat {
    r % 0x1_0000_0000
  }

  // qbt_touch_filter_aoi_region()
  predicate Inside(e: TouchEvent, cfg: Config) {
    cfg.left <= e.x <= cfg.right && cfg.top <= e.y <= cfg.bottom
  }

  predicate Touching(e: TouchEvent, cfg: Config) {
    e.id >= 0 && Inside(e, cfg)
  }

  // What a new event of a slot amounts to; None is not worth a report.
  function Classify(cur: TouchEvent, last: TouchEvent, cfg: Config): Option<Finger> {
    var finger :=
      if cur.id < 0 then Up
      else if last.id < 0 then Down
      else if last.id == cur.id then Move
      else Down;
    if !Inside(cur, cfg) then
      if Inside(last, cfg) && last.id >= 0 then Some(Up) else None
    else if !Inside(last, cfg) && cur.id >= 0 then Some(Down)
    else Some(finger)
  }

  /** A touch counts unless it lies left of, right of, above or below the region, whose edges belong to it. */
  lemma TouchingMeans(e: TouchEvent, cfg: Config)
    ensures Touching(e, cfg) <==>
      !(e.id < 0) && !(e.x < cfg.left || e.x > cfg.right || e.y < cfg.top || e.y > cfg.bottom)
  {
  }

  /** The classification in terms of touches inside the region: where they begin, end, change fingers or go on. */
  lemma ClassifyMeaning(cur: TouchEvent, last: TouchEvent, cfg: Config)
    ensures var was, now, finger := Touching(last, cfg), Touching(cur, cfg), Classify(cur, last, cfg);
            && (!was && now ==> finger == Some(Down))
            && (was && !now ==> finger == Some(Up))
            && (was && now ==> finger == if cur.id == last.id then Some(Move) else Some(Down))
            && (!was && !now ==> finger == if Inside(cur, cfg) then Some(Up) else None)
  {
  }

  /** One slot: its last event, the motion not yet reported, and what was last reported of it, UP or DOWN. */
  datatype Slot = Slot(last: TouchEvent, deltaX: int, deltaY: int, state: Finger)

  predicate Exceeds(cfg: Config, dx: int, dy: int) {
    !cfg.radFilterEnable || Abs(dx) > Radius(cfg.radX) || Abs(dy) > Radius(cfg.radY)
  }

  // One updated slot of a work pass, and the finger state it reports.
  function SlotStep(cfg: Config, s: Slot, cur: TouchEvent): (Slot, Option<Finger>) {
    match Classify(cur, s.last, cfg)
    case None => (s.(last := cur), None)
    case Some(Move) =>
      var dx, dy := Wrap(s.deltaX + Wrap(cur.x - s.last.x)), Wrap(s.deltaY + Wrap(cur.y - s.last.y));
      if Exceeds(cfg, dx, dy) then (s.(last := cur, deltaX := 0, deltaY := 0), Some(Move))
      else (s.(last := cur, deltaX := dx, deltaY := dy), None)
    case Some(finger) => (s.(last := cur, state := finger), Some(finger))
  }

  // ------------------------------------------------------- the slot invariant

  // What is left unreported of a slot's motion never exceeds a radius.
  predicate Settled(cfg: Config, s: Slot) {
    cfg.radFilterEnable ==> Abs(s.deltaX) <= Radius(cfg.radX) && Abs(s.deltaY) <= Radius(cfg.radY)
  }

  predicate SlotValid(cfg: Config, s: Slot) {
    s.state == (if Touching(s.last, cfg) then Down else Up) && Settled(cfg, s)
  }

  /**
    A slot counts as DOWN exactly while its last event is a touch inside the region, and only then is a MOVE reported.
   */
  lemma SlotStepValid(cfg: Config, s: Slot, cur: TouchEvent)
    requires SlotValid(cfg, s)
    ensures var (r, report) := SlotStep(cfg, s, cur);
            && SlotValid(cfg, r)
            && (report == Some(Move) ==> s.state == Down && r.state == Down)
            && (r.state != s.state ==> report == Some(r.state))
            && (report.Some? && report != Some(Move) ==> r.state == report.value)
  {
  }

  // ------------------------------------------------------- the radius filter

  lemma WrapHom(a: int, b: int)
    ensures Wrap(Wrap(a) + b) == Wrap(a + b) && Wrap(a + Wrap(b)) == Wrap(a + b)
  {
    WrapPeriod(a + b, (a + 0x8000_0000) / 0x1_0000_0000);
    WrapPeriod(a + b, (b + 0x8000_0000) / 0x1_0000_0000);
  }

  lemma WrapPeriod(x: int, k: int)
    ensures Wrap(x - k * 0x1_0000_0000) == Wrap(x)
  {
    var y, n := x + 0x8000_0000, 0x1_0000_0000;
    assert y - k * n == n * (y / n - k) + y % n;
  }

  /**
    The filter as it is meant: an anchor stays where motion was last reported, and a
    move is reported when it leads further than a radius away from the anchor. A jump that
    is not a MOVE takes the anchor along.
   */
  datatype Anchored = Anchored(last: TouchEvent, x: int, y: int)

  function AnchorStep(cfg: Config, a: Anchored, cur: TouchEvent): (Anchored, Option<Finger>) {
    match Classify(cur, a.last, cfg)
    case Some(Move) =>
      if Exceeds(cfg, Wrap(cur.x - a.x), Wrap(cur.y - a.y)) then (Anchored(cur, cur.x, cur.y), Some(Move))
      else (a.(last := cur), None)
    case report => (Anchored(cur, a.x + cur.x - a.last.x, a.y + cur.y - a.last.y), report)
  }

  predicate Follows(s: Slot, a: Anchored) {
    s.last == a.last && s.deltaX == Wrap(a.last.x - a.x) && s.deltaY == Wrap(a.last.y - a.y)
  }

  lemma AnchorFollows(cfg: Config, s: Slot, a: Anchored, cur: TouchEvent)
    requires Follows(s, a)
    ensures var (r, report) := SlotStep(cfg, s, cur);
            var (b, expected) := AnchorStep(cfg, a, cur);
            Follows(r, b) && report == expected
  {
    assert Wrap(cur.x - cur.x) == 0 && Wrap(cur.y - cur.y) == 0;
    hide Wrap, Exceeds, Inside;
    Displaced(a.last.x, a.x, cur.x);
    Displaced(a.last.y, a.y, cur.y);
    assert cur.x - (a.x + cur.x - a.last.x) == a.last.x - a.x;
    assert cur.y - (a.y + cur.y - a.last.y) == a.last.y - a.y;
  }

  lemma Displaced(last: int, anchor: int, cur: int)
    ensures Wrap(Wrap(last - anchor) + Wrap(cur - last)) == Wrap(cur - anchor)
  {
    WrapHom(last - anchor, Wrap(cur - last));
    WrapHom(last - anchor, cur - last);
    assert last - anchor + (cur - last) == cur - anchor;
  }

  function SlotRun(cfg: Config, s: Slot, events: seq<TouchEvent>): (Slot, seq<Option<Finger>>)
    decreases |events|
  {
    if |events| == 0 then (s, [])
    else
      var (r, report) := SlotStep(cfg, s, events[0]);
      var (end, reports) := SlotRun(cfg, r, events[1..]);
      (end, [report] + reports)
  }

  function AnchorRun(cfg: Config, a: Anchored, events: seq<TouchEvent>): (Anchored, seq<Option<Finger>>)
    decreases |events|
  {
    if |events| == 0 then (a, [])
    else
      var (r, report) := AnchorStep(cfg, a, events[0]);
      var (end, reports) := AnchorRun(cfg, r, events[1..]);
      (end, [report] + reports)
  }

  /**
    The radius filter telescopes: over any events its reports are those of the anchor, and its deltas the displacement
    from it.
   */
  lemma {:induction false} FilterTelescopes(cfg: Config, s: Slot, a: Anchored, events: seq<TouchEvent>)
    requires Follows(s, a)
    ensures SlotRun(cfg, s, events).1 == AnchorRun(cfg, a, events).1
    ensures Follows(SlotRun(cfg, s, events).0, AnchorRun(cfg, a, events).0)
    decreases |events|
  {
    hide SlotStep, AnchorStep, Follows;
    if |events| != 0 {
      AnchorFollows(cfg, s, a, events[0]);
      FilterTelescopes(cfg, SlotStep(cfg, s, events[0]).0, AnchorStep(cfg, a, events[0]).0, events[1..]);
    }
  }

  predicate AllMoves(cfg: Config, last: TouchEvent, events: seq<TouchEvent>)
    decreases |events|
  {
    |events| != 0 ==> Classify(events[0], last, cfg) == Some(Move) && AllMoves(cfg, events[0], events[1..])
  }

  // An event further than a radius from a point, in int arithmetic; any event is, without the filter.
  predicate FurtherFrom(cfg: Config, x: int, y: int, e: TouchEvent) {
    var dx, dy, radX, radY := Wrap(e.x - x), Wrap(e.y - y), cfg.radX % 0x1_0000_0000, cfg.radY % 0x1_0000_0000;
    cfg.radFilterEnable ==> dx > radX || -dx > radX || dy > radY || -dy > radY
  }

  lemma ExceedsIs(cfg: Config, x: int, y: int, e: TouchEvent)
    ensures Exceeds(cfg, Wrap(e.x - x), Wrap(e.y - y)) <==> FurtherFrom(cfg, x, y, e)
  {
    hide Wrap;
  }

  /** Of coordinates less than 2^31 apart and radii that are not negative: outside the rectangle around the point. */
  lemma FurtherMeans(cfg: Config, x: int, y: int, e: TouchEvent)
    requires -0x8000_0000 <= e.x - x < 0x8000_0000 && -0x8000_0000 <= e.y - y < 0x8000_0000
    requires 0 <= cfg.radX < 0x8000_0000 && 0 <= cfg.radY < 0x8000_0000 && cfg.radFilterEnable
    ensures FurtherFrom(cfg, x, y, e) <==>
      !(x - cfg.radX <= e.x <= x + cfg.radX && y - cfg.radY <= e.y <= y + cfg.radY)
  {
  }

  /**
    While a finger only moves, the first report is the first event further than a radius from where the last one was
    made.
   */
  lemma {:induction false} FirstExcess(cfg: Config, a: Anchored, events: seq<TouchEvent>, i: nat)
    requires AllMoves(cfg, a.last, events) && i < |events|
    requires forall j :: 0 <= j < i ==> !FurtherFrom(cfg, a.x, a.y, events[j])
    ensures var reports := AnchorRun(cfg, a, events).1;
            && |reports| == |events|
            && (forall j :: 0 <= j < i ==> reports[j] == None)
            && (reports[i] == Some(Move) <==> FurtherFrom(cfg, a.x, a.y, events[i]))
    decreases |events|
  {
    hide Exceeds, FurtherFrom, Wrap, Classify;
    ReportsLength(cfg, a, events);
    ExceedsIs(cfg, a.x, a.y, events[0]);
    if i != 0 {
      var next := AnchorStep(cfg, a, events[0]).0;
      assert next == a.(last := events[0]);
      forall j | 0 <= j < i - 1 ensures !FurtherFrom(cfg, a.x, a.y, events[1..][j]) {
        assert events[1..][j] == events[j + 1];
      }
      FirstExcess(cfg, next, events[1..], i - 1);
    }
  }

  lemma {:induction false} ReportsLength(cfg: Config, a: Anchored, events: seq<TouchEvent>)
    ensures |AnchorRun(cfg, a, events).1| == |events|
    decreases |events|
  {
    hide AnchorStep;
    if |events| != 0 {
      ReportsLength(cfg, AnchorStep(cfg, a, events[0]).0, events[1..]);
    }
  }

  // ------------------------------------------------------------- a work pass

  /** All slots, and the level of the INTR2 line. */
  datatype Pad = Pad(slots: seq<Slot>, intr2: bool)

  // A pass under way: whether some slot was found DOWN so far, and what was reported.
  datatype Pass = Pass(pad: Pad, seen: bool, reports: seq<Report>)

  predicate AnyDown(slots: seq<Slot>) {
    exists s <- slots :: s.state == Down
  }

  function PassSlot(cfg: Config, p: Pass, slot: nat, cur: TouchEvent): (r: Pass)
    requires slot < |p.pad.slots|
    ensures |r.pad.slots| == |p.pad.slots|
  {
    if !cur.updated then p
    else
      var (s, report) := SlotStep(cfg, p.pad.slots[slot], cur);
      var slots := p.pad.slots[slot := s];
      match report
      case None => p.(pad := p.pad.(slots := slots))
      case Some(finger) =>
        var seen := if finger == Move then p.seen else p.seen || AnyDown(slots);
        Pass(Pad(slots, if finger != Move && cfg.intr2Enable then seen else p.pad.intr2), seen,
             if cfg.touchFdEnable then p.reports + [Report(slot, finger, cur.x, cur.y)] else p.reports)
  }

  // The first `n` slots of qbt_touch_work_func().
  function PassTo(cfg: Config, pad: Pad, current: seq<TouchEvent>, n: nat): (r: Pass)
    requires n <= |current| == |pad.slots|
    ensures |r.pad.slots| == |pad.slots|
  {
    if n == 0 then Pass(pad, false, [])
    else PassSlot(cfg, PassTo(cfg, pad, current, n - 1), n - 1, current[n - 1])
  }

  // What the slots' events come to, each on its own.
  predicate Reportable(cfg: Config, pad: Pad, current: seq<TouchEvent>, i: nat)
    requires i < |current| == |pad.slots|
  {
    current[i].updated && SlotStep(cfg, pad.slots[i], current[i]).1.Some?
  }

  lemma {:induction false} SlotsAhead(cfg: Config, pad: Pad, current: seq<TouchEvent>, n: nat)
    requires n <= |current| == |pad.slots|
    ensures forall i :: n <= i < |current| ==> PassTo(cfg, pad, current, n).pad.slots[i] == pad.slots[i]
  {
    hide SlotStep, AnyDown;
    if n != 0 {
      SlotsAhead(cfg, pad, current, n - 1);
    }
  }

  lemma SlotReport(cfg: Config, p: Pass, slot: nat, cur: TouchEvent)
    requires slot < |p.pad.slots|
    ensures var finger := SlotStep(cfg, p.pad.slots[slot], cur).1;
            PassSlot(cfg, p, slot, cur).reports == p.reports
              + if cfg.touchFdEnable && cur.updated
                  && finger.Some? then [Report(slot, finger.value, cur.x, cur.y)] else []
  {
    hide SlotStep, AnyDown;
  }

  // `rs` are the reports due of the first `n` slots: in slot order, each with its state and its own event's
  // coordinates.
  ghost predicate Due(cfg: Config, pad: Pad, current: seq<TouchEvent>, n: nat, rs: seq<Report>)
    requires n <= |current| == |pad.slots|
  {
    && (forall k :: 0 <= k < |rs| ==>
          && rs[k].slot < n && Reportable(cfg, pad, current, rs[k].slot)
          && Some(rs[k].finger) == SlotStep(cfg, pad.slots[rs[k].slot], current[rs[k].slot]).1
          && rs[k].x == current[rs[k].slot].x && rs[k].y == current[rs[k].slot].y)
    && (forall k, l :: 0 <= k < l < |rs| ==> rs[k].slot < rs[l].slot)
    && forall i :: 0 <= i < n && Reportable(cfg, pad, current, i) ==> exists k :: 0 <= k < |rs| && rs[k].slot == i
  }

  lemma DueNext(cfg: Config, pad: Pad, current: seq<TouchEvent>, n: nat, rs: seq<Report>, all: seq<Report>)
    requires n < |current| == |pad.slots| && Due(cfg, pad, current, n, rs)
    requires all == rs + if Reportable(cfg, pad, current, n)
      then [Report(n, SlotStep(cfg, pad.slots[n], current[n]).1.value, current[n].x, current[n].y)] else []
    ensures Due(cfg, pad, current, n + 1, all)
  {
    hide SlotStep;
    forall i | 0 <= i < n + 1 && Reportable(cfg, pad, current, i)
      ensures exists k :: 0 <= k < |all| && all[k].slot == i
    {
      if i == n {
        assert all[|rs|].slot == i;
      } else {
        var k :| 0 <= k < |rs| && rs[k].slot == i;
        assert all[k].slot == i;
      }
    }
  }

  /** A pass reports exactly what is due; without a consumer it reports nothing. */
  lemma {:induction false} PassReports(cfg: Config, pad: Pad, current: seq<TouchEvent>, n: nat)
    requires n <= |current| == |pad.slots|
    ensures var rs := PassTo(cfg, pad, current, n).reports;
            if cfg.touchFdEnable then Due(cfg, pad, current, n, rs) else rs == []
  {
    hide SlotStep, PassSlot, Due;
    if n != 0 {
      var p := PassTo(cfg, pad, current, n - 1);
      PassReports(cfg, pad, current, n - 1);
      SlotsAhead(cfg, pad, current, n - 1);
      SlotReport(cfg, p, n - 1, current[n - 1]);
      if cfg.touchFdEnable {
        DueNext(cfg, pad, current, n - 1, p.reports, PassTo(cfg, pad, current, n).reports);
      }
    } else {
      NothingDue(cfg, pad, current);
    }
  }

  lemma NothingDue(cfg: Config, pad: Pad, current: seq<TouchEvent>)
    requires |current| == |pad.slots|
    ensures Due(cfg, pad, current, 0, [])
  {
  }

  predicate PadValid(cfg: Config, pad: Pad) {
    && (forall s <- pad.slots :: SlotValid(cfg, s))
    && (cfg.intr2Enable && !pad.intr2 ==> !AnyDown(pad.slots))
  }

  // The state a slot was last reported in, given that it started in `state`.
  function LastReported(reports: seq<Report>, slot: nat, state: Finger): Finger {
    if |reports| == 0 then state
    else
      var r := reports[|reports| - 1];
      if r.slot == slot && r.finger != Move then r.finger else LastReported(reports[..|reports| - 1], slot, state)
  }

  // Every reported MOVE comes while the slot's latest other report is DOWN.
  predicate MovesWhileDown(reports: seq<Report>, states: seq<Finger>) {
    forall i | 0 <= i < |reports| ::
      reports[i].slot < |states| &&
      (reports[i].finger == Move ==> LastReported(reports[..i], reports[i].slot, states[reports[i].slot]) == Down)
  }

  function States(slots: seq<Slot>): (states: seq<Finger>)
    ensures |states| == |slots| && forall i | 0 <= i < |slots| :: states[i] == slots[i].state
  {
    seq(|slots|, i requires 0 <= i < |slots| => slots[i].state)
  }

  // The reports so far account for the slots' states.
  predicate Accounted(cfg: Config, p: Pass, states: seq<Finger>) {
    && |states| == |p.pad.slots|
    && MovesWhileDown(p.reports, states)
    && (cfg.touchFdEnable ==>
          forall i | 0 <= i < |p.pad.slots| :: LastReported(p.reports, i, states[i]) == p.pad.slots[i].state)
    && (!cfg.touchFdEnable ==> p.reports == [])
  }

  lemma ReportAdds(reports: seq<Report>, r: Report, states: seq<Finger>)
    requires MovesWhileDown(reports, states) && r.slot < |states|
    requires r.finger == Move ==> LastReported(reports, r.slot, states[r.slot]) == Down
    ensures MovesWhileDown(reports + [r], states)
    ensures forall i: nat, state :: LastReported(reports + [r], i, state)
              == if r.slot == i && r.finger != Move then r.finger else LastReported(reports, i, state)
  {
    var all := reports + [r];
    assert all[..|reports|] == reports;
    forall i | 0 <= i < |all|
      ensures all[i].slot < |states| &&
              (all[i].finger == Move ==> LastReported(all[..i], all[i].slot, states[all[i].slot]) == Down)
    {
      if i < |reports| {
        assert all[..i] == reports[..i];
      }
    }
  }

  lemma PassSlotValid(cfg: Config, p: Pass, slot: nat, cur: TouchEvent, states: seq<Finger>)
    requires slot < |p.pad.slots| && PadValid(cfg, p.pad) && Accounted(cfg, p, states)
    ensures var r := PassSlot(cfg, p, slot, cur);
            PadValid(cfg, r.pad) && Accounted(cfg, r, states)
  {
    assert SlotValid(cfg, p.pad.slots[slot]);
    SlotStepValid(cfg, p.pad.slots[slot], cur);
    hide PadValid, Accounted, SlotValid, SlotStep, PassSlot;
    PassSlotPad(cfg, p, slot, cur);
    PassSlotAccounted(cfg, p, slot, cur, states);
  }

  lemma PassSlotPad(cfg: Config, p: Pass, slot: nat, cur: TouchEvent)
    requires slot < |p.pad.slots| && PadValid(cfg, p.pad)
    requires SlotValid(cfg, SlotStep(cfg, p.pad.slots[slot], cur).0)
    requires var (s, report) := SlotStep(cfg, p.pad.slots[slot], cur);
             s.state != p.pad.slots[slot].state ==> report == Some(s.state)
    ensures PadValid(cfg, PassSlot(cfg, p, slot, cur).pad)
  {
    hide SlotStep;
    if cur.updated {
      var (next, report) := SlotStep(cfg, p.pad.slots[slot], cur);
      assert next.state != Move;
      hide SlotValid;
      var slots := p.pad.slots[slot := next];
      assert forall x <- slots :: x == next || x in p.pad.slots;
      if report.None? || report == Some(Move) {
        SameStates(p.pad.slots, slots);
      }
    }
  }

  lemma PassSlotAccounted(cfg: Config, p: Pass, slot: nat, cur: TouchEvent, states: seq<Finger>)
    requires slot < |p.pad.slots| && Accounted(cfg, p, states)
    requires var (s, report) := SlotStep(cfg, p.pad.slots[slot], cur);
             && (s.state != p.pad.slots[slot].state ==> report == Some(s.state))
             && (report == Some(Move) ==> p.pad.slots[slot].state == Down && s.state == Down)
             && (report.Some? && report != Some(Move) ==> s.state == report.value)
    ensures Accounted(cfg, PassSlot(cfg, p, slot, cur), states)
  {
    hide SlotStep, MovesWhileDown, LastReported;
    var (next, report) := SlotStep(cfg, p.pad.slots[slot], cur);
    if cur.updated && report.Some? && cfg.touchFdEnable {
      ReportAdds(p.reports, Report(slot, report.value, cur.x, cur.y), states);
    }
  }

  lemma SameStates(xs: seq<Slot>, ys: seq<Slot>)
    requires |xs| == |ys| && forall i | 0 <= i < |xs| :: xs[i].state == ys[i].state
    ensures AnyDown(xs) == AnyDown(ys)
  {
    if AnyDown(xs) {
      var i :| 0 <= i < |xs| && xs[i].state == Down;
      assert ys[i].state == Down;
    }
    if AnyDown(ys) {
      var i :| 0 <= i < |ys| && ys[i].state == Down;
      assert xs[i].state == Down;
    }
  }

  /**
    After every pass, over any input: each slot is DOWN exactly while it is touched inside the
    region, a low INTR2 line means that no slot is DOWN, and every MOVE was reported of a slot
    whose latest other report was DOWN.
   */
  lemma {:induction false} PassValid(cfg: Config, pad: Pad, current: seq<TouchEvent>, n: nat)
    requires n <= |current| == |pad.slots| && PadValid(cfg, pad)
    ensures var r := PassTo(cfg, pad, current, n);
            PadValid(cfg, r.pad) && Accounted(cfg, r, States(pad.slots))
  {
    hide PassSlot, PadValid;
    if n != 0 {
      PassValid(cfg, pad, current, n - 1);
      PassSlotValid(cfg, PassTo(cfg, pad, current, n - 1), n - 1, current[n - 1], States(pad.slots));
    }
  }

  // ------------------------------------------------------------- whole runs

  function Passes(cfg: Config, pad: Pad, inputs: seq<seq<TouchEvent>>): (Pad, seq<Report>)
    requires forall input <- inputs :: |input| == |pad.slots|
    decreases |inputs|
  {
    if |inputs| == 0 then (pad, [])
    else
      var p := PassTo(cfg, pad, inputs[0], |inputs[0]|);
      var (end, reports) := Passes(cfg, p.pad, inputs[1..]);
      (end, p.reports + reports)
  }

  function Untouched(slots: nat): Pad {
    Pad(seq(slots, i => Slot(TouchEvent(0, 0, -1, false), 0, 0, Up)), false)
  }

  lemma {:induction false} LastReportedConcat(xs: seq<Report>, ys: seq<Report>, slot: nat, state: Finger)
    ensures LastReported(xs + ys, slot, state) == LastReported(ys, slot, LastReported(xs, slot, state))
    decreases |ys|
  {
    if |ys| == 0 {
      assert xs + ys == xs;
    } else {
      assert (xs + ys)[..|xs + ys| - 1] == xs + ys[..|ys| - 1];
      LastReportedConcat(xs, ys[..|ys| - 1], slot, state);
    }
  }

  lemma MovesConcat(xs: seq<Report>, ys: seq<Report>, states: seq<Finger>, mid: seq<Finger>)
    requires |states| == |mid| && MovesWhileDown(xs, states) && MovesWhileDown(ys, mid)
    requires forall i | 0 <= i < |mid| :: mid[i] == LastReported(xs, i, states[i])
    ensures MovesWhileDown(xs + ys, states)
  {
    hide LastReported;
    var all := xs + ys;
    forall i | 0 <= i < |all|
      ensures all[i].slot < |states| &&
              (all[i].finger == Move ==> LastReported(all[..i], all[i].slot, states[all[i].slot]) == Down)
    {
      if i < |xs| {
        assert all[..i] == xs[..i];
      } else {
        var j := i - |xs|;
        assert all[..i] == xs + ys[..j];
        LastReportedConcat(xs, ys[..j], all[i].slot, states[all[i].slot]);
      }
    }
  }

  lemma {:induction false} PassesValid(cfg: Config, pad: Pad, inputs: seq<seq<TouchEvent>>)
    requires PadValid(cfg, pad) && forall input <- inputs :: |input| == |pad.slots|
    ensures var (end, reports) := Passes(cfg, pad, inputs);
            && PadValid(cfg, end) && |end.slots| == |pad.slots|
            && MovesWhileDown(reports, States(pad.slots)) && (!cfg.touchFdEnable ==> reports == [])
            && (cfg.touchFdEnable ==>
                  forall i | 0 <= i < |pad.slots| :: LastReported(reports, i, pad.slots[i].state) == end.slots[i].state)
    decreases |inputs|
  {
    hide PadValid, PassTo, MovesWhileDown, LastReported;
    NoReports(States(pad.slots));
    if |inputs| != 0 {
      PassValid(cfg, pad, inputs[0], |inputs[0]|);
      var p := PassTo(cfg, pad, inputs[0], |inputs[0]|);
      PassesValid(cfg, p.pad, inputs[1..]);
      var reports := Passes(cfg, p.pad, inputs[1..]).1;
      if !cfg.touchFdEnable {
        assert p.reports + reports == [];
        return;
      }
      MovesConcat(p.reports, reports, States(pad.slots), States(p.pad.slots));
      forall i | 0 <= i < |pad.slots|
        ensures LastReported(p.reports + reports, i, pad.slots[i].state)
            == Passes(cfg, p.pad, inputs[1..]).0.slots[i].state
      {
        LastReportedConcat(p.reports, reports, i, pad.slots[i].state);
      }
    }
  }

  lemma NoReports(states: seq<Finger>)
    ensures MovesWhileDown([], states) && forall i: nat, state :: LastReported([], i, state) == state
  {
  }

  /** From the driver's start, over any inputs. */
  lemma TouchRuns(cfg: Config, slots: nat, inputs: seq<seq<TouchEvent>>)
    requires forall input <- inputs :: |input| == slots
    ensures var (end, reports) := Passes(cfg, Untouched(slots), inputs);
            && |end.slots| == slots
            && (forall i | 0 <= i < slots :: end.slots[i].state == if Touching(end.slots[i].last, cfg) then Down
                else Up)
            && (cfg.radFilterEnable ==>
                  forall i | 0 <= i < slots :: Abs(end.slots[i].deltaX) <= Radius(cfg.radX)
                      && Abs(end.slots[i].deltaY) <= Radius(cfg.radY))
            && (cfg.intr2Enable && !end.intr2 ==> forall i | 0 <= i < slots :: end.slots[i].state != Down)
            && MovesWhileDown(reports, seq(slots, i => Up))
            && (inputs == [] ==> reports == [] && !end.intr2 && forall i | 0 <= i < slots :: end.slots[i].last.id < 0)
  {
    var pad := Untouched(slots);
    assert PadValid(cfg, pad) && !pad.intr2 && forall i | 0 <= i < slots :: pad.slots[i].last.id < 0;
    assert inputs == [] ==> Passes(cfg, pad, inputs) == (pad, []);
    assert States(pad.slots) == seq(slots, i => Up);
    hide Passes, MovesWhileDown, Untouched;
    PassesValid(cfg, pad, inputs);
    var end := Passes(cfg, pad, inputs).0;
    forall i | 0 <= i < slots ensures SlotValid(cfg, end.slots[i]) {
      assert end.slots[i] in end.slots;
    }
  }

  // ------------------------------------------------- when the line stays high

  // The slot's event may change the line: it is new, worth a report and no move.
  predicate Writes(cfg: Config, pad: Pad, current: seq<TouchEvent>, i: nat)
    requires i < |current| == |pad.slots|
  {
    var finger := Classify(current[i], pad.slots[i].last, cfg);
    current[i].updated && finger.Some? && finger != Some(Move)
  }

  // The slot as a pass leaves it.
  function EndSlot(cfg: Config, pad: Pad, current: seq<TouchEvent>, j: nat): Slot
    requires j < |current| == |pad.slots|
  {
    if current[j].updated then SlotStep(cfg, pad.slots[j], current[j]).0 else pad.slots[j]
  }

  lemma {:induction false} SlotsAfter(cfg: Config, pad: Pad, current: seq<TouchEvent>, n: nat)
    requires n <= |current| == |pad.slots|
    ensures forall j | 0 <= j < |current| ::
      PassTo(cfg, pad, current, n).pad.slots[j] == if j < n then EndSlot(cfg, pad, current, j) else pad.slots[j]
  {
    hide SlotStep, AnyDown;
    if n != 0 {
      SlotsAfter(cfg, pad, current, n - 1);
    }
  }

  // What one turn of the loop does to the line and to the flag it is set from.
  lemma TurnLine(cfg: Config, p: Pass, slot: nat, cur: TouchEvent)
    requires slot < |p.pad.slots|
    ensures var r, finger := PassSlot(cfg, p, slot, cur), Classify(cur, p.pad.slots[slot].last, cfg);
            var writes := cur.updated && finger.Some? && finger != Some(Move);
            && r.seen == (p.seen || (writes && AnyDown(r.pad.slots)))
            && r.pad.intr2 == if writes && cfg.intr2Enable then r.seen else p.pad.intr2
  {
    hide Classify, Exceeds, AnyDown, Wrap;
  }

  predicate SomeWrite(cfg: Config, pad: Pad, current: seq<TouchEvent>, n: nat)
    requires n <= |current| == |pad.slots|
  {
    exists i | 0 <= i < n :: Writes(cfg, pad, current, i)
  }

  predicate DownAtWrite(cfg: Config, pad: Pad, current: seq<TouchEvent>, n: nat)
    requires n <= |current| == |pad.slots|
  {
    exists i | 0 <= i < n :: Writes(cfg, pad, current, i) && AnyDown(PassTo(cfg, pad, current, i + 1).pad.slots)
  }

  lemma {:induction false} LineAfter(cfg: Config, pad: Pad, current: seq<TouchEvent>, n: nat)
    requires n <= |current| == |pad.slots|
    ensures var r := PassTo(cfg, pad, current, n);
            && r.seen == DownAtWrite(cfg, pad, current, n)
            && r.pad.intr2 == if cfg.intr2Enable && SomeWrite(cfg, pad, current, n) then r.seen else pad.intr2
  {
    hide Classify, AnyDown, PassSlot;
    if n != 0 {
      LineAfter(cfg, pad, current, n - 1);
      SlotsAfter(cfg, pad, current, n - 1);
      TurnLine(cfg, PassTo(cfg, pad, current, n - 1), n - 1, current[n - 1]);
      assert Writes(cfg, pad, current, n - 1) ==> SomeWrite(cfg, pad, current, n);
    }
  }

  // No slot is touched inside the region once the pass is over.
  predicate AllLifted(cfg: Config, pad: Pad, current: seq<TouchEvent>)
    requires |current| == |pad.slots|
  {
    forall j | 0 <= j < |current| :: !Touching(if current[j].updated then current[j] else pad.slots[j].last, cfg)
  }

  predicate DownBehind(pad: Pad, i: nat) {
    exists j | i < j < |pad.slots| :: pad.slots[j].state == Down
  }

  // Some slot's report came while a later slot still counted as DOWN.
  predicate WritesBeforeDown(cfg: Config, pad: Pad, current: seq<TouchEvent>)
    requires |current| == |pad.slots|
  {
    exists i | 0 <= i < |current| :: Writes(cfg, pad, current, i) && DownBehind(pad, i)
  }

  predicate AllValid(cfg: Config, pad: Pad) {
    forall s <- pad.slots :: SlotValid(cfg, s)
  }

  lemma EndSlotState(cfg: Config, pad: Pad, current: seq<TouchEvent>, j: nat)
    requires j < |current| == |pad.slots| && AllValid(cfg, pad)
    ensures EndSlot(cfg, pad, current, j).state == Down <==>
              Touching(if current[j].updated then current[j] else pad.slots[j].last, cfg)
  {
    assert SlotValid(cfg, pad.slots[j]);
    SlotStepValid(cfg, pad.slots[j], current[j]);
    hide Classify, Exceeds, Wrap, Touching;
  }

  // At the end of a pass a slot is DOWN exactly if some slot is still touched.
  lemma EndDown(cfg: Config, pad: Pad, current: seq<TouchEvent>)
    requires |current| == |pad.slots| && AllValid(cfg, pad)
    ensures AnyDown(PassTo(cfg, pad, current, |current|).pad.slots) <==> !AllLifted(cfg, pad, current)
  {
    hide Touching, EndSlot, PassTo, AllValid;
    SlotsAfter(cfg, pad, current, |current|);
    forall j | 0 <= j < |current|
      ensures EndSlot(cfg, pad, current, j).state == Down <==>
                Touching(if current[j].updated then current[j] else pad.slots[j].last, cfg)
    {
      EndSlotState(cfg, pad, current, j);
    }
    var slots := PassTo(cfg, pad, current, |current|).pad.slots;
    forall j | 0 <= j < |current| ensures slots[j] in slots {
    }
  }

  // While every slot gets lifted, only those the pass has yet to look at can be DOWN.
  lemma DownAhead(cfg: Config, pad: Pad, current: seq<TouchEvent>, i: nat)
    requires i < |current| == |pad.slots| && AllValid(cfg, pad) && AllLifted(cfg, pad, current)
    ensures AnyDown(PassTo(cfg, pad, current, i + 1).pad.slots) <==> DownBehind(pad, i)
  {
    hide Touching, EndSlot, PassTo, AllValid;
    SlotsAfter(cfg, pad, current, i + 1);
    var slots := PassTo(cfg, pad, current, i + 1).pad.slots;
    forall j | 0 <= j <= i ensures slots[j].state != Down {
      EndSlotState(cfg, pad, current, j);
    }
    forall j | i < j < |current| ensures slots[j] in slots && slots[j] == pad.slots[j] {
    }
  }

  /**
    Exactly when a pass leaves the line high with no slot DOWN: every slot ends up lifted, and either some slot's
    report came before a later slot that had been DOWN, or nothing was written and the line was high before.
   */
  lemma StuckHigh(cfg: Config, pad: Pad, current: seq<TouchEvent>)
    requires |current| == |pad.slots| && AllValid(cfg, pad) && cfg.intr2Enable
    ensures var r := PassTo(cfg, pad, current, |current|).pad;
            r.intr2 && !AnyDown(r.slots) <==>
            && AllLifted(cfg, pad, current)
            && if SomeWrite(cfg, pad, current, |current|) then WritesBeforeDown(cfg, pad, current) else pad.intr2
  {
    EndDown(cfg, pad, current);
    LineAfter(cfg, pad, current, |current|);
    if AllLifted(cfg, pad, current) {
      hide AllLifted, AllValid, AnyDown, PassTo, Writes;
      forall i | 0 <= i < |current|
        ensures Writes(cfg, pad, current, i)
            ==> (AnyDown(PassTo(cfg, pad, current, i + 1).pad.slots) <==> DownBehind(pad, i))
      {
        DownAhead(cfg, pad, current, i);
      }
      assert DownAtWrite(cfg, pad, current, |current|) <==> WritesBeforeDown(cfg, pad, current);
    }
  }

  // A slot that was DOWN and ends up lifted was written.
  lemma LiftedWrites(cfg: Config, pad: Pad, current: seq<TouchEvent>, i: nat)
    requires i < |current| == |pad.slots| && AllValid(cfg, pad) && AllLifted(cfg, pad, current)
        && pad.slots[i].state == Down
    ensures Writes(cfg, pad, current, i)
  {
    assert SlotValid(cfg, pad.slots[i]);
    ClassifyMeaning(current[i], pad.slots[i].last, cfg);
  }

  /** For a line that agreed with the slots the earlier report alone decides; nothing written leaves it right. */
  lemma StuckHighFromRight(cfg: Config, pad: Pad, current: seq<TouchEvent>)
    requires |current| == |pad.slots| && AllValid(cfg, pad) && cfg.intr2Enable && pad.intr2 == AnyDown(pad.slots)
    ensures var r := PassTo(cfg, pad, current, |current|).pad;
            r.intr2 && !AnyDown(r.slots) <==> AllLifted(cfg, pad, current) && WritesBeforeDown(cfg, pad, current)
  {
    StuckHigh(cfg, pad, current);
    if AllLifted(cfg, pad, current) && AnyDown(pad.slots) {
      var i :| 0 <= i < |pad.slots| && pad.slots[i].state == Down;
      LiftedWrites(cfg, pad, current, i);
    }
  }

  /** Two fingers, or more, lifted in one pass are enough, whatever the other slots do. */
  lemma LiftedTogether(cfg: Config, pad: Pad, current: seq<TouchEvent>, i: nat, j: nat)
    requires |current| == |pad.slots| && AllValid(cfg, pad) && cfg.intr2Enable && AllLifted(cfg, pad, current)
    requires i < j < |current| && pad.slots[i].state == Down && pad.slots[j].state == Down
    ensures var r := PassTo(cfg, pad, current, |current|).pad; r.intr2 && !AnyDown(r.slots)
  {
    StuckHigh(cfg, pad, current);
    LiftedWrites(cfg, pad, current, i);
  }

  // -------------------------------------------------------------- the driver

  class TouchDriver {
    const current: array<TouchEvent>
    const last: array<TouchEvent>
    const deltaX: array<int>
    const deltaY: array<int>
    const slotState: array<Finger>
    var intr2: bool
    // What qbt_fd_report_event() was handed, in order.
    var reported: seq<Report>

    ghost predicate Valid()
      reads this
    {
      && current.Length == last.Length == deltaX.Length == deltaY.Length == slotState.Length == MT_MAX_FINGERS
      && current != last && deltaX != deltaY
    }

    ghost function SlotAt(i: nat): Slot
      requires Valid() && i < MT_MAX_FINGERS
      reads this, last, deltaX, deltaY, slotState
    {
      Slot(last[i], deltaX[i], deltaY[i], slotState[i])
    }

    ghost function View(): Pad
      requires Valid()
      reads this, last, deltaX, deltaY, slotState
    {
      Pad(seq(MT_MAX_FINGERS, i requires 0 <= i < MT_MAX_FINGERS reads this, last, deltaX, deltaY, slotState =>
          SlotAt(i)), intr2)
    }

    constructor ()
      ensures Valid() && View() == Untouched(10) && reported == []
      ensures fresh(current) && fresh(last) && fresh(deltaX) && fresh(deltaY) && fresh(slotState)
    {
      current := new TouchEvent[MT_MAX_FINGERS](i => TouchEvent(0, 0, -1, false));
      last := new TouchEvent[MT_MAX_FINGERS](i => TouchEvent(0, 0, -1, false));
      deltaX := new int[MT_MAX_FINGERS](i => 0);
      deltaY := new int[MT_MAX_FINGERS](i => 0);
      slotState := new Finger[MT_MAX_FINGERS](i => Up);
      intr2, reported := false, [];
    }

    // qbt_touch_filter_by_radius()
    method FilterByRadius(cfg: Config, cur: TouchEvent, previous: TouchEvent, slot: nat) returns (pass: bool)
      requires Valid() && slot < MT_MAX_FINGERS
      modifies deltaX, deltaY
      ensures var dx, dy :=
          Wrap(old(deltaX[slot]) + Wrap(cur.x - previous.x)), Wrap(old(deltaY[slot]) + Wrap(cur.y - previous.y));
              && pass == Exceeds(cfg, dx, dy)
              && deltaX[slot] == (if pass then 0 else dx) && deltaY[slot] == (if pass then 0 else dy)
      ensures forall i :: 0 <= i < MT_MAX_FINGERS && i != slot ==>
        deltaX[i] == old(deltaX[i]) && deltaY[i] == old(deltaY[i])
    {
      hide Wrap, Radius;
      deltaX[slot] := Wrap(deltaX[slot] + Wrap(cur.x - previous.x));
      deltaY[slot] := Wrap(deltaY[slot] + Wrap(cur.y - previous.y));
      var delX, delY := Abs(deltaX[slot]), Abs(deltaY[slot]);
      if !cfg.radFilterEnable || delX > Radius(cfg.radX) || delY > Radius(cfg.radY) {
        deltaX[slot], deltaY[slot] := 0, 0;
        return true;
      }
      pass := false;
    }

    // The inner loop of the work function.
    method SomeDown() returns (down: bool)
      requires Valid()
      ensures down == AnyDown(View().slots)
    {
      for i := 0 to MT_MAX_FINGERS
        invariant forall j :: 0 <= j < i ==> slotState[j] != Down
      {
        if slotState[i] == Down {
          assert View().slots[i].state == Down;
          return true;
        }
      }
      down := false;
    }

    // Classify and filter the event of one slot; None means that there is nothing to report.
    method StepSlot(cfg: Config, slot: nat, event: TouchEvent) returns (finger: Option<Finger>)
      requires Valid() && slot < MT_MAX_FINGERS
      modifies last, deltaX, deltaY, slotState
      ensures (SlotAt(slot), finger) == SlotStep(cfg, old(SlotAt(slot)), event)
      ensures forall i :: 0 <= i < MT_MAX_FINGERS && i != slot ==> SlotAt(i) == old(SlotAt(i))
      ensures forall i :: 0 <= i < MT_MAX_FINGERS ==> current[i] == old(current[i])
    {
      hide Wrap, Exceeds, Inside;
      var previous := last[slot];
      last[slot] := event;
      finger := Classify(event, previous, cfg);
      if finger == None {
        return;
      }
      if finger == Some(Move) {
        var pass := FilterByRadius(cfg, event, previous, slot);
        if !pass {
          finger := None;
        }
      } else {
        slotState[slot] := finger.value;
      }
    }

    // One turn of the work function's loop.
    method WorkSlot(cfg: Config, slot: nat, seen: bool) returns (nowSeen: bool)
      requires Valid() && slot < MT_MAX_FINGERS
      modifies this`intr2, this`reported, current, last, deltaX, deltaY, slotState
      ensures Valid()
      ensures var r := PassSlot(cfg, Pass(old(View()), seen, old(reported)), slot, old(current[slot]));
              View() == r.pad && nowSeen == r.seen && reported == r.reports
      ensures forall i :: 0 <= i < MT_MAX_FINGERS && i != slot ==> current[i] == old(current[i])
      ensures current[slot] == old(current[slot]).(updated := false)
    {
      hide SlotStep, AnyDown;
      nowSeen := seen;
      ghost var slots := View().slots;
      var event := current[slot];
      current[slot] := event.(updated := false);
      if !event.updated {
        assert View().slots == slots;
        return;
      }
      assert SlotAt(slot) == slots[slot];
      var finger := StepSlot(cfg, slot, event);
      slots := slots[slot := SlotAt(slot)];
      assert View().slots == slots;
      if finger == None {
        return;
      }
      if finger != Some(Move) {
        var down := SomeDown();
        nowSeen := seen || down;
        if cfg.intr2Enable {
          intr2 := nowSeen;
        }
      }
      if cfg.touchFdEnable {
        reported := reported + [Report(slot, finger.value, event.x, event.y)];
      }
      assert View().slots == slots;
    }

    /** qbt_touch_work_func(): a whole pass over the slots. */
    method Work(cfg: Config)
      requires Valid()
      modifies this`intr2, this`reported, current, last, deltaX, deltaY, slotState
      ensures Valid()
      ensures var r := PassTo(cfg, old(View()), old(current[..]), MT_MAX_FINGERS);
              View() == r.pad && reported == old(reported) + r.reports
      ensures forall i :: 0 <= i < MT_MAX_FINGERS ==> current[i] == old(current[i]).(updated := false)
    {
      hide PassSlot;
      ghost var pad, events, earlier := View(), current[..], reported;
      var seen := false;
      for slot := 0 to MT_MAX_FINGERS
        invariant Valid()
        invariant var r := PassTo(cfg, pad, events, slot);
                  View() == r.pad && seen == r.seen && reported == earlier + r.reports
        invariant forall i :: 0 <= i < slot ==> current[i] == events[i].(updated := false)
        invariant forall i :: slot <= i < MT_MAX_FINGERS ==> current[i] == events[i]
      {
        PassSlotReports(cfg, PassTo(cfg, pad, events, slot), earlier, slot, events[slot]);
        seen := WorkSlot(cfg, slot, seen);
      }
    }
  }

  // What was reported before a pass does not matter to it.
  lemma PassSlotReports(cfg: Config, p: Pass, earlier: seq<Report>, slot: nat, cur: TouchEvent)
    requires slot < |p.pad.slots|
    ensures PassSlot(cfg, p.(reports := earlier + p.reports), slot, cur)
         == (var r := PassSlot(cfg, p, slot, cur); r.(reports := earlier + r.reports))
  {
    hide SlotStep;
  }
}
