/** The wheel accumulator: pixels go in, whole cell steps come out, and nothing is lost as long as the
    direction does not change. Arithmetic is over the reals; rounding is not modelled. */
module WheelSteps {
  import opened Arithmetic

  const WHEEL_REPORTS_PER_BURST := 3

  function Sign(r: real): int { if r > 0.0 then 1 else if r < 0.0 then -1 else 0 }

  /** Truncation towards zero. */
  function Trunc(r: real): int { if r >= 0.0 then r.Floor else -((-r).Floor) }

  function Abs(n: int): nat { if n < 0 then -n else n }

  /** DOM delta modes: 1 is lines, 2 is pages, anything else pixels. */
  function DeltaPixels(delta: real, mode: int, cellSize: real, span: int): real {
    var size, count := MaxReal(1.0, cellSize), MaxInt(1, span);
    if mode == 1 then delta * size else if mode == 2 then delta * count as real * size else delta
  }

  function Cap(span: int): int { MaxInt(1, MinInt(WHEEL_REPORTS_PER_BURST, if span == 0 then 24 else span)) }

  function Size(cellSize: real): real { MaxReal(1.0, cellSize) }

  /** Steps of one event and the remainder it leaves. */
  function AxisSteps(pending: real, delta: real, cellSize: real, span: int): int {
    if delta == 0.0 then 0 else Capped(Trunc(Kept(pending, delta) / Size(cellSize)), Cap(span))
  }

  function Capped(raw: int, cap: int): int { (if raw < 0 then -1 else 1) * MinInt(Abs(raw), cap) }

  /** The pixels counted: a change of direction drops the remainder. */
  function Kept(pending: real, delta: real): real {
    (if pending != 0.0 && Sign(pending) != Sign(delta) then 0.0 else pending) + delta
  }

  /** The pixels those steps stand for. */
  function StepPixels(pending: real, delta: real, cellSize: real, span: int): real {
    AxisSteps(pending, delta, cellSize, span) as real * Size(cellSize)
  }

  function AxisPending(pending: real, delta: real, cellSize: real, span: int): real {
    if delta == 0.0 then pending else Kept(pending, delta) - StepPixels(pending, delta, cellSize, span)
  }

  // ---------------------------------------------------------------------------
  // One event.
  // ---------------------------------------------------------------------------

  lemma TruncBounds(r: real)
    ensures r >= 0.0 ==> 0 <= Trunc(r) && Trunc(r) as real <= r < Trunc(r) as real + 1.0
    ensures r <= 0.0 ==> Trunc(r) <= 0 && Trunc(r) as real - 1.0 < r <= Trunc(r) as real
  {
  }

  lemma Scale(a: real, b: real, c: real)
    requires c > 0.0
    ensures a <= b ==> a * c <= b * c
    ensures a < b ==> a * c < b * c
  {
  }

  lemma Divide(r: real, size: real)
    requires size > 0.0
    ensures (r / size) * size == r
    ensures r >= 0.0 ==> r / size >= 0.0
    ensures r <= 0.0 ==> r / size <= 0.0
  {
  }

  /** What whole steps take from a forward amount: never more than it, all but a part of a cell if they may. */
  lemma Takes(kept: real, size: real, cap: int)
    requires kept >= 0.0 && size >= 1.0 && cap >= 1
    ensures var raw := Trunc(kept / size);
      var steps := MinInt(raw, cap);
      && 0 <= steps <= raw && steps as real * size <= kept
      && (raw <= cap ==> kept - steps as real * size < size)
      && (raw > cap ==> steps == cap)
  {
    Divide(kept, size);
    TruncBounds(kept / size);
    var raw := Trunc(kept / size);
    var steps := MinInt(raw, cap);
    Scale(steps as real, kept / size, size);
    Scale(kept / size, raw as real + 1.0, size);
    assert (raw as real + 1.0) * size == raw as real * size + size;
    if raw <= cap {
      assert steps == raw && kept < raw as real * size + size;
    }
  }

  lemma NegDivide(r: real, size: real)
    requires size > 0.0
    ensures (-r) / size == -(r / size)
  {
  }

  lemma TruncNeg(r: real)
    ensures Trunc(-r) == -Trunc(r)
  {
  }

  lemma NegProduct(n: int, size: real)
    ensures (-n) as real * size == -(n as real * size)
  {
  }

  lemma CappedNeg(raw: int, cap: int)
    requires cap >= 1
    ensures Capped(-raw, cap) == -Capped(raw, cap)
  {
  }

  lemma StepsMirror(pending: real, delta: real, cellSize: real, span: int)
    ensures AxisSteps(-pending, -delta, cellSize, span) == -AxisSteps(pending, delta, cellSize, span)
  {
    var kept, size := Kept(pending, delta), Size(cellSize);
    assert Kept(-pending, -delta) == -kept;
    NegDivide(kept, size);
    hide Trunc, Kept, Size, Capped;
    TruncNeg(kept / size);
    CappedNeg(Trunc(kept / size), Cap(span));
  }

  /** Steps and remainder are symmetric in the direction. */
  lemma Mirror(pending: real, delta: real, cellSize: real, span: int)
    ensures AxisSteps(-pending, -delta, cellSize, span) == -AxisSteps(pending, delta, cellSize, span)
    ensures AxisPending(-pending, -delta, cellSize, span) == -AxisPending(pending, delta, cellSize, span)
    ensures StepPixels(-pending, -delta, cellSize, span) == -StepPixels(pending, delta, cellSize, span)
  {
    assert Kept(-pending, -delta) == -Kept(pending, delta);
    hide AxisSteps, Kept, Size;
    StepsMirror(pending, delta, cellSize, span);
    NegProduct(AxisSteps(pending, delta, cellSize, span), Size(cellSize));
  }

  /** At most three steps, in the direction of the delta; pixels are conserved; the remainder keeps the
      direction, and is less than a cell unless the burst was capped. */
  lemma ForwardEvent(pending: real, delta: real, cellSize: real, span: int)
    requires delta > 0.0
    ensures var steps, next := AxisSteps(pending, delta, cellSize, span), AxisPending(pending, delta, cellSize, span);
      && 0 <= steps <= 3
      && next >= 0.0
      && (if pending >= 0.0 then pending else 0.0) + delta == StepPixels(pending, delta, cellSize, span) + next
      && (steps < Cap(span) ==> next < Size(cellSize))
  {
    Takes(Kept(pending, delta), Size(cellSize), Cap(span));
  }

  lemma BackwardEvent(pending: real, delta: real, cellSize: real, span: int)
    requires delta < 0.0
    ensures var steps, next := AxisSteps(pending, delta, cellSize, span), AxisPending(pending, delta, cellSize, span);
      && -3 <= steps <= 0
      && next <= 0.0
      && (if pending <= 0.0 then pending else 0.0) + delta == StepPixels(pending, delta, cellSize, span) + next
      && (-steps < Cap(span) ==> next > -Size(cellSize))
  {
    ForwardEvent(-pending, -delta, cellSize, span);
    Mirror(-pending, -delta, cellSize, span);
  }

  lemma NoEvent(pending: real, cellSize: real, span: int)
    ensures StepPixels(pending, 0.0, cellSize, span) == 0.0 && AxisPending(pending, 0.0, cellSize, span) == pending
  {
  }

  /** A line is one cell, at least a pixel, and a page as many lines as the view has, at least one. */
  lemma ModesAgree(delta: real, cellSize: real, span: int)
    ensures cellSize >= 1.0 ==> DeltaPixels(delta, 1, cellSize, span) == delta * cellSize
    ensures cellSize <= 1.0 ==> DeltaPixels(delta, 1, cellSize, span) == delta
    ensures span >= 1 ==> DeltaPixels(delta, 2, cellSize, span) == DeltaPixels(delta * span as real, 1, cellSize, span)
    ensures span <= 1 ==> DeltaPixels(delta, 2, cellSize, span) == DeltaPixels(delta, 1, cellSize, span)
    ensures forall mode :: mode != 1 && mode != 2 ==> DeltaPixels(delta, mode, cellSize, span) == delta
  {
  }

  // ---------------------------------------------------------------------------
  // Any run in one direction.
  // ---------------------------------------------------------------------------

  datatype Event = Event(delta: real, cellSize: real, span: int)

  function Remainder(start: real, events: seq<Event>): real {
    if events == [] then start
    else
      var last := events[|events| - 1];
      AxisPending(Remainder(start, events[..|events| - 1]), last.delta, last.cellSize, last.span)
  }

  function TotalDelta(events: seq<Event>): real {
    if events == [] then 0.0 else TotalDelta(events[..|events| - 1]) + events[|events| - 1].delta
  }

  /** The pixels the emitted steps stand for. */
  function Emitted(start: real, events: seq<Event>): real {
    if events == [] then 0.0
    else
      var last := events[|events| - 1];
      var pending := Remainder(start, events[..|events| - 1]);
      Emitted(start, events[..|events| - 1])
      + StepPixels(pending, last.delta, last.cellSize, last.span)
  }

  /** All deltas point one way; zero deltas may come in between. */
  ghost predicate OneWay(events: seq<Event>, forward: bool) {
    forall k :: 0 <= k < |events| ==> if forward then events[k].delta >= 0.0 else events[k].delta <= 0.0
  }

  /** Over any run of events without a reset or a change of direction, the wheel's travel is the emitted
      steps times their cell sizes plus the remainder, and the remainder never points the other way. */
  lemma {:induction false} WheelConserves(start: real, events: seq<Event>, forward: bool)
    requires OneWay(events, forward) && if forward then start >= 0.0 else start <= 0.0
    ensures start + TotalDelta(events) == Emitted(start, events) + Remainder(start, events)
    ensures if forward then Remainder(start, events) >= 0.0 else Remainder(start, events) <= 0.0
  {
    hide StepPixels, AxisPending, AxisSteps, Size, Cap;
    if events != [] {
      var front, last := events[..|events| - 1], events[|events| - 1];
      WheelConserves(start, front, forward);
      var pending := Remainder(start, front);
      if last.delta > 0.0 {
        ForwardEvent(pending, last.delta, last.cellSize, last.span);
      } else if last.delta < 0.0 {
        BackwardEvent(pending, last.delta, last.cellSize, last.span);
      } else {
        NoEvent(pending, last.cellSize, last.span);
      }
    }
  }

  // ---------------------------------------------------------------------------
  // The accumulator.
  // ---------------------------------------------------------------------------

  datatype Button = WheelUp | WheelDown | WheelLeft | WheelRight

  datatype Report = Report(button: Button, steps: nat)

  /** The steps reported along one axis, forward ones positive. */
  function Net(reports: seq<Report>, vertical: bool): int {
    if reports == [] then 0
    else
      var last := reports[|reports| - 1];
      var steps: int := last.steps;
      Net(reports[..|reports| - 1], vertical)
      + match last.button
        case WheelDown => if vertical then steps else 0
        case WheelUp => if vertical then -steps else 0
        case WheelRight => if vertical then 0 else steps
        case WheelLeft => if vertical then 0 else -steps
  }

  /** Reporting a non-zero step adds it on its axis and nothing on the other. */
  lemma NetMore(reports: seq<Report>, vertical: bool, step: int)
    requires step != 0
    ensures var more := reports + [ReportOf(vertical, step)];
      Net(more, vertical) == Net(reports, vertical) + step && Net(more, !vertical) == Net(reports, !vertical)
  {
    assert (reports + [ReportOf(vertical, step)])[..|reports|] == reports;
  }

  function ReportOf(vertical: bool, step: int): Report {
    if vertical then Report(if step < 0 then WheelUp else WheelDown, Abs(step))
    else Report(if step < 0 then WheelLeft else WheelRight, Abs(step))
  }

  class WheelStepAccumulator {
    var pendingY: real
    var pendingX: real

    constructor ()
      ensures pendingY == 0.0 && pendingX == 0.0
    {
      pendingY, pendingX := 0.0, 0.0;
    }

    method Reset()
      modifies this
      ensures pendingY == 0.0 && pendingX == 0.0
    {
      pendingY := 0.0;
      pendingX := 0.0;
    }

    method ConsumeAxis(vertical: bool, deltaPx: real, cellSize: real, span: int) returns (steps: int)
      modifies this
      ensures steps == AxisSteps(if vertical then old(pendingY) else old(pendingX), deltaPx, cellSize, span)
      ensures pendingY == if vertical then AxisPending(old(pendingY), deltaPx, cellSize, span) else old(pendingY)
      ensures pendingX == if vertical then old(pendingX) else AxisPending(old(pendingX), deltaPx, cellSize, span)
    {
      hide Trunc, MinInt, Abs;
      if deltaPx == 0.0 { return 0; }
      var size := MaxReal(1.0, cellSize);
      var pending := if vertical then pendingY else pendingX;
      if pending != 0.0 && Sign(pending) != Sign(deltaPx) { pending := 0.0; }
      pending := pending + deltaPx;
      var rawSteps := Trunc(pending / size);
      var cap := MaxInt(1, MinInt(WHEEL_REPORTS_PER_BURST, if span == 0 then 24 else span));
      steps := (if rawSteps < 0 then -1 else 1) * MinInt(Abs(rawSteps), cap);
      pending := pending - steps as real * size;
      if vertical { pendingY := pending; } else { pendingX := pending; }
    }

    /** The reports of one wheel event, the vertical one first. */
    method Consume(deltaX: real, deltaY: real, mode: int, cellWidth: real, cellHeight: real, cols: int, rows: int)
      returns (reports: seq<Report>)
      modifies this
      ensures |reports| <= 2 && forall k :: 0 <= k < |reports| ==> 1 <= reports[k].steps <= 3
      ensures |reports| == 2 ==> reports[0].button in {WheelUp, WheelDown} && reports[1].button in {WheelLeft, WheelRight}
      ensures Net(reports, true) == AxisSteps(old(pendingY), DeltaPixels(deltaY, mode, cellHeight, rows), cellHeight, rows)
      ensures Net(reports, false) == AxisSteps(old(pendingX), DeltaPixels(deltaX, mode, cellWidth, cols), cellWidth, cols)
      ensures pendingY == AxisPending(old(pendingY), DeltaPixels(deltaY, mode, cellHeight, rows), cellHeight, rows)
      ensures pendingX == AxisPending(old(pendingX), DeltaPixels(deltaX, mode, cellWidth, cols), cellWidth, cols)
    {
      reports := [];
      var dy, dx := DeltaPixels(deltaY, mode, cellHeight, rows), DeltaPixels(deltaX, mode, cellWidth, cols);
      StepBounds(pendingY, dy, cellHeight, rows);
      StepBounds(pendingX, dx, cellWidth, cols);
      hide AxisSteps, AxisPending, DeltaPixels, Net;
      NoReports();
      var stepY := ConsumeAxis(true, dy, cellHeight, rows);
      if stepY != 0 {
        NetMore(reports, true, stepY);
        reports := reports + [Report(if stepY < 0 then WheelUp else WheelDown, Abs(stepY))];
      }
      var stepX := ConsumeAxis(false, dx, cellWidth, cols);
      if stepX != 0 {
        NetMore(reports, false, stepX);
        reports := reports + [Report(if stepX < 0 then WheelLeft else WheelRight, Abs(stepX))];
      }
    }
  }

  lemma NoReports()
    ensures Net([], true) == 0 && Net([], false) == 0
  {
  }

  lemma StepBounds(pending: real, delta: real, cellSize: real, span: int)
    ensures var steps := AxisSteps(pending, delta, cellSize, span);
      -3 <= steps <= 3 && (delta >= 0.0 ==> steps >= 0) && (delta <= 0.0 ==> steps <= 0)
  {
    if delta > 0.0 { ForwardEvent(pending, delta, cellSize, span); }
    if delta < 0.0 { BackwardEvent(pending, delta, cellSize, span); }
  }
}
