/** Model of the accessibility service CursorService: the clamped cursor on
    the target display, the stroke shapes it dispatches for clicks, long
    presses, scrolls and pinches, the choice of the target display, and the
    touch listener of its on-phone touchpad overlay. */
module CursorServiceModel {
  import opened Events

  /** Display.DEFAULT_DISPLAY. */
  const DefaultDisplay: int := 0
  /** Largest per-frame delta on one axis that still counts as a tap. */
  const MoveThreshold: real := 5.0
  /** Cursor pixels per touchpad pixel. */
  const MoveGain: real := 2.5
  /** Change of finger distance that makes a two-pointer MOVE a zoom step. */
  const PinchThreshold: real := 50.0
  /** The cursor stays this far inside the right and bottom display edges. */
  const CursorMargin: real := 5.0
  /** Stroke length per touchpad pixel of a two-finger scroll. */
  const ScrollGain: real := 10.0
  const ClickMs: nat := 50
  const LongPressMs: nat := 600
  const ScrollMs: nat := 100
  const PinchMs: nat := 200
  /** Horizontal distance from the cursor at which both pinch strokes start. */
  const PinchStartOffset: real := 100.0
  /** Where the pinch strokes end, measured from the cursor. */
  const ZoomInEndOffset: real := 10.0
  const ZoomOutEndOffset: real := 200.0

  /** The real metrics of a display. */
  datatype Metrics = Metrics(width: int, height: int)

  /** Metrics for which the clamp ranges [0, size - 5] are non-empty
      (coerceIn rejects an empty range). */
  type Bounds = m: Metrics | m.width >= 5 && m.height >= 5 witness Metrics(5, 5)

  function MaxX(b: Bounds): real { b.width as real - CursorMargin }

  function MaxY(b: Bounds): real { b.height as real - CursorMargin }

  /** The cursor lies on the display, CursorMargin away from its far edges. */
  predicate InBounds(p: Point, b: Bounds)
  {
    0.0 <= p.x <= MaxX(b) && 0.0 <= p.y <= MaxY(b)
  }

  // ---------------------------------------------------------------------
  // Cursor model

  /** Kotlin's coerceIn on a non-empty range. */
  function CoerceIn(v: real, lo: real, hi: real): (r: real)
    requires lo <= hi
    ensures lo <= r <= hi
    ensures lo <= v <= hi ==> r == v
    ensures v < lo ==> r == lo
    ensures hi < v ==> r == hi
  {
    if v < lo then lo else if hi < v then hi else v
  }

  /** The cursor after updateCursorPosition(dx, dy), given the result of
      looking up the target display (None when the lookup fails). */
  function MovedCursor(c: Point, dx: real, dy: real, display: Option<Bounds>): (r: Point)
    ensures display.None? ==> r == c
    ensures display.Some? ==> InBounds(r, display.value)
    ensures display.Some? && 0.0 <= c.x + dx <= MaxX(display.value) ==> r.x == c.x + dx
    ensures display.Some? && 0.0 <= c.y + dy <= MaxY(display.value) ==> r.y == c.y + dy
    ensures display.Some? && c.x + dx < 0.0 ==> r.x == 0.0
    ensures display.Some? && c.y + dy < 0.0 ==> r.y == 0.0
    ensures display.Some? && MaxX(display.value) < c.x + dx ==> r.x == MaxX(display.value)
    ensures display.Some? && MaxY(display.value) < c.y + dy ==> r.y == MaxY(display.value)
  {
    match display
    case None => c
    case Some(b) => Point(CoerceIn(c.x + dx, 0.0, MaxX(b)), CoerceIn(c.y + dy, 0.0, MaxY(b)))
  }

  /** The target display: the last listed display when there is more than
      one, otherwise the default display. */
  function SelectDisplay(displays: seq<int>): (r: int)
    ensures r == DefaultDisplay || r in displays
    ensures |displays| > 1 ==> r == displays[|displays| - 1]
    ensures |displays| <= 1 ==> r == DefaultDisplay
  {
    if |displays| > 1 then displays[|displays| - 1] else DefaultDisplay
  }

  // ---------------------------------------------------------------------
  // Stroke synthesis

  /** One stroke of a dispatched gesture: a straight path, its start time
      and its duration, both in milliseconds. */
  datatype Stroke = Stroke(from: Point, to: Point, startTime: nat, duration: nat)

  /** The strokes of one dispatchGesture call and the display they go to. */
  datatype GestureDescription = GestureDescription(strokes: seq<Stroke>, displayId: int)

  /** A zero-length stroke at `at`, starting at once and lasting `duration`. */
  predicate IsPress(s: Stroke, at: Point, duration: nat)
  {
    s.from == at && s.to == at && s.startTime == 0 && s.duration == duration
  }

  /** Horizontal distance between two points. */
  function Gap(a: Point, b: Point): real
  {
    Abs(a.x - b.x)
  }

  function ClickAt(p: Point, displayId: int): (g: GestureDescription)
    ensures g.displayId == displayId
    ensures |g.strokes| == 1 && IsPress(g.strokes[0], p, ClickMs)
  {
    GestureDescription([Stroke(p, p, 0, ClickMs)], displayId)
  }

  function RightClickAt(p: Point, displayId: int): (g: GestureDescription)
    ensures g.displayId == displayId
    ensures |g.strokes| == 1 && IsPress(g.strokes[0], p, LongPressMs)
  {
    GestureDescription([Stroke(p, p, 0, LongPressMs)], displayId)
  }

  function ScrollVertical(c: Point, distance: real, displayId: int): (g: GestureDescription)
    ensures g.displayId == displayId && |g.strokes| == 1
    ensures g.strokes[0].from == c
    ensures g.strokes[0].to.x == c.x
    ensures g.strokes[0].to.y - g.strokes[0].from.y == ScrollGain * distance
    ensures g.strokes[0].startTime == 0 && g.strokes[0].duration == ScrollMs
  {
    GestureDescription([Stroke(c, Point(c.x, c.y + distance * ScrollGain), 0, ScrollMs)], displayId)
  }

  function PinchZoom(c: Point, zoomIn: bool, displayId: int): (g: GestureDescription)
    ensures g.displayId == displayId && |g.strokes| == 2
    ensures forall s :: s in g.strokes ==>
      s.startTime == 0 && s.duration == PinchMs && s.from.y == c.y && s.to.y == c.y
    ensures g.strokes[0].from.x == c.x - PinchStartOffset
    ensures g.strokes[0].to.x == c.x - (if zoomIn then ZoomInEndOffset else ZoomOutEndOffset)
    ensures g.strokes[0].from.x + g.strokes[1].from.x == 2.0 * c.x
    ensures g.strokes[0].to.x + g.strokes[1].to.x == 2.0 * c.x
    ensures Gap(g.strokes[0].from, g.strokes[1].from) == 2.0 * PinchStartOffset
    ensures Gap(g.strokes[0].to, g.strokes[1].to)
            == 2.0 * (if zoomIn then ZoomInEndOffset else ZoomOutEndOffset)
    ensures zoomIn <==> Gap(g.strokes[0].to, g.strokes[1].to) < Gap(g.strokes[0].from, g.strokes[1].from)
  {
    var end := if zoomIn then ZoomInEndOffset else ZoomOutEndOffset;
    var left := Stroke(Point(c.x - PinchStartOffset, c.y), Point(c.x - end, c.y), 0, PinchMs);
    var right := Stroke(Point(c.x + PinchStartOffset, c.y), Point(c.x + end, c.y), 0, PinchMs);
    GestureDescription([left, right], displayId)
  }

  /** The gestures the service dispatches for one action; cursor motion is
      applied to the cursor and dispatches nothing. */
  function Dispatch(a: Action, cursor: Point, displayId: int): (r: seq<GestureDescription>)
    ensures a.MoveCursor? <==> r == []
    ensures !a.MoveCursor? ==> |r| == 1 && r[0].displayId == displayId
    ensures a.Click? ==>
      |r[0].strokes| == 1 && IsPress(r[0].strokes[0], cursor, if a.right then LongPressMs else ClickMs)
    ensures a.Scroll? ==>
      |r[0].strokes| == 1 && r[0].strokes[0].from == cursor
      && r[0].strokes[0].to == Point(cursor.x, cursor.y + ScrollGain * a.dy)
    ensures a.Zoom? ==>
      |r[0].strokes| == 2
      && (a.zoomIn <==> Gap(r[0].strokes[0].to, r[0].strokes[1].to) < Gap(r[0].strokes[0].from, r[0].strokes[1].from))
  {
    match a
    case MoveCursor(_, _) => []
    case Click(right) => [if right then RightClickAt(cursor, displayId) else ClickAt(cursor, displayId)]
    case Scroll(dy) => [ScrollVertical(cursor, dy, displayId)]
    case Zoom(zoomIn) => [PinchZoom(cursor, zoomIn, displayId)]
  }

  function DispatchAll(actions: seq<Action>, cursor: Point, displayId: int): seq<GestureDescription>
  {
    if actions == [] then [] else Dispatch(actions[0], cursor, displayId) + DispatchAll(actions[1..], cursor, displayId)
  }

  // ---------------------------------------------------------------------
  // Touch listener

  /** The fields of the service that the touch listener reads and writes. */
  datatype Service = Service(
    cursor: Point,
    last: Point,
    isMoving: bool,
    maxPointersInGesture: int,
    isMinimized: bool,
    initialPinchDistance: real,
    targetDisplayId: int)

  function Initial(): Service
  {
    Service(Point(500.0, 500.0), Point(0.0, 0.0), false, 0, false, 0.0, DefaultDisplay)
  }

  /** What the listener does with one event: the new fields, whether the
      event was consumed, and the actions it dispatched at the cursor. */
  datatype Outcome = Outcome(next: Service, consumed: bool, actions: seq<Action>)

  /** The touchpad's touch listener, given the lookup of the target display
      that updateCursorPosition performs. */
  function Step(s: Service, ev: MotionEvent, display: Option<Bounds>): (o: Outcome)
    ensures o.consumed == !s.isMinimized
    ensures s.isMinimized ==> o.next == s && o.actions == []
    ensures |o.actions| <= 1
    ensures o.next.isMinimized == s.isMinimized && o.next.targetDisplayId == s.targetDisplayId
    ensures o.next.cursor != s.cursor ==>
      ev.kind == Move && ev.pointerCount == 1 && s.maxPointersInGesture == 1 && display.Some?
    ensures display.Some? && InBounds(s.cursor, display.value) ==> InBounds(o.next.cursor, display.value)
    ensures ev.kind != Down && s.isMoving ==> o.next.isMoving
    ensures forall a :: a in o.actions && a.Click? ==>
      ev.kind == Up && !s.isMoving && a.right == (s.maxPointersInGesture == 2)
    ensures forall a :: a in o.actions ==> !a.MoveCursor?
  {
    if s.isMinimized then Outcome(s, false, [])
    else match ev.kind
      case Down =>
        Outcome(s.(last := Point(ev.x, ev.y), isMoving := false, maxPointersInGesture := 1), true, [])
      case PointerDown =>
        var baseline := if ev.pointerCount == 2 then ev.pairDistance else s.initialPinchDistance;
        Outcome(s.(maxPointersInGesture := ev.pointerCount, initialPinchDistance := baseline), true, [])
      case Move =>
        var dx := ev.x - s.last.x;
        var dy := ev.y - s.last.y;
        var s' := s.(last := Point(ev.x, ev.y));
        if ev.pointerCount == 1 && s.maxPointersInGesture == 1 then
          var moving := s.isMoving || Abs(dx) > MoveThreshold || Abs(dy) > MoveThreshold;
          Outcome(s'.(isMoving := moving, cursor := MovedCursor(s.cursor, dx * MoveGain, dy * MoveGain, display)), true, [])
        else if ev.pointerCount == 2 then
          if Abs(ev.pairDistance - s.initialPinchDistance) > PinchThreshold then
            Outcome(s'.(initialPinchDistance := ev.pairDistance), true, [Zoom(ev.pairDistance > s.initialPinchDistance)])
          else
            Outcome(s', true, [Scroll(dy)])
        else
          Outcome(s', true, [])
      case Up =>
        var click :=
          if !s.isMoving && s.maxPointersInGesture == 1 then [Click(false)]
          else if !s.isMoving && s.maxPointersInGesture == 2 then [Click(true)]
          else [];
        Outcome(s.(maxPointersInGesture := 0), true, click)
      case _ => Outcome(s, true, [])
  }

  /** The state reached and the actions dispatched over a sequence of events. */
  datatype Trace = Trace(final: Service, actions: seq<Action>)

  function Run(s: Service, evs: seq<MotionEvent>, display: Option<Bounds>): Trace
    decreases |evs|
  {
    if evs == [] then Trace(s, [])
    else
      var o := Step(s, evs[0], display);
      var t := Run(o.next, evs[1..], display);
      Trace(t.final, o.actions + t.actions)
  }

  /** The touchpad overlay's state in the service, updated in place. */
  class CursorService {
    var cursorX: real
    var cursorY: real
    var lastX: real
    var lastY: real
    var isMoving: bool
    var maxPointersInGesture: int
    var isMinimized: bool
    var initialPinchDistance: real
    var targetDisplayId: int

    ghost function State(): Service
      reads this
    {
      Service(Point(cursorX, cursorY), Point(lastX, lastY), isMoving, maxPointersInGesture,
              isMinimized, initialPinchDistance, targetDisplayId)
    }

    constructor ()
      ensures State() == Initial()
    {
      cursorX, cursorY := 500.0, 500.0;
      lastX, lastY := 0.0, 0.0;
      isMoving := false;
      maxPointersInGesture := 0;
      isMinimized := false;
      initialPinchDistance := 0.0;
      targetDisplayId := DefaultDisplay;
    }

    /** The minimise button of the overlay. */
    method ToggleMinimized()
      modifies this`isMinimized
      ensures isMinimized == !old(isMinimized)
    {
      isMinimized := !isMinimized;
    }

    /** Re-selects the target display from the current display list. */
    method UpdateDisplayAndCursor(displays: seq<int>)
      modifies this`targetDisplayId
      ensures targetDisplayId == SelectDisplay(displays)
    {
      targetDisplayId := if |displays| > 1 then displays[|displays| - 1] else DefaultDisplay;
    }

    method UpdateCursorPosition(dx: real, dy: real, display: Option<Bounds>)
      modifies this`cursorX, this`cursorY
      ensures Point(cursorX, cursorY) == MovedCursor(old(Point(cursorX, cursorY)), dx, dy, display)
    {
      if display.None? {
        return;
      }
      var metrics := display.value;
      cursorX := CoerceIn(cursorX + dx, 0.0, metrics.width as real - CursorMargin);
      cursorY := CoerceIn(cursorY + dy, 0.0, metrics.height as real - CursorMargin);
    }

    /** The touch listener: updates the gesture fields and the cursor, and
        returns whether the event was consumed and the gestures dispatched. */
    method OnTouch(ev: MotionEvent, display: Option<Bounds>) returns (consumed: bool, dispatched: seq<GestureDescription>)
      modifies this
      ensures State() == Step(old(State()), ev, display).next
      ensures consumed == Step(old(State()), ev, display).consumed
      ensures dispatched == DispatchAll(Step(old(State()), ev, display).actions, old(State()).cursor, targetDisplayId)
    {
      if isMinimized {
        return false, [];
      }
      consumed, dispatched := true, [];
      match ev.kind {
        case Down =>
          lastX, lastY := ev.x, ev.y;
          isMoving, maxPointersInGesture := false, 1;
        case PointerDown =>
          maxPointersInGesture := ev.pointerCount;
          if ev.pointerCount == 2 {
            initialPinchDistance := ev.pairDistance;
          }
        case Move =>
          var deltaX := ev.x - lastX;
          var deltaY := ev.y - lastY;
          if ev.pointerCount == 1 && maxPointersInGesture == 1 {
            if Abs(deltaX) > MoveThreshold || Abs(deltaY) > MoveThreshold {
              isMoving := true;
            }
            UpdateCursorPosition(deltaX * MoveGain, deltaY * MoveGain, display);
          } else if ev.pointerCount == 2 {
            var currentDistance := ev.pairDistance;
            if Abs(currentDistance - initialPinchDistance) > PinchThreshold {
              dispatched := [PinchZoom(Point(cursorX, cursorY), currentDistance > initialPinchDistance, targetDisplayId)];
              initialPinchDistance := currentDistance;
            } else {
              dispatched := [ScrollVertical(Point(cursorX, cursorY), deltaY, targetDisplayId)];
            }
          }
          lastX, lastY := ev.x, ev.y;
        case Up =>
          if !isMoving && maxPointersInGesture == 1 {
            dispatched := [ClickAt(Point(cursorX, cursorY), targetDisplayId)];
          } else if !isMoving && maxPointersInGesture == 2 {
            dispatched := [RightClickAt(Point(cursorX, cursorY), targetDisplayId)];
          }
          maxPointersInGesture := 0;
        case _ =>
      }
    }
  }
}
