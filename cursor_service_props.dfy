/** What the CursorService touch listener does with single events and with
    whole gestures. */
module CursorServiceProperties {
  import opened Events
  import opened CursorServiceModel

  // ---------------------------------------------------------------------
  // Single events

  /** ACTION_DOWN starts a gesture: the last point is the touch point, the
      gesture is still and has one pointer. */
  lemma DownStartsGesture(s: Service, ev: MotionEvent, display: Option<Bounds>)
    requires !s.isMinimized && ev.kind == Down
    ensures var o := Step(s, ev, display);
      o.next.last == Here(ev) && !o.next.isMoving && o.next.maxPointersInGesture == 1
      && o.next.cursor == s.cursor && o.actions == []
  {
  }

  /** ACTION_POINTER_DOWN sets the pointer count of the gesture to the
      current count, also when that is lower than before, and captures the
      pinch baseline only when exactly two pointers are down. */
  lemma PointerDownAssignsCount(s: Service, ev: MotionEvent, display: Option<Bounds>)
    requires !s.isMinimized && ev.kind == PointerDown
    ensures var o := Step(s, ev, display);
      o.next.maxPointersInGesture == ev.pointerCount
      && o.next.initialPinchDistance == (if ev.pointerCount == 2 then ev.pairDistance else s.initialPinchDistance)
      && o.next.isMoving == s.isMoving && o.next.last == s.last && o.actions == []
  {
  }

  /** Every ACTION_MOVE leaves the last point at the event's point. */
  lemma MoveRecordsLastPoint(s: Service, ev: MotionEvent, display: Option<Bounds>)
    requires !s.isMinimized && ev.kind == Move
    ensures Step(s, ev, display).next.last == Here(ev)
  {
  }

  /** A one-pointer MOVE in a one-pointer gesture moves the cursor by 2.5
      times the delta from the last point, clamped, and marks the gesture as
      moving once the delta exceeds 5 on either axis; nothing is dispatched. */
  lemma OnePointerMoveDrivesCursor(s: Service, ev: MotionEvent, display: Option<Bounds>)
    requires !s.isMinimized && ev.kind == Move && ev.pointerCount == 1 && s.maxPointersInGesture == 1
    ensures var dx, dy := ev.x - s.last.x, ev.y - s.last.y;
      var o := Step(s, ev, display);
      o.next.cursor == MovedCursor(s.cursor, MoveGain * dx, MoveGain * dy, display)
      && o.next.isMoving == (s.isMoving || Abs(dx) > MoveThreshold || Abs(dy) > MoveThreshold)
      && o.actions == []
  {
  }

  /** A two-pointer MOVE dispatches exactly one action: a zoom step when the
      finger distance moved more than 50 from the baseline (which then
      becomes the current distance), otherwise a scroll by the primary
      pointer's vertical delta, however small. */
  lemma TwoPointerMoveZoomsOrScrolls(s: Service, ev: MotionEvent, display: Option<Bounds>)
    requires !s.isMinimized && ev.kind == Move && ev.pointerCount == 2
    ensures var o := Step(s, ev, display);
      var d, b := ev.pairDistance, s.initialPinchDistance;
      |o.actions| == 1
      && (Abs(d - b) > PinchThreshold ==> o.actions[0] == Zoom(d > b) && o.next.initialPinchDistance == d)
      && (Abs(d - b) <= PinchThreshold ==> o.actions[0] == Scroll(ev.y - s.last.y) && o.next.initialPinchDistance == b)
      && o.next.cursor == s.cursor && o.next.isMoving == s.isMoving
  {
  }

  /** After a zoom step, a two-pointer MOVE at the same finger distance
      scrolls instead: one zoom step per threshold crossing. */
  lemma ZoomStepRebaselines(s: Service, ev: MotionEvent, ev2: MotionEvent, display: Option<Bounds>)
    requires !s.isMinimized && ev.kind == Move && ev.pointerCount == 2
    requires Abs(ev.pairDistance - s.initialPinchDistance) > PinchThreshold
    requires ev2.kind == Move && ev2.pointerCount == 2 && ev2.pairDistance == ev.pairDistance
    ensures Step(Step(s, ev, display).next, ev2, display).actions == [Scroll(ev2.y - ev.y)]
  {
  }

  /** ACTION_UP clicks for a still one-pointer gesture, long-presses for a
      still two-pointer gesture, does nothing otherwise, and resets the
      pointer count. */
  lemma UpClassifiesTap(s: Service, ev: MotionEvent, display: Option<Bounds>)
    requires !s.isMinimized && ev.kind == Up
    ensures var o := Step(s, ev, display);
      (o.actions == [Click(false)] <==> !s.isMoving && s.maxPointersInGesture == 1)
      && (o.actions == [Click(true)] <==> !s.isMoving && s.maxPointersInGesture == 2)
      && (o.actions == [] <==> s.isMoving || (s.maxPointersInGesture != 1 && s.maxPointersInGesture != 2))
      && o.next.maxPointersInGesture == 0 && o.next.isMoving == s.isMoving
  {
  }

  /** ACTION_CANCEL (like every action the listener does not name) changes
      nothing and dispatches nothing, although it is consumed. */
  lemma CancelIsIgnored(s: Service, ev: MotionEvent, display: Option<Bounds>)
    requires !s.isMinimized && ev.kind == Cancel
    ensures Step(s, ev, display) == Outcome(s, true, [])
  {
  }

  /** With zoomIn derived from growing finger distance, the dispatched pinch
      strokes end closer together than they start. */
  lemma SpreadingFingersPinchStrokesTogether(s: Service, ev: MotionEvent, display: Option<Bounds>)
    requires !s.isMinimized && ev.kind == Move && ev.pointerCount == 2
    requires ev.pairDistance > s.initialPinchDistance + PinchThreshold
    ensures var g := DispatchAll(Step(s, ev, display).actions, s.cursor, s.targetDisplayId);
      |g| == 1 && |g[0].strokes| == 2
      && Gap(g[0].strokes[0].to, g[0].strokes[1].to) < Gap(g[0].strokes[0].from, g[0].strokes[1].from)
  {
    var o := Step(s, ev, display);
    assert o.actions == [Zoom(true)];
    assert DispatchAll(o.actions, s.cursor, s.targetDisplayId) == [PinchZoom(s.cursor, true, s.targetDisplayId)];
  }

  // ---------------------------------------------------------------------
  // Sequences of events

  lemma RunCons(s: Service, ev: MotionEvent, rest: seq<MotionEvent>, display: Option<Bounds>)
    ensures var o := Step(s, ev, display);
      var t := Run(o.next, rest, display);
      Run(s, [ev] + rest, display) == Trace(t.final, o.actions + t.actions)
  {
    assert ([ev] + rest)[1..] == rest;
  }

  lemma {:induction false} RunAppend(s: Service, a: seq<MotionEvent>, b: seq<MotionEvent>, display: Option<Bounds>)
    ensures var ta := Run(s, a, display);
      var tb := Run(ta.final, b, display);
      Run(s, a + b, display) == Trace(tb.final, ta.actions + tb.actions)
    decreases |a|
  {
    if a == [] {
      assert a + b == b;
    } else {
      assert (a + b)[0] == a[0];
      assert (a + b)[1..] == a[1..] + b;
      RunAppend(Step(s, a[0], display).next, a[1..], b, display);
    }
  }

  /** While the touchpad is minimised, no event changes anything. */
  lemma {:induction false} MinimizedRunIsInert(s: Service, evs: seq<MotionEvent>, display: Option<Bounds>)
    requires s.isMinimized
    ensures Run(s, evs, display) == Trace(s, [])
    decreases |evs|
  {
    if evs != [] {
      MinimizedRunIsInert(s, evs[1..], display);
    }
  }

  /** Once the cursor is on the display, no sequence of events takes it off. */
  lemma {:induction false} RunKeepsCursorInBounds(s: Service, evs: seq<MotionEvent>, b: Bounds)
    requires InBounds(s.cursor, b)
    ensures InBounds(Run(s, evs, Some(b)).final.cursor, b)
    decreases |evs|
  {
    if evs != [] {
      RunKeepsCursorInBounds(Step(s, evs[0], Some(b)).next, evs[1..], b);
    }
  }

  /** isMoving is sticky until the next ACTION_DOWN (ACTION_UP leaves it
      set), so a gesture that has moved dispatches no click, however many
      fingers it later gains or loses. */
  lemma {:induction false} ServiceMovingSticky(s: Service, evs: seq<MotionEvent>, display: Option<Bounds>)
    requires s.isMoving
    requires forall i :: 0 <= i < |evs| ==> evs[i].kind != Down
    ensures var t := Run(s, evs, display);
      t.final.isMoving && NoClick(t.actions)
    decreases |evs|
  {
    if evs != [] {
      var o := Step(s, evs[0], display);
      assert forall i :: 0 <= i < |evs[1..]| ==> evs[1..][i].kind != Down by {
        forall i | 0 <= i < |evs[1..]| ensures evs[1..][i].kind != Down {
          assert evs[1..][i] == evs[i + 1];
        }
      }
      ServiceMovingSticky(o.next, evs[1..], display);
      var t := Run(o.next, evs[1..], display);
      assert forall i :: 0 <= i < |o.actions| ==> !o.actions[i].Click? by {
        forall i | 0 <= i < |o.actions| ensures !o.actions[i].Click? {
          assert o.actions[i] in o.actions;
        }
      }
      assert forall i :: 0 <= i < |o.actions + t.actions| ==> !(o.actions + t.actions)[i].Click? by {
        forall i | 0 <= i < |o.actions + t.actions| ensures !(o.actions + t.actions)[i].Click? {
          if i >= |o.actions| {
            assert (o.actions + t.actions)[i] == t.actions[i - |o.actions|];
          }
        }
      }
    }
  }

  /** A finger that moves before the second finger lands makes the gesture
      end without any click: DOWN, a one-pointer MOVE further than
      MoveThreshold, a second finger, then UP. */
  lemma MovedBeforeSecondFingerNeverClicks(s: Service, down: MotionEvent, move: MotionEvent,
                                          second: MotionEvent, up: MotionEvent, display: Option<Bounds>)
    requires !s.isMinimized
    requires down.kind == Down && second.kind == PointerDown && second.pointerCount == 2 && up.kind == Up
    requires move.kind == Move && move.pointerCount == 1
    requires Abs(move.x - down.x) > MoveThreshold
    ensures NoClick(Run(s, [down, move, second, up], display).actions)
  {
    var s1 := Step(s, down, display).next;
    var s2 := Step(s1, move, display).next;
    assert s2.isMoving;
    RunCons(s, down, [move, second, up], display);
    RunCons(s1, move, [second, up], display);
    ServiceMovingSticky(s2, [second, up], display);
  }

  /** One-pointer MOVEs, each within MoveThreshold of the previous point on
      both axes. */
  predicate SlowDrag(from: Point, evs: seq<MotionEvent>)
    decreases |evs|
  {
    evs == [] ||
    (evs[0].kind == Move && evs[0].pointerCount == 1
     && Abs(evs[0].x - from.x) <= MoveThreshold && Abs(evs[0].y - from.y) <= MoveThreshold
     && SlowDrag(Here(evs[0]), evs[1..]))
  }

  lemma {:induction false} SlowDragStaysStill(s: Service, evs: seq<MotionEvent>, display: Option<Bounds>)
    requires !s.isMinimized && !s.isMoving && s.maxPointersInGesture == 1
    requires SlowDrag(s.last, evs)
    ensures var t := Run(s, evs, display);
      !t.final.isMinimized && !t.final.isMoving && t.final.maxPointersInGesture == 1 && t.actions == []
    decreases |evs|
  {
    if evs != [] {
      SlowDragStaysStill(Step(s, evs[0], display).next, evs[1..], display);
    }
  }

  /** Movement is judged per event, not from the touch-down point: a drag of
      any length made of small steps still ends in a left click. */
  lemma SlowDragEndsInClick(s: Service, down: MotionEvent, drag: seq<MotionEvent>, up: MotionEvent, display: Option<Bounds>)
    requires !s.isMinimized && down.kind == Down && up.kind == Up
    requires SlowDrag(Here(down), drag)
    ensures Run(s, [down] + drag + [up], display).actions == [Click(false)]
  {
    var s1 := Step(s, down, display).next;
    assert Run(s, [down], display) == Trace(s1, []);
    SlowDragStaysStill(s1, drag, display);
    var s2 := Run(s1, drag, display).final;
    assert Run(s2, [up], display).actions == [Click(false)];
    RunAppend(s, [down], drag, display);
    RunAppend(s, [down] + drag, [up], display);
  }

  /** Two-pointer MOVEs of any kind. */
  predicate TwoPointerMoves(evs: seq<MotionEvent>)
  {
    forall i :: 0 <= i < |evs| ==> evs[i].kind == Move && evs[i].pointerCount == 2
  }

  lemma {:induction false} TwoPointerMovesKeepGesture(s: Service, evs: seq<MotionEvent>, display: Option<Bounds>)
    requires !s.isMinimized && TwoPointerMoves(evs)
    ensures var t := Run(s, evs, display);
      !t.final.isMinimized && t.final.isMoving == s.isMoving
      && t.final.maxPointersInGesture == s.maxPointersInGesture && NoClick(t.actions)
    decreases |evs|
  {
    if evs != [] {
      TwoPointerMovesKeepGesture(Step(s, evs[0], display).next, evs[1..], display);
    }
  }

  /** Two-finger scrolling and pinching never mark the gesture as moving, so
      lifting the fingers afterwards always long-presses at the cursor. */
  lemma TwoFingerGestureEndsInRightClick(s: Service, down: MotionEvent, second: MotionEvent,
                                         moves: seq<MotionEvent>, up: MotionEvent, display: Option<Bounds>)
    requires !s.isMinimized && down.kind == Down && up.kind == Up
    requires second.kind == PointerDown && second.pointerCount == 2
    requires TwoPointerMoves(moves)
    ensures var t := Run(s, [down, second] + moves + [up], display);
      t.actions != [] && Last(t.actions) == Click(true) && NoClick(t.actions[..|t.actions| - 1])
  {
    var s1 := Step(s, down, display).next;
    var s2 := Step(s1, second, display).next;
    assert [down, second][1..] == [second];
    assert Run(s1, [second], display) == Trace(s2, []);
    assert Run(s, [down, second], display) == Trace(s2, []);
    TwoPointerMovesKeepGesture(s2, moves, display);
    var t3 := Run(s2, moves, display);
    assert Run(t3.final, [up], display).actions == [Click(true)];
    RunAppend(s, [down, second], moves, display);
    RunAppend(s, [down, second] + moves, [up], display);
    var t := Run(s, [down, second] + moves + [up], display);
    assert t.actions == t3.actions + [Click(true)];
    assert t.actions[..|t.actions| - 1] == t3.actions;
  }

  // Events of the three-finger example below.
  const FirstFinger := MotionEvent(Down, 1, 10.0, 10.0, 0.0)
  const SecondFinger := MotionEvent(PointerDown, 2, 10.0, 10.0, 80.0)
  const ThirdFinger := MotionEvent(PointerDown, 3, 10.0, 10.0, 80.0)
  const FingerLifted := MotionEvent(OtherAction, 3, 10.0, 10.0, 80.0)
  const LastFinger := MotionEvent(Up, 1, 10.0, 10.0, 0.0)

  /** Putting three fingers down keeps the gesture still and dispatches nothing. */
  lemma ThreeFingersDownStayStill(display: Option<Bounds>)
    ensures var t := Run(Initial(), [FirstFinger, SecondFinger, ThirdFinger], display);
      t.actions == [] && !t.final.isMoving && !t.final.isMinimized
  {
    var s1 := Step(Initial(), FirstFinger, display).next;
    var s2 := Step(s1, SecondFinger, display).next;
    RunCons(s2, ThirdFinger, [], display);
    RunCons(s1, SecondFinger, [ThirdFinger], display);
    RunCons(Initial(), FirstFinger, [SecondFinger, ThirdFinger], display);
  }

  /** From any still gesture, ignoring two lifted fingers (ACTION_POINTER_UP
      is not handled), putting a second finger back and releasing dispatches
      exactly one long press. */
  lemma RegainedSecondFingerRightClicks(s: Service, display: Option<Bounds>)
    requires !s.isMinimized && !s.isMoving
    ensures Run(s, [FingerLifted, FingerLifted, SecondFinger, LastFinger], display).actions == [Click(true)]
  {
    var s1 := Step(s, FingerLifted, display).next;
    var s2 := Step(s1, FingerLifted, display).next;
    var s3 := Step(s2, SecondFinger, display).next;
    assert s3.maxPointersInGesture == 2 && !s3.isMoving;
    RunCons(s3, LastFinger, [], display);
    RunCons(s2, SecondFinger, [LastFinger], display);
    RunCons(s1, FingerLifted, [SecondFinger, LastFinger], display);
    RunCons(s, FingerLifted, [FingerLifted, SecondFinger, LastFinger], display);
  }

  /** Because ACTION_POINTER_DOWN assigns rather than maximises, a gesture
      that had three fingers down, lost two and regained one ends in a long
      press. */
  lemma ThreeFingerGestureCanEndInRightClick(display: Option<Bounds>)
    ensures Run(Initial(), [FirstFinger, SecondFinger, ThirdFinger, FingerLifted, FingerLifted, SecondFinger, LastFinger], display).actions
      == [Click(true)]
  {
    var pre := [FirstFinger, SecondFinger, ThirdFinger];
    var post := [FingerLifted, FingerLifted, SecondFinger, LastFinger];
    assert pre + post == [FirstFinger, SecondFinger, ThirdFinger, FingerLifted, FingerLifted, SecondFinger, LastFinger];
    ThreeFingersDownStayStill(display);
    RegainedSecondFingerRightClicks(Run(Initial(), pre, display).final, display);
    RunAppend(Initial(), pre, post, display);
  }
}
