/** What the MainActivity touch listener does with single events and with
    whole gestures. */
module MainActivityProperties {
  import opened Events
  import opened MainActivityModel

  // ---------------------------------------------------------------------
  // Single events

  /** ACTION_DOWN starts a session at the touch point: still, one pointer. */
  lemma DownStartsSession(s: Activity, ev: MotionEvent, env: Env, slop: real)
    requires Active(env) && ev.kind == Down
    ensures var o := Step(s, ev, env, slop);
      o.next.start == Here(ev) && o.next.last == Here(ev) && !o.next.isMoving
      && o.next.maxPointers == 1 && o.next.initialPinchDist == s.initialPinchDist && o.actions == []
  {
  }

  /** ACTION_POINTER_DOWN raises the pointer count to the current count and
      never lowers it; it captures the pinch baseline only for exactly two
      pointers. */
  lemma PointerDownKeepsMaximum(s: Activity, ev: MotionEvent, env: Env, slop: real)
    requires Active(env) && ev.kind == PointerDown
    ensures var o := Step(s, ev, env, slop);
      o.next.maxPointers >= s.maxPointers && o.next.maxPointers >= ev.pointerCount
      && (o.next.maxPointers == s.maxPointers || o.next.maxPointers == ev.pointerCount)
      && o.next.initialPinchDist == (if ev.pointerCount == 2 then ev.pairDistance else s.initialPinchDist)
      && o.next.isMoving == s.isMoving && o.actions == []
  {
  }

  /** ACTION_MOVE: the gesture becomes moving once the primary pointer is
      beyond the slop from the touch-down point; one pointer moves the cursor
      by the scaled delta from the previous event, two pointers go to the
      multi-touch handling, more pointers do nothing; the last point is
      always the event's point. */
  lemma MoveOutputByPointerCount(s: Activity, ev: MotionEvent, env: Env, slop: real)
    requires Active(env) && ev.kind == Move
    ensures var o := Step(s, ev, env, slop);
      var dx, dy := ev.x - s.last.x, ev.y - s.last.y;
      o.next.last == Here(ev) && o.next.start == s.start && o.next.maxPointers == s.maxPointers
      && o.next.isMoving == (s.isMoving || BeyondSlop(ev.x - s.start.x, ev.y - s.start.y, slop))
      && (ev.pointerCount == 1 ==>
            o.actions == [MoveCursor(Scaled(dx, env.sensitivity), Scaled(dy, env.sensitivity))]
            && o.next.initialPinchDist == s.initialPinchDist)
      && (ev.pointerCount == 2 ==>
            var m := MultiTouchStep(s.initialPinchDist, ev.pairDistance, dy);
            o.actions == m.actions && o.next.initialPinchDist == m.baseline)
      && (ev.pointerCount != 1 && ev.pointerCount != 2 ==>
            o.actions == [] && o.next.initialPinchDist == s.initialPinchDist)
  {
  }

  /** ACTION_UP and ACTION_CANCEL click for a still one-pointer gesture,
      right-click for a still two-pointer gesture, do nothing otherwise, and
      end the session. */
  lemma ReleaseClassifiesTap(s: Activity, ev: MotionEvent, env: Env, slop: real)
    requires Active(env) && (ev.kind == Up || ev.kind == Cancel)
    ensures var o := Step(s, ev, env, slop);
      (o.actions == [Click(false)] <==> !s.isMoving && s.maxPointers == 1)
      && (o.actions == [Click(true)] <==> !s.isMoving && s.maxPointers == 2)
      && (o.actions == [] <==> s.isMoving || (s.maxPointers != 1 && s.maxPointers != 2))
      && o.next.maxPointers == 0 && !o.next.isMoving
  {
  }

  /** ACTION_CANCEL is handled exactly like ACTION_UP. */
  lemma CancelActsLikeUp(s: Activity, ev: MotionEvent, env: Env, slop: real)
    requires ev.kind == Up
    ensures Step(s, ev.(kind := Cancel), env, slop) == Step(s, ev, env, slop)
  {
  }

  /** A touch on one of the buttons, or with no cursor service running, is
      not consumed and changes nothing. */
  lemma InactiveTouchIsIgnored(s: Activity, ev: MotionEvent, env: Env, slop: real)
    requires env.onButton || !env.serviceConnected
    ensures Step(s, ev, env, slop) == Outcome(s, false, [])
  {
  }

  // ---------------------------------------------------------------------
  // Sequences of events

  lemma RunCons(s: Activity, ev: MotionEvent, rest: seq<MotionEvent>, env: Env, slop: real)
    ensures var o := Step(s, ev, env, slop);
      var t := Run(o.next, rest, env, slop);
      Run(s, [ev] + rest, env, slop) == Trace(t.final, o.actions + t.actions)
  {
    assert ([ev] + rest)[1..] == rest;
  }

  lemma {:induction false} RunAppend(s: Activity, a: seq<MotionEvent>, b: seq<MotionEvent>, env: Env, slop: real)
    ensures var ta := Run(s, a, env, slop);
      var tb := Run(ta.final, b, env, slop);
      Run(s, a + b, env, slop) == Trace(tb.final, ta.actions + tb.actions)
    decreases |a|
  {
    if a == [] {
      assert a + b == b;
    } else {
      assert (a + b)[0] == a[0];
      assert (a + b)[1..] == a[1..] + b;
      RunAppend(Step(s, a[0], env, slop).next, a[1..], b, env, slop);
    }
  }

  /** No event of the sequence starts or ends a session. */
  predicate InSession(evs: seq<MotionEvent>)
  {
    forall i :: 0 <= i < |evs| ==> !ResetsSession(evs[i])
  }

  /** Within a session the pointer count never decreases, the touch-down
      point stays, a moving gesture stays moving, and nothing clicks. */
  lemma {:induction false} SessionKeepsShape(s: Activity, evs: seq<MotionEvent>, env: Env, slop: real)
    requires InSession(evs)
    ensures var t := Run(s, evs, env, slop);
      t.final.maxPointers >= s.maxPointers && t.final.start == s.start
      && (s.isMoving ==> t.final.isMoving) && NoClick(t.actions)
    decreases |evs|
  {
    if evs != [] {
      assert InSession(evs[1..]) by {
        forall i | 0 <= i < |evs[1..]| ensures !ResetsSession(evs[1..][i]) {
          assert evs[1..][i] == evs[i + 1];
        }
      }
      SessionKeepsShape(Step(s, evs[0], env, slop).next, evs[1..], env, slop);
    }
  }

  /** MOVEs of any pointer count that stay within the slop of `start`. */
  predicate QuietMoves(start: Point, slop: real, evs: seq<MotionEvent>)
  {
    forall i :: 0 <= i < |evs| ==>
      evs[i].kind == Move && !BeyondSlop(evs[i].x - start.x, evs[i].y - start.y, slop)
  }

  lemma {:induction false} QuietMovesStayStill(s: Activity, evs: seq<MotionEvent>, env: Env, slop: real)
    requires Active(env) && !s.isMoving && QuietMoves(s.start, slop, evs)
    ensures var t := Run(s, evs, env, slop);
      !t.final.isMoving && t.final.maxPointers == s.maxPointers && t.final.start == s.start
      && NoClick(t.actions)
    decreases |evs|
  {
    if evs != [] {
      var s1 := Step(s, evs[0], env, slop).next;
      assert QuietMoves(s1.start, slop, evs[1..]) by {
        forall i | 0 <= i < |evs[1..]|
          ensures evs[1..][i].kind == Move && !BeyondSlop(evs[1..][i].x - s1.start.x, evs[1..][i].y - s1.start.y, slop)
        {
          assert evs[1..][i] == evs[i + 1];
        }
      }
      QuietMovesStayStill(s1, evs[1..], env, slop);
    }
  }

  /** A one-finger touch that stays within the slop clicks once, when it is
      released (by ACTION_UP or ACTION_CANCEL). */
  lemma OneFingerTapClicks(s: Activity, down: MotionEvent, moves: seq<MotionEvent>, up: MotionEvent, env: Env, slop: real)
    requires Active(env) && down.kind == Down && (up.kind == Up || up.kind == Cancel)
    requires QuietMoves(Here(down), slop, moves)
    ensures var t := Run(s, [down] + moves + [up], env, slop);
      t.actions != [] && Last(t.actions) == Click(false) && NoClick(t.actions[..|t.actions| - 1])
  {
    var s1 := Step(s, down, env, slop).next;
    RunCons(s, down, [], env, slop);
    QuietMovesStayStill(s1, moves, env, slop);
    var t2 := Run(s1, moves, env, slop);
    RunCons(t2.final, up, [], env, slop);
    RunAppend(s, [down], moves, env, slop);
    RunAppend(s, [down] + moves, [up], env, slop);
    var t := Run(s, [down] + moves + [up], env, slop);
    assert t.actions == t2.actions + [Click(false)];
    assert t.actions[..|t.actions| - 1] == t2.actions;
  }

  /** A two-finger touch that stays within the slop right-clicks once, when
      it is released. */
  lemma TwoFingerTapRightClicks(s: Activity, down: MotionEvent, second: MotionEvent,
                                moves: seq<MotionEvent>, up: MotionEvent, env: Env, slop: real)
    requires Active(env) && down.kind == Down && (up.kind == Up || up.kind == Cancel)
    requires second.kind == PointerDown && second.pointerCount == 2
    requires QuietMoves(Here(down), slop, moves)
    ensures var t := Run(s, [down, second] + moves + [up], env, slop);
      t.actions != [] && Last(t.actions) == Click(true) && NoClick(t.actions[..|t.actions| - 1])
  {
    var s1 := Step(s, down, env, slop).next;
    var s2 := Step(s1, second, env, slop).next;
    RunCons(s1, second, [], env, slop);
    RunCons(s, down, [second], env, slop);
    assert [down] + [second] == [down, second];
    QuietMovesStayStill(s2, moves, env, slop);
    var t3 := Run(s2, moves, env, slop);
    RunCons(t3.final, up, [], env, slop);
    RunAppend(s, [down, second], moves, env, slop);
    RunAppend(s, [down, second] + moves, [up], env, slop);
    var t := Run(s, [down, second] + moves + [up], env, slop);
    assert t.actions == t3.actions + [Click(true)];
    assert t.actions[..|t.actions| - 1] == t3.actions;
  }

  lemma NoClickConcat(a: seq<Action>, b: seq<Action>)
    requires NoClick(a) && NoClick(b)
    ensures NoClick(a + b)
  {
    forall i | 0 <= i < |a + b| ensures !(a + b)[i].Click? {
      if i >= |a| {
        assert (a + b)[i] == b[i - |a|];
      }
    }
  }

  /** A moving gesture stays moving until it is released, and its release
      does not click. */
  lemma MovingSessionNeverClicks(s: Activity, evs: seq<MotionEvent>, up: MotionEvent, env: Env, slop: real)
    requires Active(env) && s.isMoving && InSession(evs) && (up.kind == Up || up.kind == Cancel)
    ensures NoClick(Run(s, evs + [up], env, slop).actions)
  {
    SessionKeepsShape(s, evs, env, slop);
    var t := Run(s, evs, env, slop);
    RunCons(t.final, up, [], env, slop);
    RunAppend(s, evs, [up], env, slop);
    NoClickConcat(t.actions, Step(t.final, up, env, slop).actions);
  }

  lemma LeavingSlopNeverClicks(s: Activity, before: seq<MotionEvent>, away: MotionEvent,
                               after: seq<MotionEvent>, up: MotionEvent, env: Env, slop: real)
    requires Active(env) && (up.kind == Up || up.kind == Cancel)
    requires InSession(before) && InSession(after)
    requires away.kind == Move && BeyondSlop(away.x - s.start.x, away.y - s.start.y, slop)
    ensures NoClick(Run(s, before + ([away] + (after + [up])), env, slop).actions)
  {
    SessionKeepsShape(s, before, env, slop);
    var t := Run(s, before, env, slop);
    var o := Step(t.final, away, env, slop);
    assert o.next.isMoving && NoClick(o.actions);
    MovingSessionNeverClicks(o.next, after, up, env, slop);
    RunCons(t.final, away, after + [up], env, slop);
    RunAppend(s, before, [away] + (after + [up]), env, slop);
    var u := Run(o.next, after + [up], env, slop);
    NoClickConcat(o.actions, u.actions);
    NoClickConcat(t.actions, o.actions + u.actions);
  }

  /** Once the primary pointer has left the slop around the touch-down
      point, with any number of pointers, the release does not click. */
  lemma DragBeyondSlopNeverClicks(s: Activity, down: MotionEvent, before: seq<MotionEvent>, away: MotionEvent,
                                  after: seq<MotionEvent>, up: MotionEvent, env: Env, slop: real)
    requires Active(env) && down.kind == Down && (up.kind == Up || up.kind == Cancel)
    requires InSession(before) && InSession(after)
    requires away.kind == Move && BeyondSlop(away.x - down.x, away.y - down.y, slop)
    ensures NoClick(Run(s, [down] + before + [away] + after + [up], env, slop).actions)
  {
    var rest := before + ([away] + (after + [up]));
    assert [down] + before + [away] + after + [up] == [down] + rest;
    RunCons(s, down, rest, env, slop);
    var s1 := Step(s, down, env, slop).next;
    LeavingSlopNeverClicks(s1, before, away, after, up, env, slop);
  }

  /** Without a positive pinch baseline no two-pointer frame zooms; only an
      ACTION_POINTER_DOWN with exactly two pointers can capture a new one. */
  lemma {:induction false} NoBaselineNoZoom(s: Activity, evs: seq<MotionEvent>, env: Env, slop: real)
    requires s.initialPinchDist <= 0.0
    requires forall i :: 0 <= i < |evs| ==> !(evs[i].kind == PointerDown && evs[i].pointerCount == 2)
    ensures var t := Run(s, evs, env, slop);
      t.final.initialPinchDist == s.initialPinchDist
      && forall i :: 0 <= i < |t.actions| ==> !t.actions[i].Zoom?
    decreases |evs|
  {
    if evs != [] {
      var s1 := Step(s, evs[0], env, slop).next;
      assert forall i :: 0 <= i < |evs[1..]| ==> !(evs[1..][i].kind == PointerDown && evs[1..][i].pointerCount == 2) by {
        forall i | 0 <= i < |evs[1..]| ensures !(evs[1..][i].kind == PointerDown && evs[1..][i].pointerCount == 2) {
          assert evs[1..][i] == evs[i + 1];
        }
      }
      NoBaselineNoZoom(s1, evs[1..], env, slop);
    }
  }
}
