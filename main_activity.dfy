/** Model of MainActivity: the full-screen touch listener of the phone's
    activity, which classifies gestures and asks the cursor service to move
    the cursor, click, scroll or zoom, and the clamps applied to the values
    chosen in its settings dialog. */
module MainActivityModel {
  import opened Events

  /** Change of finger distance that makes a two-pointer MOVE a zoom step. */
  const ZoomThreshold: real := 80.0
  /** Vertical deltas up to this size do not scroll. */
  const ScrollDeadzone: real := 10.0

  /** hypot(dx, dy) > slop, decided without a square root. */
  predicate BeyondSlop(dx: real, dy: real, slop: real)
  {
    slop < 0.0 || dx * dx + dy * dy > slop * slop
  }

  /** For non-negative a and b, a < b exactly when a * a < b * b. */
  lemma SquareMonotone(a: real, b: real)
    requires a >= 0.0 && b >= 0.0
    ensures a < b <==> a * a < b * b
  {
    if a < b {
      calc {
        a * a;
      <=  { MulLeft(a, a, b); }
        a * b;
      <   { MulRightStrict(a, b, b); }
        b * b;
      }
    } else {
      calc {
        b * b;
      <=  { MulLeft(b, b, a); }
        b * a;
      <=  { MulLeft(a, b, a); }
        a * a;
      }
    }
  }

  /** Multiplying by a non-negative factor keeps a non-strict order. */
  lemma MulLeft(k: real, x: real, y: real)
    requires k >= 0.0 && x <= y
    ensures k * x <= k * y
  {
    assert k * y - k * x == k * (y - x);
  }

  /** Multiplying by a positive factor keeps a strict order. */
  lemma MulRightStrict(x: real, y: real, k: real)
    requires k > 0.0 && x < y
    ensures x * k < y * k
  {
    assert y * k - x * k == (y - x) * k;
  }

  /** BeyondSlop agrees with comparing the Euclidean length h of (dx, dy),
      as hypot computes it, against the slop. */
  lemma BeyondSlopIsHypot(dx: real, dy: real, slop: real, h: real)
    requires h >= 0.0 && h * h == dx * dx + dy * dy
    ensures BeyondSlop(dx, dy, slop) <==> h > slop
  {
    if slop >= 0.0 {
      SquareMonotone(slop, h);
    }
  }

  /** calculateDist: the distance between the first two pointers, or 0 when
      reading the second pointer fails because there is none. */
  function CalculateDist(ev: MotionEvent): (r: real)
    ensures ev.pointerCount >= 2 ==> r == ev.pairDistance
    ensures ev.pointerCount < 2 ==> r == 0.0
  {
    if ev.pointerCount >= 2 then ev.pairDistance else 0.0
  }

  /** A touchpad delta scaled by the cursor sensitivity. */
  function Scaled(delta: real, sensitivity: real): real
  {
    delta * sensitivity
  }

  // ---------------------------------------------------------------------
  // Two-pointer handling

  /** Whether a finger distance makes a zoom step against the baseline. */
  predicate IsZoomStep(baseline: real, dist: real)
  {
    baseline > 0.0 && Abs(dist - baseline) > ZoomThreshold
  }

  /** The pinch baseline after one two-pointer frame, and the service calls made. */
  datatype MultiTouch = MultiTouch(baseline: real, actions: seq<Action>)

  /** handleMultiTouch: at most one call per frame, a zoom step before a
      scroll; a zoom step rebaselines. */
  function MultiTouchStep(baseline: real, dist: real, dy: real): (r: MultiTouch)
    ensures r.actions == [Zoom(dist > baseline)] <==> IsZoomStep(baseline, dist)
    ensures r.actions == [Scroll(dy)] <==> !IsZoomStep(baseline, dist) && Abs(dy) > ScrollDeadzone
    ensures r.actions == [] <==> !IsZoomStep(baseline, dist) && Abs(dy) <= ScrollDeadzone
    ensures IsZoomStep(baseline, dist) ==> r.baseline == dist
    ensures !IsZoomStep(baseline, dist) ==> r.baseline == baseline
  {
    if baseline > 0.0 && Abs(dist - baseline) > ZoomThreshold then
      MultiTouch(dist, [Zoom(dist > baseline)])
    else if Abs(dy) > ScrollDeadzone then
      MultiTouch(baseline, [Scroll(dy)])
    else
      MultiTouch(baseline, [])
  }

  // ---------------------------------------------------------------------
  // Settings

  /** The stored cursor sensitivity for a seek-bar progress p. */
  function SensitivityFromProgress(p: int): (r: real)
    ensures r >= 0.5
    ensures p <= 100 ==> r <= 10.0
    ensures p >= 5 ==> r * 10.0 == p as real
    ensures p < 5 ==> r == 0.5
  {
    (if p < 5 then 5 else p) as real / 10.0
  }

  /** The stored cursor size for a seek-bar progress p. */
  function CursorSizeFromProgress(p: int): (r: int)
    ensures r >= 10
    ensures p >= 10 ==> r == p
    ensures p < 10 ==> r == 10
  {
    if p < 10 then 10 else p
  }

  // ---------------------------------------------------------------------
  // Touch listener

  /** The fields of the activity that the touch listener reads and writes. */
  datatype Activity = Activity(
    last: Point,
    start: Point,
    initialPinchDist: real,
    isMoving: bool,
    maxPointers: int)

  function Initial(): Activity
  {
    Activity(Point(0.0, 0.0), Point(0.0, 0.0), 0.0, false, 0)
  }

  /** What the listener learns from its surroundings for one event: whether
      the touch is on the settings or keyboard button, whether the cursor
      service is running, and the stored sensitivity. */
  datatype Env = Env(onButton: bool, serviceConnected: bool, sensitivity: real)

  predicate Active(env: Env)
  {
    !env.onButton && env.serviceConnected
  }

  /** What the listener does with one event: the new fields, whether the
      event was consumed, and the calls made on the cursor service. */
  datatype Outcome = Outcome(next: Activity, consumed: bool, actions: seq<Action>)

  /** The events that reset the gesture fields: ACTION_DOWN starts a
      session, ACTION_UP and ACTION_CANCEL end one. */
  predicate ResetsSession(ev: MotionEvent)
  {
    ev.kind == Down || ev.kind == Up || ev.kind == Cancel
  }

  /** ACTION_UP and ACTION_CANCEL. */
  function Release(s: Activity): Outcome
  {
    var click :=
      if !s.isMoving && s.maxPointers == 1 then [Click(false)]
      else if !s.isMoving && s.maxPointers == 2 then [Click(true)]
      else [];
    Outcome(s.(maxPointers := 0, isMoving := false), true, click)
  }

  /** The root view's touch listener. */
  function Step(s: Activity, ev: MotionEvent, env: Env, slop: real): (o: Outcome)
    ensures o.consumed == Active(env)
    ensures !Active(env) ==> o.next == s && o.actions == []
    ensures |o.actions| <= 1
    ensures !ResetsSession(ev) ==> o.next.maxPointers >= s.maxPointers && o.next.start == s.start
    ensures !ResetsSession(ev) && s.isMoving ==> o.next.isMoving
    ensures forall a :: a in o.actions && a.Click? ==>
      (ev.kind == Up || ev.kind == Cancel) && !s.isMoving && a.right == (s.maxPointers == 2)
    ensures forall a :: a in o.actions && a.Zoom? ==> s.initialPinchDist > 0.0
  {
    if env.onButton then Outcome(s, false, [])
    else if !env.serviceConnected then Outcome(s, false, [])
    else match ev.kind
      case Down =>
        Outcome(s.(start := Here(ev), last := Here(ev), isMoving := false, maxPointers := 1), true, [])
      case PointerDown =>
        var m := if ev.pointerCount > s.maxPointers then ev.pointerCount else s.maxPointers;
        var b := if ev.pointerCount == 2 then CalculateDist(ev) else s.initialPinchDist;
        Outcome(s.(maxPointers := m, initialPinchDist := b), true, [])
      case Move =>
        var dx := ev.x - s.last.x;
        var dy := ev.y - s.last.y;
        var moving := s.isMoving || BeyondSlop(ev.x - s.start.x, ev.y - s.start.y, slop);
        var s' := s.(isMoving := moving, last := Here(ev));
        if ev.pointerCount == 1 then
          Outcome(s', true, [MoveCursor(Scaled(dx, env.sensitivity), Scaled(dy, env.sensitivity))])
        else if ev.pointerCount == 2 then
          var m := MultiTouchStep(s.initialPinchDist, CalculateDist(ev), dy);
          Outcome(s'.(initialPinchDist := m.baseline), true, m.actions)
        else
          Outcome(s', true, [])
      case Up => Release(s)
      case Cancel => Release(s)
      case OtherAction => Outcome(s, true, [])
  }

  /** The state reached and the calls made over a sequence of events. */
  datatype Trace = Trace(final: Activity, actions: seq<Action>)

  function Run(s: Activity, evs: seq<MotionEvent>, env: Env, slop: real): Trace
    decreases |evs|
  {
    if evs == [] then Trace(s, [])
    else
      var o := Step(s, evs[0], env, slop);
      var t := Run(o.next, evs[1..], env, slop);
      Trace(t.final, o.actions + t.actions)
  }

  /** The activity's gesture state, updated in place. */
  class MainActivity {
    var lastX: real
    var lastY: real
    var startX: real
    var startY: real
    var initialPinchDist: real
    var isMoving: bool
    var maxPointers: int
    /** The platform's scaled touch slop, read once when the activity is created. */
    const touchSlop: real

    ghost function State(): Activity
      reads this
    {
      Activity(Point(lastX, lastY), Point(startX, startY), initialPinchDist, isMoving, maxPointers)
    }

    constructor (touchSlop: real)
      ensures State() == Initial() && this.touchSlop == touchSlop
    {
      lastX, lastY, startX, startY := 0.0, 0.0, 0.0, 0.0;
      initialPinchDist := 0.0;
      isMoving := false;
      maxPointers := 0;
      this.touchSlop := touchSlop;
    }

    method HandleMultiTouch(e: MotionEvent, dy: real) returns (calls: seq<Action>)
      modifies this`initialPinchDist
      ensures var m := MultiTouchStep(old(initialPinchDist), CalculateDist(e), dy);
        initialPinchDist == m.baseline && calls == m.actions
    {
      var dist := CalculateDist(e);
      calls := [];
      if initialPinchDist > 0.0 && Abs(dist - initialPinchDist) > ZoomThreshold {
        calls := [Zoom(dist > initialPinchDist)];
        initialPinchDist := dist;
      } else if Abs(dy) > ScrollDeadzone {
        calls := [Scroll(dy)];
      }
    }

    /** The touch listener: updates the gesture fields and returns whether
        the event was consumed and the calls made on the cursor service. */
    method OnTouch(ev: MotionEvent, env: Env) returns (consumed: bool, calls: seq<Action>)
      modifies this
      ensures State() == Step(old(State()), ev, env, touchSlop).next
      ensures consumed == Step(old(State()), ev, env, touchSlop).consumed
      ensures calls == Step(old(State()), ev, env, touchSlop).actions
    {
      if env.onButton || !env.serviceConnected {
        return false, [];
      }
      consumed, calls := true, [];
      match ev.kind {
        case Down =>
          startX, startY := ev.x, ev.y;
          lastX, lastY := ev.x, ev.y;
          isMoving, maxPointers := false, 1;
        case PointerDown =>
          if ev.pointerCount > maxPointers {
            maxPointers := ev.pointerCount;
          }
          if ev.pointerCount == 2 {
            initialPinchDist := CalculateDist(ev);
          }
        case Move =>
          var dx := ev.x - lastX;
          var dy := ev.y - lastY;
          if !isMoving && BeyondSlop(ev.x - startX, ev.y - startY, touchSlop) {
            isMoving := true;
          }
          if ev.pointerCount == 1 {
            calls := [MoveCursor(Scaled(dx, env.sensitivity), Scaled(dy, env.sensitivity))];
          } else if ev.pointerCount == 2 {
            calls := HandleMultiTouch(ev, dy);
          }
          lastX, lastY := ev.x, ev.y;
        case Up =>
          calls := ReleaseClick();
        case Cancel =>
          calls := ReleaseClick();
        case OtherAction =>
      }
    }

    /** ACTION_UP and ACTION_CANCEL: click for a still gesture, then reset. */
    method ReleaseClick() returns (calls: seq<Action>)
      modifies this`maxPointers, this`isMoving
      ensures State() == Release(old(State())).next && calls == Release(old(State())).actions
    {
      calls := [];
      if !isMoving {
        if maxPointers == 1 {
          calls := [Click(false)];
        } else if maxPointers == 2 {
          calls := [Click(true)];
        }
      }
      maxPointers, isMoving := 0, false;
    }
  }
}
