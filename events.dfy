/** Vocabulary shared by the two touch classifiers: the part of an Android
    MotionEvent that they read, and the pointer actions they ask for. */
module Events {

  datatype Option<+T> = None | Some(value: T)

  /** A position in view or display coordinates. */
  datatype Point = Point(x: real, y: real)

  /** The masked action of a MotionEvent, as far as the listeners tell them
      apart; every other masked action (POINTER_UP, HOVER_*, ...) is OtherAction. */
  datatype ActionKind = Down | PointerDown | Move | Up | Cancel | OtherAction

  /** One MotionEvent: its masked action, how many pointers are down, the
      primary pointer's position in view coordinates, and the Euclidean
      distance between pointers 0 and 1, which the listeners compute with
      hypot (only meaningful when at least two pointers are down). The type
      does not restrict it to non-negative values; no property relies on
      its sign. */
  datatype MotionEvent = MotionEvent(
    kind: ActionKind,
    pointerCount: nat,
    x: real,
    y: real,
    pairDistance: real)

  /** The primary pointer's position. */
  function Here(ev: MotionEvent): Point
  {
    Point(ev.x, ev.y)
  }

  /** A pointer action requested from the cursor service. */
  datatype Action =
    | MoveCursor(dx: real, dy: real)
    | Click(right: bool)
    | Scroll(dy: real)
    | Zoom(zoomIn: bool)

  /** Math.abs on the model's coordinates. */
  function Abs(v: real): (r: real)
    ensures r >= 0.0
    ensures r == v || r == -v
  {
    if v < 0.0 then -v else v
  }

  /** True when no action in `actions` is a click. */
  predicate NoClick(actions: seq<Action>)
  {
    forall i :: 0 <= i < |actions| ==> !actions[i].Click?
  }

  /** The last action of a non-empty action list. */
  function Last(actions: seq<Action>): Action
    requires actions != []
  {
    actions[|actions| - 1]
  }
}
