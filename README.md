# Android desktop touchpad: gesture classifiers, cursor and strokes

The app turns a phone into a touchpad for an external display. Raw Android
`MotionEvent`s are classified into cursor moves, left clicks, long-press
"right clicks", vertical scrolls and pinch-zoom steps. Each of these is
either applied to a cursor clamped to the external display or dispatched as
synthetic strokes (start point, end point, duration) at the cursor.

The repository contains two versions of this classifier, and both are modelled:

- `CursorService.kt` — the accessibility service. Its touchpad overlay has a
  touch listener that moves the cursor itself. It then dispatches strokes for
  clicks, long presses, scrolls and pinches. The service also owns the
  cursor, which is clamped to `[0, size − 5]` on each axis, and it chooses the
  target display.
- `MainActivity.kt` — the full-screen activity. Its own touch listener asks
  the cursor service to move the cursor, click, scroll or zoom. It uses a
  touch slop measured from the touch-down point, a pointer count that never
  decreases, a zoom threshold of 80 and a scroll deadzone of 10. It also
  clamps the values chosen in its settings dialog.

Modules:

- `Events` (`events.dfy`) — the parts of a `MotionEvent` that the listeners
  read, and the actions they request (`MoveCursor`, `Click(right)`,
  `Scroll(dy)`, `Zoom(zoomIn)`).
- `CursorServiceModel` (`cursor_service.dfy`) — `CoerceIn`, the cursor
  update, the display choice, the four stroke builders, and the listener
  `Step`. The class `CursorService` holds the Kotlin fields. Its `OnTouch`
  updates them in place and is proved against `Step`.
- `CursorServiceProperties` (`cursor_service_props.dfy`) — what one event does
  and what whole gestures do. The gesture lemmas are stated over `Run`, which
  folds `Step` over a sequence of events.
- `MainActivityModel` (`main_activity.dfy`) — `calculateDist`,
  `handleMultiTouch`, the settings clamps, the listener `Step`, and the class
  `MainActivity` whose `OnTouch` is proved against `Step`.
- `MainActivityProperties` (`main_activity_props.dfy`) — what one event does
  and what whole gestures do for the activity's listener.

Modelling choices:

- Coordinates are `real`.
- Each event carries the distance between its first two pointers as an input
  (`pairDistance`). The app computes it itself with `hypot`: `getDistance` in
  the service and `calculateDist` in the activity.
- `hypot(dx, dy) > touchSlop` is decided exactly, by comparing squares. A
  negative slop is always exceeded.
- Some inputs become parameters:
  - the display lookup that `updateCursorPosition` performs (`None` when it
    fails);
  - the touch slop (fixed when the activity is created);
  - the stored sensitivity, whether the touch is on one of the activity's
    buttons, and whether the cursor service is running.
- In the service, cursor motion is a field update. Every other action
  becomes a `GestureDescription`: its strokes plus the target display id.

Behaviour worth knowing, all as the code has it:

- `ACTION_CANCEL` is handled exactly like `ACTION_UP` by the activity, so it
  can click. The service's listener ignores it entirely.
- Neither listener has two-finger swipe navigation.
- `pinchZoom(zoomIn = true)` is called when the fingers move apart. It
  synthesizes two strokes that move *towards* each other: from `cx ∓ 100`
  to `cx ∓ 10`.
- A scroll stroke is `10 ×` the finger's vertical delta.
- The service decides "moving" per frame (`|dx| > 5 || |dy| > 5`), not from
  the touch-down point. A slow drag therefore still ends in a click
  (`SlowDragEndsInClick`).
- In the service, two-finger scrolling and pinching never set `isMoving`. A
  two-finger gesture therefore ends in a long press when the second finger
  lands before the first finger has moved
  (`TwoFingerGestureEndsInRightClick`). `isMoving` is cleared only by
  `ACTION_DOWN`. If the first finger moved further than 5 before the second
  finger landed, the gesture ends with no click at all
  (`ServiceMovingSticky`, `MovedBeforeSecondFingerNeverClicks`).
- The service assigns the pointer count on `ACTION_POINTER_DOWN` instead of
  taking the maximum. A gesture that had three fingers down can therefore end
  in a long press (`ThreeFingerGestureCanEndInRightClick`).

## Model

| member | source | states |
|---|---|---|
| `CursorServiceModel.CoerceIn` | app/src/main/java/com/ctrl_tab/android_desktop_touchpad/CursorService.kt:250-251 | On a non-empty range: the result lies in the range; a value already in range is kept; a value outside the range becomes the nearer bound. |
| `CursorServiceModel.MovedCursor` | app/src/main/java/com/ctrl_tab/android_desktop_touchpad/CursorService.kt:246-251 | If the display lookup fails, the cursor is unchanged. Otherwise it lands in `[0, w−5] × [0, h−5]`. Each axis is clamped on its own: an in-range component is applied in full, even when the other component is out of range. |
| `CursorServiceModel.CursorService.UpdateCursorPosition` | app/src/main/java/com/ctrl_tab/android_desktop_touchpad/CursorService.kt:246-257 | Updates the `cursorX`/`cursorY` fields in place to `MovedCursor` of their old values. |
| `CursorServiceModel.SelectDisplay` | app/src/main/java/com/ctrl_tab/android_desktop_touchpad/CursorService.kt:63-64 | The target is the default display or one of the listed displays. It is the last listed display when more than one is listed, and the default display otherwise. |
| `CursorServiceModel.CursorService.UpdateDisplayAndCursor` | app/src/main/java/com/ctrl_tab/android_desktop_touchpad/CursorService.kt:62-69 | Sets the `targetDisplayId` field to the display chosen by `SelectDisplay`. |
| `CursorServiceModel.ClickAt` | app/src/main/java/com/ctrl_tab/android_desktop_touchpad/CursorService.kt:259-262 | A click is one zero-length stroke at the given point. It starts at once, lasts 50 ms and targets the given display. |
| `CursorServiceModel.RightClickAt` | app/src/main/java/com/ctrl_tab/android_desktop_touchpad/CursorService.kt:264-267 | A right click is the same zero-length stroke lasting 600 ms (a long press). |
| `CursorServiceModel.ScrollVertical` | app/src/main/java/com/ctrl_tab/android_desktop_touchpad/CursorService.kt:269-272 | One stroke from the cursor. It keeps x unchanged, moves y by exactly `10 × distance`, and lasts 100 ms. |
| `CursorServiceModel.PinchZoom` | app/src/main/java/com/ctrl_tab/android_desktop_touchpad/CursorService.kt:236-244 | Two simultaneous 200 ms strokes at the cursor's y, mirror images about the cursor's x. The first stroke runs from `cx − 100` to `cx − 10` for zoom in, or to `cx − 200` for zoom out; the second is its mirror image. They start 200 apart and end 20 apart for zoom in, or 400 apart for zoom out. Zoom in holds exactly when the strokes end closer together than they start. |
| `CursorServiceModel.Dispatch` | app/src/main/java/com/ctrl_tab/android_desktop_touchpad/CursorService.kt:207-221 | Cursor motion dispatches no gesture. Every click, scroll or zoom dispatches exactly one gesture, on the target display. A click is one press at the cursor: 600 ms for a right click, 50 ms otherwise. A scroll is one stroke from the cursor to 10 × dy below it. A zoom is two strokes that end closer together iff it zooms in. |
| `CursorServiceModel.Step` | app/src/main/java/com/ctrl_tab/android_desktop_touchpad/CursorService.kt:189-226 | An event is consumed iff the touchpad is not minimised. While minimised, nothing changes and nothing is dispatched. Otherwise at most one action is dispatched per event. The target display and the minimised flag are unchanged. Only a one-pointer MOVE in a one-pointer gesture with a display moves the cursor. A cursor on the display stays on it. Only ACTION_DOWN clears `isMoving`. Clicks come only from ACTION_UP of a still gesture, and a click is right iff the gesture has two pointers. |
| `CursorServiceModel.CursorService.OnTouch` | app/src/main/java/com/ctrl_tab/android_desktop_touchpad/CursorService.kt:189-226 | Updates the fields in place to `Step`'s new state. Returns `Step`'s consumed flag and the gestures for `Step`'s actions, anchored at the cursor and sent to the target display. |
| `CursorServiceModel.CursorService.ToggleMinimized` | app/src/main/java/com/ctrl_tab/android_desktop_touchpad/CursorService.kt:156-157 | The minimise button flips `isMinimized`. |
| `CursorServiceModel.CursorService.constructor` | app/src/main/java/com/ctrl_tab/android_desktop_touchpad/CursorService.kt:27-41 | Initial fields: cursor at (500, 500), no gesture in progress, not minimised, default display. |
| `CursorServiceProperties.DownStartsGesture` | app/src/main/java/com/ctrl_tab/android_desktop_touchpad/CursorService.kt:193-196 | ACTION_DOWN sets the last point to the touch point, clears `isMoving`, sets the pointer count to 1, keeps the cursor, and dispatches nothing. |
| `CursorServiceProperties.PointerDownAssignsCount` | app/src/main/java/com/ctrl_tab/android_desktop_touchpad/CursorService.kt:197-200 | ACTION_POINTER_DOWN sets the gesture's pointer count to the event's count, even when that is lower than before. It captures the pinch baseline iff exactly two pointers are down. |
| `CursorServiceProperties.MoveRecordsLastPoint` | app/src/main/java/com/ctrl_tab/android_desktop_touchpad/CursorService.kt:201-217 | Every ACTION_MOVE leaves the last point equal to the event's point, whatever the pointer count. |
| `CursorServiceProperties.OnePointerMoveDrivesCursor` | app/src/main/java/com/ctrl_tab/android_desktop_touchpad/CursorService.kt:205-207 | A one-pointer MOVE in a one-pointer gesture moves the cursor by 2.5 × the delta, clamped. `isMoving` becomes true when either delta exceeds 5, and it is sticky. Nothing is dispatched. |
| `CursorServiceProperties.TwoPointerMoveZoomsOrScrolls` | app/src/main/java/com/ctrl_tab/android_desktop_touchpad/CursorService.kt:208-215 | A two-pointer MOVE dispatches exactly one action. If the distance moved more than 50 from the baseline, it is `Zoom(d > baseline)` and the baseline becomes d. Otherwise it is `Scroll(dy)` with no deadzone. The cursor and `isMoving` are untouched. |
| `CursorServiceProperties.ZoomStepRebaselines` | app/src/main/java/com/ctrl_tab/android_desktop_touchpad/CursorService.kt:210-212 | After a zoom step, a further two-pointer MOVE at the same distance scrolls instead of zooming again. |
| `CursorServiceProperties.UpClassifiesTap` | app/src/main/java/com/ctrl_tab/android_desktop_touchpad/CursorService.kt:219-223 | ACTION_UP clicks iff the gesture is still and had one pointer. It long-presses iff still with two pointers, and does nothing otherwise. It resets the pointer count to 0 and leaves `isMoving`. |
| `CursorServiceProperties.CancelIsIgnored` | app/src/main/java/com/ctrl_tab/android_desktop_touchpad/CursorService.kt:192-225 | ACTION_CANCEL is consumed but changes no field and dispatches nothing. |
| `CursorServiceProperties.SpreadingFingersPinchStrokesTogether` | app/src/main/java/com/ctrl_tab/android_desktop_touchpad/CursorService.kt:210-238 | When the fingers spread beyond the threshold, the service dispatches one two-stroke gesture whose strokes end closer together than they start. |
| `CursorServiceProperties.MinimizedRunIsInert` | app/src/main/java/com/ctrl_tab/android_desktop_touchpad/CursorService.kt:190 | While minimised, any sequence of events leaves every field unchanged and dispatches nothing. |
| `CursorServiceProperties.RunKeepsCursorInBounds` | app/src/main/java/com/ctrl_tab/android_desktop_touchpad/CursorService.kt:246-251 | A cursor inside `[0, w−5] × [0, h−5]` stays inside it over any sequence of events. |
| `CursorServiceProperties.ServiceMovingSticky` | app/src/main/java/com/ctrl_tab/android_desktop_touchpad/CursorService.kt:193-223 | Once `isMoving` is set, no sequence of events without ACTION_DOWN clears it, ACTION_UP included. Nothing in that sequence clicks. |
| `CursorServiceProperties.MovedBeforeSecondFingerNeverClicks` | app/src/main/java/com/ctrl_tab/android_desktop_touchpad/CursorService.kt:205-221 | DOWN, a one-pointer MOVE further than 5, a second finger, then UP: no click at all. |
| `CursorServiceProperties.SlowDragStaysStill` | app/src/main/java/com/ctrl_tab/android_desktop_touchpad/CursorService.kt:205-206 | One-pointer MOVEs that each stay within 5 of the previous point keep a one-pointer gesture still and dispatch nothing. |
| `CursorServiceProperties.SlowDragEndsInClick` | app/src/main/java/com/ctrl_tab/android_desktop_touchpad/CursorService.kt:193-220 | DOWN, then a drag of any length in steps of at most 5, then UP: the gesture dispatches exactly one left click. |
| `CursorServiceProperties.TwoPointerMovesKeepGesture` | app/src/main/java/com/ctrl_tab/android_desktop_touchpad/CursorService.kt:208-216 | Any sequence of two-pointer MOVEs keeps `isMoving` and the pointer count, and never clicks. |
| `CursorServiceProperties.TwoFingerGestureEndsInRightClick` | app/src/main/java/com/ctrl_tab/android_desktop_touchpad/CursorService.kt:193-221 | DOWN, a second finger, any two-finger scrolling or pinching, then UP: the last action is a long press, and nothing earlier clicks. |
| `CursorServiceProperties.ThreeFingersDownStayStill` | app/src/main/java/com/ctrl_tab/android_desktop_touchpad/CursorService.kt:193-200 | DOWN and two POINTER_DOWNs from the initial state leave the gesture still and dispatch nothing. |
| `CursorServiceProperties.RegainedSecondFingerRightClicks` | app/src/main/java/com/ctrl_tab/android_desktop_touchpad/CursorService.kt:192-223 | From any still gesture, two ignored finger lifts, a second finger put back, then UP: exactly one long press, whatever count the gesture had before. |
| `CursorServiceProperties.ThreeFingerGestureCanEndInRightClick` | app/src/main/java/com/ctrl_tab/android_desktop_touchpad/CursorService.kt:197-221 | Three fingers, then two lifted, then one put back: the gesture ends in a long press. |
| `MainActivityModel.CalculateDist` | app/src/main/java/com/ctrl_tab/android_desktop_touchpad/MainActivity.kt:219 | The result is the two-pointer distance. It falls back to 0 when there is no second pointer. |
| `MainActivityModel.BeyondSlopIsHypot` | app/src/main/java/com/ctrl_tab/android_desktop_touchpad/MainActivity.kt:109 | For `h` the Euclidean length of `(dx, dy)`, as `hypot` gives it, the square comparison used by the model holds iff `h > touchSlop`. This also holds for a negative slop. |
| `MainActivityModel.MultiTouchStep` | app/src/main/java/com/ctrl_tab/android_desktop_touchpad/MainActivity.kt:144-151 | At most one action per frame, and zoom is checked before scroll. `Zoom(dist > baseline)` happens iff `baseline > 0` and the distance moved more than 80; then the baseline becomes dist. Otherwise `Scroll(dy)` happens iff `abs(dy) > 10`, and nothing happens iff `abs(dy) ≤ 10`. |
| `MainActivityModel.MainActivity.HandleMultiTouch` | app/src/main/java/com/ctrl_tab/android_desktop_touchpad/MainActivity.kt:144-151 | Rebaselines the `initialPinchDist` field in place and returns the calls, both as `MultiTouchStep` gives them. |
| `MainActivityModel.SensitivityFromProgress` | app/src/main/java/com/ctrl_tab/android_desktop_touchpad/MainActivity.kt:177 | The stored sensitivity is at least 0.5 for every progress, and at most 10 for progress ≤ 100. It is progress/10 from 5 upwards, and 0.5 below that. |
| `MainActivityModel.CursorSizeFromProgress` | app/src/main/java/com/ctrl_tab/android_desktop_touchpad/MainActivity.kt:163 | The stored cursor size is at least 10. It equals the progress from 10 upwards. |
| `MainActivityModel.Step` | app/src/main/java/com/ctrl_tab/android_desktop_touchpad/MainActivity.kt:85-129 | An event is consumed iff it is off the buttons and the service runs. An unconsumed event changes nothing. At most one call per event. Between DOWN and UP/CANCEL the pointer count never decreases, the start point stays, and `isMoving` is sticky. Clicks happen only on UP/CANCEL of a still gesture, right iff two pointers. Zooms happen only with a positive baseline. |
| `MainActivityModel.MainActivity.OnTouch` | app/src/main/java/com/ctrl_tab/android_desktop_touchpad/MainActivity.kt:85-129 | Updates the fields in place to `Step`'s new state. Returns `Step`'s consumed flag and calls. |
| `MainActivityModel.MainActivity.ReleaseClick` | app/src/main/java/com/ctrl_tab/android_desktop_touchpad/MainActivity.kt:120-126 | UP/CANCEL: clicks for a still gesture, then sets `maxPointers = 0` and `isMoving = false` in place. |
| `MainActivityModel.MainActivity.constructor` | app/src/main/java/com/ctrl_tab/android_desktop_touchpad/MainActivity.kt:19-41 | Fields start at zero and false. The touch slop is the platform's value, fixed at creation. |
| `MainActivityProperties.DownStartsSession` | app/src/main/java/com/ctrl_tab/android_desktop_touchpad/MainActivity.kt:96-100 | ACTION_DOWN sets the start and last points to the touch point, sets `isMoving = false` and `maxPointers = 1`, and makes no call. |
| `MainActivityProperties.PointerDownKeepsMaximum` | app/src/main/java/com/ctrl_tab/android_desktop_touchpad/MainActivity.kt:101-104 | ACTION_POINTER_DOWN makes the pointer count `max(old, count)`, never lower. It recaptures the baseline iff exactly two pointers are down. |
| `MainActivityProperties.MoveOutputByPointerCount` | app/src/main/java/com/ctrl_tab/android_desktop_touchpad/MainActivity.kt:105-119 | `isMoving` becomes `old ∨ hypot(p − start) > slop`. One pointer calls `moveCursor(dx·s, dy·s)`. Two pointers go to `handleMultiTouch`. Any other count makes no call. The last point is always the event's point. |
| `MainActivityProperties.ReleaseClassifiesTap` | app/src/main/java/com/ctrl_tab/android_desktop_touchpad/MainActivity.kt:120-126 | UP or CANCEL gives a left click iff still with one pointer, a right click iff still with two pointers, and nothing otherwise. Afterwards `maxPointers = 0` and `isMoving = false`. |
| `MainActivityProperties.CancelActsLikeUp` | app/src/main/java/com/ctrl_tab/android_desktop_touchpad/MainActivity.kt:120 | A CANCEL event has exactly the same outcome as the same event as UP. |
| `MainActivityProperties.InactiveTouchIsIgnored` | app/src/main/java/com/ctrl_tab/android_desktop_touchpad/MainActivity.kt:87-91 | A touch on a button, or one made while no cursor service runs, is not consumed and changes nothing. |
| `MainActivityProperties.SessionKeepsShape` | app/src/main/java/com/ctrl_tab/android_desktop_touchpad/MainActivity.kt:101-118 | Over any events between DOWN and UP/CANCEL, `maxPointers` never decreases, the start point stays, `isMoving` stays true once set, and no click is made. |
| `MainActivityProperties.QuietMovesStayStill` | app/src/main/java/com/ctrl_tab/android_desktop_touchpad/MainActivity.kt:109-111 | MOVEs of any pointer count within the slop of the start keep a still gesture still, keep its pointer count, and make no click. |
| `MainActivityProperties.OneFingerTapClicks` | app/src/main/java/com/ctrl_tab/android_desktop_touchpad/MainActivity.kt:96-126 | DOWN, MOVEs within the slop, then UP or CANCEL: the last call is a left click, and no earlier call clicks. |
| `MainActivityProperties.TwoFingerTapRightClicks` | app/src/main/java/com/ctrl_tab/android_desktop_touchpad/MainActivity.kt:96-126 | DOWN, a second finger, MOVEs within the slop, then UP or CANCEL: the last call is a right click, and no earlier call clicks. |
| `MainActivityProperties.MovingSessionNeverClicks` | app/src/main/java/com/ctrl_tab/android_desktop_touchpad/MainActivity.kt:110-125 | A gesture already moving makes no click through the rest of the session or at its release. |
| `MainActivityProperties.LeavingSlopNeverClicks` | app/src/main/java/com/ctrl_tab/android_desktop_touchpad/MainActivity.kt:109-125 | Once a MOVE leaves the slop around the start point, nothing in the session clicks, including the release. |
| `MainActivityProperties.DragBeyondSlopNeverClicks` | app/src/main/java/com/ctrl_tab/android_desktop_touchpad/MainActivity.kt:96-126 | A session whose primary pointer leaves the slop around the touch-down point at any time, with any pointer count, makes no click at all. |
| `MainActivityProperties.NoBaselineNoZoom` | app/src/main/java/com/ctrl_tab/android_desktop_touchpad/MainActivity.kt:103-147 | With a baseline of 0 (or below), which is what a failed distance gives, and no two-pointer POINTER_DOWN to recapture it, no event ever zooms and the baseline stays. |

## Left out

- The sequence lemmas (`Run` in both modules) take one display lookup, or one activity environment, for the whole event sequence. The source repeats the display lookup and the button and service checks on every event, and re-reads the sensitivity each time. So no sequence lemma describes a run in which these change mid-gesture, for example an UP that lands on a button and leaves `maxPointers` stale. The single-event `Step` functions and the `OnTouch` methods take them per event.

- Window and overlay presentation is left out, because it consists only of `WindowManager` calls. This covers:
  - creating the visual cursor, its appearance, and refreshing its view after a move;
  - the touchpad border, the drag handle and its window-move arithmetic, and the minimise resizing and icons;
  - removing and re-creating the cursor view when the target display changes. Only the new target id is modelled.
- Gesture injection: `dispatchGesture`, `GestureDescription.Builder` and `Path` are platform calls. A gesture is modelled as the value that would be dispatched, which is its strokes and its display id.
- Platform plumbing: the display and preference listeners, `onServiceConnected`, `onDestroy`, `onResume`, `onCreate`'s view set-up, and the `SharedPreferences` reads. The sensitivity, the touch slop and the display lookup are parameters.
- The settings dialog is UI. The two stored-value clamps are modelled. Left out are the colour buttons, Hide/Show (`toggleCursor`), the System button, and the progress shown when the dialog opens.
- The keyboard toggle only calls the input-method manager.
- `isTouchInsideView` depends on `getGlobalVisibleRect`. It is a per-event input (`Env.onButton`).
- `CursorService.instance`, `moveCursor`, `performClick`, `zoom`, `scroll` and `toggleCursor` are called from the activity. This version of `CursorService.kt` does not define them, so they are not part of this model. The activity's calls to them are the returned actions.
- The `try/catch` in `handleMultiTouch` only guards those service calls. It is left out.
- Floating point is left out: coordinates are reals, so float rounding and the `.toInt()` of view positions are not modelled. `hypot` is replaced by an exact comparison of squares, and the finger distance is an event field.
- `CursorServiceModel.MovedCursor`: does not model displays narrower or shorter than 5 pixels. There `coerceIn` throws because its range is empty, and the model's `Bounds` type excludes such displays.
- `CursorServiceModel.SelectDisplay`: works on the list of display ids. The `Display` objects and `getDisplay` are not modelled.
