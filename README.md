# Touchless controller: gesture state machine and landmark interpreter

This project models the per-frame core of a touchless desktop controller. A
hand tracker supplies 21 pixel landmarks for one hand. The controller turns
them into operating-system input: cursor moves, clicks, scrolls, right-clicks
and Ctrl+Left / Ctrl+Right navigation.

Two modules follow the repository's two core files:

- `HandTrackingModule` (`hand_tracking.dfy`) models `handDetector`. It holds
  `FingersUp`, the fail-soft finger classifier, and `FindDistance`, the pinch
  length with its endpoints and floored midpoint. It also holds the
  `HandDetector` class, whose `FindPosition` rebuilds the landmark list and
  folds the bounding box.
- `CasualTouch` (`casual_touch.dfy`) models `TouchlessController`. Each
  gesture kind has an activation record, and `NextRecord` is its Idle/Armed
  transition. The class `TouchlessController` keeps the record map, the
  smoothed cursor and `lastClickTime`. `UpdateGestureState` advances one
  record in place and returns its fire flag. `ProcessGesture` updates the
  fields in place and returns the emitted `Action`s.
- `CasualTouchScenarios` (`casual_touch_scenarios.dfy`) replays the
  repository's unit tests as client code. It covers move, click, scroll,
  right-click and swipe-left. It adds a dead-zone case and an all-zero case.
  An all-zero finger vector, which is what `fingersUp` returns for a list of
  other than 21 landmarks, emits nothing and drops the timed records to
  idle. Each one is checked from the contracts alone.

Modelling choices:

- Wall-clock time is a parameter `now: real`. One frame uses one `now`. The
  source reads the clock several times per frame, and it sleeps for one
  second after a right-click or a swipe. `PosesDisjoint` shows that the
  right-click and swipe poses exclude each other. So after a sleep, only
  records whose condition is false read the clock again.
  `DeactivationIgnoresClock` shows that those records ignore the time.
- The pinch length `math.hypot(dx, dy)` becomes the squared integer length.
  `PinchThresholds` proves that `< 30` and `>= 40` on the length match
  `< 900` and `>= 1600` on the square.
- Times, cursor positions and smoothing use exact `real`s.
- `np.interp` is modelled as a linear map of `[frameR, wCam - frameR]` onto
  `[0, wScr]`, held at the end values outside that range (`Interp`). This is
  an assumption about the library.
- Python's `//` by 2 rounds down, and so does Dafny's `/` by a positive
  divisor. Python's `int(a / 10)` rounds toward zero, so `TruncDiv` writes
  that rounding out.
- OS input calls become `Action` values. The blocking `time.sleep(1)`
  becomes a `Pause(1)` action.

Facts about the program that the model keeps:

- The scroll amount is `int((y1 - y2) / 10)`, truncated toward zero
  (Casual-Touch.py:77).
- The thumb compares landmark 4 with landmark 3, one joint back
  (HandTrackingModule.py:81). The other fingers compare their tip with the
  joint two back.
- `np.interp` holds out-of-range positions at the end values. The caller
  does no clamping of its own.
- Finger flags are the integers 0/1.

The click record is never written anywhere in the controller.
`ProcessGesture` ensures that it keeps its value. So the click hold gate
measures time from the construction-time `startTime` of 0. In practice it
does not hold the click back. The model keeps this behaviour, and the click
scenario, taken from the unit test, clicks on the first pinched frame.

## Model

| member | source | states |
|---|---|---|
| `HandTrackingModule.FingersUp` | HandTrackingModule.py:75-93 | Always five entries, each 0 or 1. All zeros unless there are exactly 21 landmarks. Otherwise the thumb is 1 iff x of landmark 4 > x of landmark 3. Finger k of 1..4 is 1 iff y of its tip (8, 12, 16, 20) < y of the joint two back (6, 10, 14, 18). |
| `HandTrackingModule.SquaredLength` | HandTrackingModule.py:106 | The squared pinch length is non-negative, and zero exactly when the two points coincide. |
| `HandTrackingModule.FindDistance` | HandTrackingModule.py:95-107 | Needs both ids to be valid indices. lineInfo holds the two landmarks' coordinates. cx and cy are the floors of the coordinate means. The squared length is >= 0 and is 0 iff the points coincide. |
| `HandTrackingModule.FindDistanceSymmetric` | HandTrackingModule.py:95-107 | Swapping p1 and p2 leaves the length and the midpoint unchanged. |
| `HandTrackingModule.PinchThresholds` | Casual-Touch.py:70-76 | For a non-negative length whose square is the squared length, `length < 30` iff square < 900, and `length >= 40` iff square >= 1600. |
| `HandTrackingModule.MinFold` | HandTrackingModule.py:51-66 | The running minimum of `xMin`/`yMin`, started at w or h and lowered by each coordinate in landmark order. It is <= the start value and equals it or one of the coordinates. |
| `HandTrackingModule.MaxFold` | HandTrackingModule.py:51-66 | The running maximum of `xMax`/`yMax`, started at 0 and raised by each coordinate in landmark order. It is >= the start value and equals it or one of the coordinates. |
| `HandTrackingModule.MinFoldIsLeast` | HandTrackingModule.py:51-66 | The running minimum of the landmark loop is <= its start value and <= every coordinate. It equals the start value or one of the coordinates. |
| `HandTrackingModule.MaxFoldIsGreatest` | HandTrackingModule.py:51-66 | The running maximum is >= its start value and >= every coordinate. It equals the start value or one of the coordinates. |
| `HandTrackingModule.BBoxEnclosesHand` | HandTrackingModule.py:51-68 | Every landmark of the hand lies inside the bounding box that is built for it. |
| `HandTrackingModule.HandDetector.FindPosition` | HandTrackingModule.py:37-73 | With no hand, lmList is empty and bbox is None. Otherwise lmList[i] = [i, x_i, y_i] in landmark order, and bbox = (min(w, min x), min(h, min y), max(0, max x), max(0, max y)). The field lmList is the returned list. |
| `CasualTouch.NextRecord` | Casual-Touch.py:38-49 | The record is armed exactly while the condition holds. It fires iff it was already armed, the condition holds and at least 0.8 s has passed since startTime, so arming never fires. startTime becomes now only on arming or firing. |
| `CasualTouch.DeactivationIgnoresClock` | Casual-Touch.py:47-49 | A false condition gives the same result at any time, never fires, and keeps startTime. |
| `CasualTouch.HeldPoseFires` | Casual-Touch.py:44-46 | An armed record whose hold time has passed fires on a true frame and re-arms at now. |
| `CasualTouch.FiresAreSpaced` | Casual-Touch.py:38-49 | On any run whose clock does not go back, consecutive fires are at least 0.8 s apart. The first fire comes at least 0.8 s after the arming time, or after the first frame when the record starts idle. |
| `CasualTouch.MovePose` | Casual-Touch.py:53 | The move condition: on a 0/1 vector it holds iff the index is up and middle, ring and pinky are down; the thumb is free. |
| `CasualTouch.ClickScrollPose` | Casual-Touch.py:68 | The click/scroll condition holds iff index and middle are both up. |
| `CasualTouch.RightClickPose` | Casual-Touch.py:82 | The right-click condition holds iff index, middle, ring and pinky are all up. |
| `CasualTouch.SwipeLeftPose` | Casual-Touch.py:87-89 | The swipe-left condition: on a 0/1 vector it holds iff exactly the index and pinky are up. |
| `CasualTouch.SwipeRightPose` | Casual-Touch.py:94-95 | The swipe-right condition: on a 0/1 vector it holds iff exactly the thumb and pinky are up. |
| `CasualTouch.PosesDisjoint` | Casual-Touch.py:53-95 | The move, right-click, swipe-left and swipe-right conditions are pairwise disjoint. The click/scroll condition excludes move and both swipes, and right-click implies it. |
| `CasualTouch.CursorTarget` | Casual-Touch.py:54-55 | The unsmoothed target stays on the screen. A fingertip in the `frameR` margin holds it at the screen edge. Inside the active region, x is mapped linearly from [100, 540] onto [0, wScr] and y from [100, 380] onto [0, hScr]. |
| `CasualTouch.Interp` | Casual-Touch.py:54-55 | Inside [lo, hi] the result is the linear image of v on [0, outHi]. It is 0 below lo and outHi above hi, and stays within [0, outHi]. |
| `CasualTouch.Smooth` | Casual-Touch.py:56-57 | One filter step leaves 3/4 of the gap to the target. The result lies between the previous value and the target. |
| `CasualTouch.SmoothingConverges` | Casual-Touch.py:56-57 | After n steps toward a fixed target the gap is (3/4)^n of the original, and the value never overshoots the target. (3/4)^n * (1 + n/3) <= 1, so the gap tends to zero. |
| `CasualTouch.TruncDiv` | Casual-Touch.py:77 | The quotient is truncated toward zero. For a >= 0, q*b <= a < q*b + b with q >= 0. For a < 0, q*b - b < a <= q*b with q <= 0. |
| `CasualTouch.ScrollAmount` | Casual-Touch.py:77 | The scroll is positive iff the index tip is at least 10 px below the middle tip, and negative iff it is at least 10 px above it. The amount is the gap divided by 10, truncated toward zero. |
| `CasualTouch.ScrollAntisymmetric` | Casual-Touch.py:77 | Swapping the two fingertip heights negates the scroll amount. |
| `CasualTouch.PinchActions` | Casual-Touch.py:68-79 | At most one action, either a click or a scroll. A click iff squared length < 900, more than 1.0 s since the last click, and at least 0.5 s since the click record's startTime. A scroll iff squared length >= 1600 and the truncated amount is nonzero, with that amount. Nothing in [900, 1600). |
| `CasualTouch.TouchlessController.constructor` | Casual-Touch.py:7-36 | All six records idle at time 0, and cursor and lastClickTime at 0. The screen size is the host's, or 1920x1080 when the host cannot report one. |
| `CasualTouch.TouchlessController.UpdateGestureState` | Casual-Touch.py:38-49 | The named record moves by `NextRecord`, and the result is its fire flag. Other records and all other fields are unchanged. |
| `CasualTouch.TouchlessController.MoveStep` | Casual-Touch.py:53-65 | When move fires, cloc is ploc smoothed toward the mapped index tip, the emitted point is (wScr - clocX, clocY), and ploc := cloc. Otherwise the cursor fields are unchanged and nothing is emitted. |
| `CasualTouch.TouchlessController.PinchStep` | Casual-Touch.py:67-79 | Under the index+middle pose, emits `PinchActions` of the index-middle pinch. Otherwise it emits nothing. Only a click moves lastClickTime, to now. |
| `CasualTouch.TouchlessController.TimedStep` | Casual-Touch.py:81-97 | The record moves by `NextRecord`. On a fire, emits the action followed by a one-second pause. |
| `CasualTouch.TouchlessController.ProcessGesture` | Casual-Touch.py:51-97 | The new record map is the old one with move, right-click, swipe-left and swipe-right advanced by `NextRecord`. The actions are, in order: the move, the pinch action, then right-click, swipe-left and swipe-right, each with its pause. The cursor is as in `MoveStep`, lastClickTime moves only on a click, and the click and scroll records never change. |

## Left out

- The frame loop `run`, FPS computation with `pTime`, camera capture and all `cv2` drawing and display are I/O. `pTime` is used only there.
- Hand detection with mediapipe is a third-party model. So is the conversion `int(lm.x * w)` of normalised landmarks. `FindPosition` starts from integer pixels, one sequence per detected hand.
- The `handDetector` constructor arguments (`mode`, `maxHands`, the confidences) only configure mediapipe. The Python object has no `lmList` before the first `findPosition`. The model starts with an empty list.
- `pyautogui` calls become emitted `Action`s. A `FailSafeException` from `moveTo` is swallowed by the source, and the model emits the move either way. `pyautogui.size()` becomes the constructor's optional argument.
- `time.sleep(1)` becomes the `Pause(1)` action. Its blocking and its effect on later clock reads are not modelled. Only records whose condition is false read the clock after it.
- `time.time()` becomes the parameter `now`, one value per frame. The time that passes between the reads within one frame is not modelled.
- Floating point is not modelled. Times, cursor coordinates and `np.interp` use exact reals. `math.hypot` is replaced by the squared length, and `PinchThresholds` relates the two exactly.
- `HandTrackingModule.FindDistance`: negative (from-the-end) Python indices are not modelled. The indices must lie in `[0, |lmList|)`. The controller only uses 8 and 12.
- `CasualTouch.TouchlessController.ProcessGesture` and `PinchStep` require the landmark list to reach index 12 whenever index and middle are up. The source would raise an `IndexError` in `findDistance` on a shorter list. Its only caller, `run`, never gets there: `fingersUp` returns all zeros unless there are 21 landmarks, and the click/scroll branch then does not run.
- `run` does not call `processGesture` on a frame without a hand (Casual-Touch.py:113), so records keep their state while the hand is away. An armed record whose hold time has passed therefore fires on the first frame the hand returns in the same pose. The model has no operation for a frame without a hand: the state simply stays as it is.
- The controller's `self.detector` is not a field of the model. `ProcessGesture` takes the detector's landmark list as a parameter instead. The pinch is measured on that list, as `findDistance(8, 12)` does.
- The module-level `main` of the hand tracking file and the debugging script only print and display.
