/*
 * The touchless controller: one timed activation record per gesture kind,
 * a click/scroll branch driven by the pinch length, and an exponentially
 * smoothed, mirrored cursor. Each frame turns a finger-up vector and the
 * index/middle fingertips into a list of abstract actions for the host's
 * input layer.
 *
 * Wall-clock time is the parameter `now` (seconds, exact reals); pixel
 * lengths are compared squared.
 */
module CasualTouch {
  import opened HandTrackingModule

  // Configuration of TouchlessController.__init__
  const WCam: int := 640
  const HCam: int := 480
  /** Margin of the active region inside the camera frame. */
  const FrameR: int := 100
  const Smoothening: real := 4.0
  const ClickCooldown: real := 1.0
  const ClickHoldTime: real := 0.5
  const GestureHoldTime: real := 0.8
  const ScrollSpeed: int := 10
  /** Screen size used when the host cannot report one. */
  const DefaultScreen: (int, int) := (1920, 1080)

  /** `length < 30` and `length >= 40`, stated on the squared length. */
  const ClickThresholdSq: int := 900
  const ScrollThresholdSq: int := 1600

  /** Landmarks whose distance is the pinch. */
  const IndexTip: int := 8
  const MiddleTip: int := 12

  /** Seconds of the blocking pause after a right-click or a swipe. */
  const PauseSeconds: int := 1

  datatype Gesture = Move | Click | Scroll | RightClick | SwipeLeft | SwipeRight

  /** `{"startTime": ..., "active": ...}` */
  datatype ActivationRecord = ActivationRecord(startTime: real, active: bool)

  const Idle: ActivationRecord := ActivationRecord(0.0, false)

  /** A record's next value and whether the gesture fires on this frame. */
  datatype Step = Step(next: ActivationRecord, fire: bool)

  /** What the controller asks of the host's input layer. */
  datatype Action =
    | MoveTo(x: real, y: real)
    | MouseClick
    | MouseScroll(clicks: int)
    | MouseRightClick
    | Hotkey(modifier: string, key: string)
    | Pause(seconds: int)

  /*
   * The Idle/Armed machine of one gesture record
   */

  /** One frame of a gesture record: arm on the first true frame, fire and
      re-arm once the hold time has passed, drop to idle on a false frame. */
  function NextRecord(r: ActivationRecord, condition: bool, now: real): (s: Step)
    // Armed exactly while the condition holds.
    ensures s.next.active == condition
    // Only an already armed record can fire: arming never fires.
    ensures s.fire <==> r.active && condition && now - r.startTime >= GestureHoldTime
    // The timer restarts when the record arms or fires, and nowhere else.
    ensures s.next.startTime == if condition && (!r.active || s.fire) then now else r.startTime
  {
    if condition then
      if !r.active then Step(ActivationRecord(now, true), false)
      else if now - r.startTime >= GestureHoldTime then Step(ActivationRecord(now, true), true)
      else Step(r, false)
    else
      Step(ActivationRecord(r.startTime, false), false)
  }

  /** Dropping to idle does not look at the clock. */
  lemma DeactivationIgnoresClock(r: ActivationRecord, t1: real, t2: real)
    ensures NextRecord(r, false, t1) == NextRecord(r, false, t2)
    ensures !NextRecord(r, false, t1).fire
  {
  }

  /** One frame of input to a gesture record. */
  datatype Frame = Frame(condition: bool, now: real)

  datatype RunResult = RunResult(last: ActivationRecord, fires: seq<real>)

  /** Feeds a record a sequence of frames; `fires` are the times it fired. */
  function Run(r: ActivationRecord, frames: seq<Frame>): RunResult
    decreases |frames|
  {
    if frames == [] then RunResult(r, [])
    else
      var s := NextRecord(r, frames[0].condition, frames[0].now);
      var rest := Run(s.next, frames[1..]);
      RunResult(rest.last, if s.fire then [frames[0].now] + rest.fires else rest.fires)
  }

  ghost predicate NonDecreasing(frames: seq<Frame>)
  {
    forall i, j :: 0 <= i < j < |frames| ==> frames[i].now <= frames[j].now
  }

  /** Time from which the first fire of a run is measured: the arming time of
      an armed record, otherwise the first frame. */
  function Anchor(r: ActivationRecord, frames: seq<Frame>): real
  {
    if r.active || frames == [] then r.startTime else frames[0].now
  }

  /** Over any run with a clock that does not go back, two fires are at least
      one hold time apart, and the first comes at least one hold time after
      the anchor; in particular a record that starts idle never fires on its
      first frame. */
  lemma {:induction false} FiresAreSpaced(r: ActivationRecord, frames: seq<Frame>)
    requires NonDecreasing(frames)
    requires r.active && frames != [] ==> r.startTime <= frames[0].now
    ensures var fires := Run(r, frames).fires;
      (forall i :: 0 <= i < |fires| - 1 ==> fires[i + 1] - fires[i] >= GestureHoldTime) &&
      (fires != [] ==> fires[0] - Anchor(r, frames) >= GestureHoldTime)
    decreases |frames|
  {
    if frames != [] {
      var s := NextRecord(r, frames[0].condition, frames[0].now);
      var tail := frames[1..];
      assert NonDecreasing(tail) by {
        forall i, j | 0 <= i < j < |tail| ensures tail[i].now <= tail[j].now {
          assert tail[i] == frames[i + 1] && tail[j] == frames[j + 1];
        }
      }
      if tail != [] {
        assert frames[0].now <= tail[0].now by { assert tail[0] == frames[1]; }
      }
      FiresAreSpaced(s.next, tail);
      if tail != [] {
        assert Anchor(s.next, tail) >= Anchor(r, frames);
      }
    }
  }

  /** A held pose that has been armed for a full hold time fires on the next
      frame and re-arms, so a pose held indefinitely fires periodically. */
  lemma HeldPoseFires(r: ActivationRecord, now: real)
    requires r.active && now - r.startTime >= GestureHoldTime
    ensures NextRecord(r, true, now) == Step(ActivationRecord(now, true), true)
  {
  }

  /*
   * Poses on the finger-up vector [thumb, index, middle, ring, pinky]
   */

  /** The fingers that are up: 0 thumb, 1 index, 2 middle, 3 ring, 4 pinky. */
  function Raised(f: seq<int>): set<int>
    requires |f| == 5
  {
    set i | 0 <= i < 5 && f[i] == 1
  }

  /** Index up; middle, ring and pinky down. */
  function MovePose(f: seq<int>): (b: bool)
    requires |f| == 5
    ensures Binary(f) ==> (b <==> 1 in Raised(f) && Raised(f) !! {2, 3, 4})
  {
    assert 1 in Raised(f) <==> f[1] == 1;
    assert 2 in Raised(f) <==> f[2] == 1;
    assert 3 in Raised(f) <==> f[3] == 1;
    assert 4 in Raised(f) <==> f[4] == 1;
    f[1] == 1 && f[2] == 0 && f[3] == 0 && f[4] == 0
  }

  /** Index and middle up: the shared precondition of click and scroll. */
  function ClickScrollPose(f: seq<int>): (b: bool)
    requires |f| == 5
    ensures b <==> {1, 2} <= Raised(f)
  {
    assert 1 in Raised(f) <==> f[1] == 1;
    assert 2 in Raised(f) <==> f[2] == 1;
    f[1] == 1 && f[2] == 1
  }

  /** Index, middle, ring and pinky up. */
  function RightClickPose(f: seq<int>): (b: bool)
    requires |f| == 5
    ensures b <==> {1, 2, 3, 4} <= Raised(f)
  {
    assert 1 in Raised(f) <==> f[1] == 1;
    assert 2 in Raised(f) <==> f[2] == 1;
    assert 3 in Raised(f) <==> f[3] == 1;
    assert 4 in Raised(f) <==> f[4] == 1;
    f[1] == 1 && f[2] == 1 && f[3] == 1 && f[4] == 1
  }

  /** Index and pinky up; thumb, middle and ring down. */
  function SwipeLeftPose(f: seq<int>): (b: bool)
    requires |f| == 5
    ensures Binary(f) ==> (b <==> Raised(f) == {1, 4})
  {
    assert 0 in Raised(f) <==> f[0] == 1;
    assert 1 in Raised(f) <==> f[1] == 1;
    assert 2 in Raised(f) <==> f[2] == 1;
    assert 3 in Raised(f) <==> f[3] == 1;
    assert 4 in Raised(f) <==> f[4] == 1;
    f[1] == 1 && f[4] == 1 && f[0] == 0 && f[2] == 0 && f[3] == 0
  }

  /** Thumb and pinky up; index, middle and ring down. */
  function SwipeRightPose(f: seq<int>): (b: bool)
    requires |f| == 5
    ensures Binary(f) ==> (b <==> Raised(f) == {0, 4})
  {
    assert 0 in Raised(f) <==> f[0] == 1;
    assert 1 in Raised(f) <==> f[1] == 1;
    assert 2 in Raised(f) <==> f[2] == 1;
    assert 3 in Raised(f) <==> f[3] == 1;
    assert 4 in Raised(f) <==> f[4] == 1;
    f[0] == 1 && f[4] == 1 && f[1] == 0 && f[2] == 0 && f[3] == 0
  }

  /** The four timed poses exclude each other; click/scroll excludes move and
      both swipes, but not right-click. */
  lemma PosesDisjoint(f: seq<int>)
    requires |f| == 5
    ensures !(MovePose(f) && RightClickPose(f)) && !(MovePose(f) && SwipeLeftPose(f))
    ensures !(MovePose(f) && SwipeRightPose(f)) && !(RightClickPose(f) && SwipeLeftPose(f))
    ensures !(RightClickPose(f) && SwipeRightPose(f)) && !(SwipeLeftPose(f) && SwipeRightPose(f))
    ensures !(ClickScrollPose(f) && (MovePose(f) || SwipeLeftPose(f) || SwipeRightPose(f)))
    ensures RightClickPose(f) ==> ClickScrollPose(f)
  {
  }

  /*
   * Cursor mapping and smoothing
   */

  /** Linear map of [lo, hi] onto [0, outHi], held at the ends outside it. */
  function Interp(v: real, lo: real, hi: real, outHi: real): (r: real)
    requires lo < hi
    ensures v <= lo ==> r == 0.0
    ensures v >= hi ==> r == outHi
    ensures lo <= v <= hi ==> r * (hi - lo) == (v - lo) * outHi
    ensures 0.0 <= outHi ==> 0.0 <= r <= outHi
  {
    if v <= lo then 0.0
    else if v >= hi then outHi
    else
      var t := (v - lo) / (hi - lo);
      assert t * (hi - lo) == v - lo;
      assert t >= 1.0 ==> t * (hi - lo) >= 1.0 * (hi - lo);
      assert 0.0 < t < 1.0;
      assert 0.0 <= outHi ==> 0.0 <= t * outHi <= outHi;
      t * outHi
  }

  /** One step of the smoothing filter toward `target`. */
  function Smooth(prev: real, target: real): (r: real)
    ensures r - target == (prev - target) * (Smoothening - 1.0) / Smoothening
    ensures prev <= target ==> prev <= r <= target
    ensures target <= prev ==> target <= r <= prev
  {
    prev + (target - prev) / Smoothening
  }

  function Pow(q: real, n: nat): real
  {
    if n == 0 then 1.0 else q * Pow(q, n - 1)
  }

  /** `n` smoothing steps toward a fixed target. */
  function SmoothIter(prev: real, target: real, n: nat): real
  {
    if n == 0 then prev else Smooth(SmoothIter(prev, target, n - 1), target)
  }

  /** Toward a fixed target the filter shrinks the gap by 3/4 per frame and
      never overshoots. Since (3/4)^n * (1 + n/3) <= 1, the gap after n frames
      is at most the first gap divided by 1 + n/3, so the filtered value
      converges to the target. */
  lemma {:induction false} SmoothingConverges(prev: real, target: real, n: nat)
    ensures SmoothIter(prev, target, n) - target == Pow(0.75, n) * (prev - target)
    ensures 0.0 < Pow(0.75, n) <= 1.0
    ensures Pow(0.75, n) * (1.0 + (n as real) / 3.0) <= 1.0
    ensures prev <= target ==> prev <= SmoothIter(prev, target, n) <= target
    ensures target <= prev ==> target <= SmoothIter(prev, target, n) <= prev
  {
    if n > 0 {
      SmoothingConverges(prev, target, n - 1);
      var s := SmoothIter(prev, target, n - 1);
      var p := Pow(0.75, n - 1);
      assert SmoothIter(prev, target, n) - target == (s - target) * 0.75;
      assert s - target == p * (prev - target);
      assert Pow(0.75, n) == 0.75 * p;
      assert (p * (prev - target)) * 0.75 == (0.75 * p) * (prev - target);
    }
  }

  /*
   * Scrolling
   */

  /** Integer division rounded toward zero, as Python's `int(a / b)`. */
  function TruncDiv(a: int, b: int): (q: int)
    requires b > 0
    ensures a >= 0 ==> 0 <= q && q * b <= a < q * b + b
    ensures a < 0 ==> q <= 0 && q * b - b < a <= q * b
  {
    if a >= 0 then
      var q := a / b;
      assert q * b + a % b == a && 0 <= a % b < b;
      q
    else
      var m := (-a) / b;
      assert m * b + (-a) % b == -a && 0 <= (-a) % b < b;
      -m
  }

  /** Signed scroll clicks for fingertips at heights `y1` (index) and `y2`
      (middle): positive when the index tip is lower on the image, one click
      per full `ScrollSpeed` pixels, none for a gap under `ScrollSpeed`. */
  function ScrollAmount(y1: int, y2: int): (n: int)
    ensures n > 0 <==> y1 - y2 >= ScrollSpeed
    ensures n < 0 <==> y1 - y2 <= -ScrollSpeed
    ensures y1 - y2 >= 0 ==> n * ScrollSpeed <= y1 - y2 < n * ScrollSpeed + ScrollSpeed
    ensures y1 - y2 < 0 ==> n * ScrollSpeed - ScrollSpeed < y1 - y2 <= n * ScrollSpeed
  {
    TruncDiv(y1 - y2, ScrollSpeed)
  }

  /** Swapping the two fingertips reverses the scroll. */
  lemma ScrollAntisymmetric(y1: int, y2: int)
    ensures ScrollAmount(y2, y1) == -ScrollAmount(y1, y2)
  {
  }

  /** What the click/scroll branch emits for a pinch of squared length
      `pinchSq`: a click when the pinch is short, the cooldown has passed and
      the click record's hold time has passed; a nonzero scroll when the pinch
      is long; nothing in the band between. */
  function PinchActions(pinchSq: int, y1: int, y2: int, now: real,
                        lastClickTime: real, clickStart: real): (acts: seq<Action>)
    ensures |acts| <= 1
    ensures forall a :: a in acts ==> a.MouseClick? || a.MouseScroll?
    ensures MouseClick in acts <==>
      pinchSq < ClickThresholdSq && now - lastClickTime > ClickCooldown &&
      now - clickStart >= ClickHoldTime
    ensures (acts != [] && acts[0].MouseScroll?) <==>
      pinchSq >= ScrollThresholdSq && ScrollAmount(y1, y2) != 0
    ensures acts != [] && acts[0].MouseScroll? ==> acts[0].clicks == ScrollAmount(y1, y2)
    ensures ClickThresholdSq <= pinchSq < ScrollThresholdSq ==> acts == []
  {
    if pinchSq < ClickThresholdSq && now - lastClickTime > ClickCooldown then
      if now - clickStart >= ClickHoldTime then [MouseClick] else []
    else if pinchSq >= ScrollThresholdSq && ScrollAmount(y1, y2) != 0 then
      [MouseScroll(ScrollAmount(y1, y2))]
    else []
  }

  /** The cursor target of the move gesture before smoothing: the active
      region, `FrameR` pixels inside the camera frame, stretched over the
      screen; a fingertip in the margin holds the target at the screen edge. */
  function CursorTarget(x1: int, y1: int, wScr: int, hScr: int): (t: (real, real))
    ensures 0 <= wScr ==> 0.0 <= t.0 <= wScr as real
    ensures 0 <= hScr ==> 0.0 <= t.1 <= hScr as real
    ensures x1 <= FrameR ==> t.0 == 0.0
    ensures x1 >= WCam - FrameR ==> t.0 == wScr as real
    ensures y1 <= FrameR ==> t.1 == 0.0
    ensures y1 >= HCam - FrameR ==> t.1 == hScr as real
    ensures FrameR <= x1 <= WCam - FrameR ==>
      t.0 * (WCam - 2 * FrameR) as real == (x1 - FrameR) as real * wScr as real
    ensures FrameR <= y1 <= HCam - FrameR ==>
      t.1 * (HCam - 2 * FrameR) as real == (y1 - FrameR) as real * hScr as real
  {
    (Interp(x1 as real, FrameR as real, (WCam - FrameR) as real, wScr as real),
     Interp(y1 as real, FrameR as real, (HCam - FrameR) as real, hScr as real))
  }

  /*
   * The controller
   */

  class TouchlessController {
    var wScr: int
    var hScr: int
    var plocX: real
    var plocY: real
    var clocX: real
    var clocY: real
    var lastClickTime: real
    var gestureStates: map<Gesture, ActivationRecord>

    /** Every gesture kind has its record. */
    ghost predicate Valid()
      reads this
    {
      Move in gestureStates && Click in gestureStates && Scroll in gestureStates &&
      RightClick in gestureStates && SwipeLeft in gestureStates && SwipeRight in gestureStates
    }

    /** `screenSize` is what the host reports, `None` when it cannot. */
    constructor (screenSize: Option<(int, int)>)
      ensures Valid()
      ensures forall g: Gesture :: g in gestureStates && gestureStates[g] == Idle
      ensures plocX == 0.0 && plocY == 0.0 && clocX == 0.0 && clocY == 0.0
      ensures lastClickTime == 0.0
      ensures (wScr, hScr) == if screenSize.Some? then screenSize.value else DefaultScreen
    {
      plocX, plocY := 0.0, 0.0;
      clocX, clocY := 0.0, 0.0;
      lastClickTime := 0.0;
      var states := map[Move := Idle, Click := Idle, Scroll := Idle,
                        RightClick := Idle, SwipeLeft := Idle, SwipeRight := Idle];
      forall g: Gesture ensures g in states {
        match g
        case Move =>
        case Click =>
        case Scroll =>
        case RightClick =>
        case SwipeLeft =>
        case SwipeRight =>
      }
      gestureStates := states;
      if screenSize.Some? {
        wScr, hScr := screenSize.value.0, screenSize.value.1;
      } else {
        wScr, hScr := DefaultScreen.0, DefaultScreen.1;
      }
    }

    /** Advances the record of gesture `g` by one frame and says whether the
        gesture fires; nothing but that record changes. */
    method UpdateGestureState(g: Gesture, condition: bool, now: real) returns (fire: bool)
      requires Valid()
      modifies this`gestureStates
      ensures Valid()
      ensures var s := NextRecord(old(gestureStates[g]), condition, now);
        gestureStates == old(gestureStates)[g := s.next] && fire == s.fire
      ensures forall h :: h != g ==> gestureStates[h] == old(gestureStates[h])
    {
      if condition {
        if !gestureStates[g].active {
          gestureStates := gestureStates[g := ActivationRecord(now, true)];
        } else if now - gestureStates[g].startTime >= GestureHoldTime {
          gestureStates := gestureStates[g := gestureStates[g].(startTime := now)];
          return true;
        }
      } else {
        gestureStates := gestureStates[g := gestureStates[g].(active := false)];
      }
      return false;
    }

    /** The move gesture of one frame: when its record fires, smooth the
        cursor toward the mapped index tip and emit the mirrored position. */
    method MoveStep(fingers: seq<int>, x1: int, y1: int, now: real) returns (acts: seq<Action>)
      requires Valid()
      requires |fingers| == 5
      modifies this`gestureStates, this`plocX, this`plocY, this`clocX, this`clocY
      ensures Valid()
      ensures var mv := NextRecord(old(gestureStates[Move]), MovePose(fingers), now);
        var target := CursorTarget(x1, y1, wScr, hScr);
        gestureStates == old(gestureStates)[Move := mv.next] &&
        if mv.fire then
          clocX == Smooth(old(plocX), target.0) && clocY == Smooth(old(plocY), target.1) &&
          plocX == clocX && plocY == clocY && acts == [MoveTo(wScr as real - clocX, clocY)]
        else
          clocX == old(clocX) && clocY == old(clocY) && plocX == old(plocX) &&
          plocY == old(plocY) && acts == []
    {
      acts := [];
      var fire := UpdateGestureState(Move, MovePose(fingers), now);
      if fire {
        var x3 := Interp(x1 as real, FrameR as real, (WCam - FrameR) as real, wScr as real);
        var y3 := Interp(y1 as real, FrameR as real, (HCam - FrameR) as real, hScr as real);
        clocX := plocX + (x3 - plocX) / Smoothening;
        clocY := plocY + (y3 - plocY) / Smoothening;
        acts := [MoveTo(wScr as real - clocX, clocY)];
        plocX, plocY := clocX, clocY;
      }
    }

    /** The click/scroll branch of one frame, measured on the pinch between
        the index and middle tips of `lmList`. */
    method PinchStep(fingers: seq<int>, y1: int, y2: int, lmList: seq<Landmark>, now: real)
      returns (acts: seq<Action>)
      requires Valid()
      requires |fingers| == 5
      requires ClickScrollPose(fingers) ==> MiddleTip < |lmList|
      modifies this`lastClickTime
      ensures acts ==
        if ClickScrollPose(fingers)
        then PinchActions(FindDistance(lmList, IndexTip, MiddleTip).lengthSq, y1, y2, now,
                          old(lastClickTime), gestureStates[Click].startTime)
        else []
      ensures lastClickTime == if MouseClick in acts then now else old(lastClickTime)
    {
      acts := [];
      if ClickScrollPose(fingers) {
        var d := FindDistance(lmList, IndexTip, MiddleTip);
        if d.lengthSq < ClickThresholdSq && now - lastClickTime > ClickCooldown {
          if now - gestureStates[Click].startTime >= ClickHoldTime {
            acts := [MouseClick];
            lastClickTime := now;
          }
        } else if d.lengthSq >= ScrollThresholdSq {
          var amount := ScrollAmount(y1, y2);
          if amount != 0 {
            acts := [MouseScroll(amount)];
          }
        }
      }
    }

    /** A right-click or swipe gesture of one frame: when its record fires,
        emit `action` followed by the blocking pause. */
    method TimedStep(g: Gesture, condition: bool, action: Action, now: real)
      returns (acts: seq<Action>)
      requires Valid()
      modifies this`gestureStates
      ensures Valid()
      ensures var s := NextRecord(old(gestureStates[g]), condition, now);
        gestureStates == old(gestureStates)[g := s.next] &&
        acts == if s.fire then [action, Pause(PauseSeconds)] else []
    {
      var fire := UpdateGestureState(g, condition, now);
      acts := if fire then [action, Pause(PauseSeconds)] else [];
    }

    /** One frame: move, click/scroll, right-click, swipe left, swipe right,
        in that order. `lmList` is the detector's landmark list, from which
        the pinch between the index and middle tips is measured. */
    method ProcessGesture(fingers: seq<int>, x1: int, y1: int, x2: int, y2: int,
                          lmList: seq<Landmark>, now: real) returns (actions: seq<Action>)
      requires Valid()
      requires |fingers| == 5
      requires ClickScrollPose(fingers) ==> MiddleTip < |lmList|
      modifies this`gestureStates, this`plocX, this`plocY, this`clocX, this`clocY, this`lastClickTime
      ensures Valid()
      ensures var mv := NextRecord(old(gestureStates[Move]), MovePose(fingers), now);
        var rc := NextRecord(old(gestureStates[RightClick]), RightClickPose(fingers), now);
        var sl := NextRecord(old(gestureStates[SwipeLeft]), SwipeLeftPose(fingers), now);
        var sr := NextRecord(old(gestureStates[SwipeRight]), SwipeRightPose(fingers), now);
        gestureStates ==
          old(gestureStates)[Move := mv.next][RightClick := rc.next]
                            [SwipeLeft := sl.next][SwipeRight := sr.next] &&
        actions ==
          (if mv.fire then [MoveTo(wScr as real - clocX, clocY)] else []) +
          (if ClickScrollPose(fingers)
           then PinchActions(FindDistance(lmList, IndexTip, MiddleTip).lengthSq, y1, y2, now,
                             old(lastClickTime), old(gestureStates[Click].startTime))
           else []) +
          (if rc.fire then [MouseRightClick, Pause(PauseSeconds)] else []) +
          (if sl.fire then [Hotkey("ctrl", "left"), Pause(PauseSeconds)] else []) +
          (if sr.fire then [Hotkey("ctrl", "right"), Pause(PauseSeconds)] else [])
      // The cursor: smoothed toward the mapped index tip when move fires,
      // untouched otherwise.
      ensures var mv := NextRecord(old(gestureStates[Move]), MovePose(fingers), now);
        var target := CursorTarget(x1, y1, wScr, hScr);
        if mv.fire then
          clocX == Smooth(old(plocX), target.0) && clocY == Smooth(old(plocY), target.1) &&
          plocX == clocX && plocY == clocY
        else
          clocX == old(clocX) && clocY == old(clocY) && plocX == old(plocX) && plocY == old(plocY)
      // Only a click moves the cooldown timestamp; the click and scroll
      // records are never written.
      ensures lastClickTime == if MouseClick in actions then now else old(lastClickTime)
      ensures gestureStates[Click] == old(gestureStates[Click])
      ensures gestureStates[Scroll] == old(gestureStates[Scroll])
    {
      // Move cursor
      var moveActs := MoveStep(fingers, x1, y1, now);
      // Click or scroll
      var pinchActs := PinchStep(fingers, y1, y2, lmList, now);
      // Right click
      var rightActs := TimedStep(RightClick, RightClickPose(fingers), MouseRightClick, now);
      // Swipe left (Ctrl + Left)
      var leftActs := TimedStep(SwipeLeft, SwipeLeftPose(fingers), Hotkey("ctrl", "left"), now);
      // Swipe right (Ctrl + Right)
      var rightSwipeActs :=
        TimedStep(SwipeRight, SwipeRightPose(fingers), Hotkey("ctrl", "right"), now);
      actions := moveActs + pinchActs + rightActs + leftActs + rightSwipeActs;
      assert MouseClick in actions <==> MouseClick in pinchActs;
    }
  }
}
