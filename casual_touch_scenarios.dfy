/*
 * Client scenarios for the controller, following the repository's unit
 * tests: what a caller can conclude from the contracts alone.
 */
module CasualTouchScenarios {
  import opened HandTrackingModule
  import opened CasualTouch

  /** A 21-landmark hand whose middle tip lies `gap` pixels right of the
      index tip, all other landmarks at the origin. */
  function PinchHand(gap: int): (lms: seq<Landmark>)
    ensures |lms| == LandmarkCount
    ensures FindDistance(lms, IndexTip, MiddleTip).lengthSq == gap * gap
  {
    seq(LandmarkCount, i requires 0 <= i < LandmarkCount =>
      Landmark(i, if i == MiddleTip then gap else 0, 0))
  }

  /** The index finger alone: the first frame only arms, one second later
      the cursor moves to the mirrored, smoothed target. */
  method MoveScenario()
  {
    var c := new TouchlessController(Some(DefaultScreen));
    var a1 := c.ProcessGesture([0, 1, 0, 0, 0], 200, 200, 0, 0, [], 1000.0);
    assert a1 == [];
    var a2 := c.ProcessGesture([0, 1, 0, 0, 0], 200, 200, 0, 0, [], 1001.0);
    assert a2 == [MoveTo(1920.0 - (100.0 * 1920.0 / 440.0) / 4.0, (100.0 * 1080.0 / 280.0) / 4.0)];
  }

  /** Index and middle up, pinched to 20 pixels, on a fresh controller:
      exactly one click, and the cooldown timestamp moves to now. */
  method ClickScenario()
  {
    var c := new TouchlessController(Some(DefaultScreen));
    var a := c.ProcessGesture([0, 1, 1, 0, 0], 0, 0, 0, 0, PinchHand(20), 2000.0);
    assert a == [MouseClick];
    assert c.lastClickTime == 2000.0;
    // Within the cooldown the same pinch does nothing.
    var b := c.ProcessGesture([0, 1, 1, 0, 0], 0, 0, 0, 0, PinchHand(20), 2000.5);
    assert b == [];
  }

  /** Index and middle spread 50 pixels apart, index tip 100 pixels above
      the middle tip: scroll by -10. */
  method ScrollScenario()
  {
    var c := new TouchlessController(Some(DefaultScreen));
    var a := c.ProcessGesture([0, 1, 1, 0, 0], 0, 100, 0, 200, PinchHand(50), 5000.0);
    assert a == [MouseScroll(-10)];
  }

  /** A pinch of 35 pixels lies in the dead zone: neither click nor scroll. */
  method DeadZoneScenario()
  {
    var c := new TouchlessController(Some(DefaultScreen));
    var a := c.ProcessGesture([0, 1, 1, 0, 0], 0, 100, 0, 200, PinchHand(35), 5000.0);
    assert a == [];
  }

  /** Four fingers up: arms on the first frame, right-clicks one second later. */
  method RightClickScenario()
  {
    var c := new TouchlessController(Some(DefaultScreen));
    var a1 := c.ProcessGesture([0, 1, 1, 1, 1], 0, 0, 0, 0, PinchHand(100), 3000.0);
    assert a1 == [];
    var a2 := c.ProcessGesture([0, 1, 1, 1, 1], 0, 0, 0, 0, PinchHand(100), 3001.0);
    assert a2 == [MouseRightClick, Pause(PauseSeconds)];
  }

  /** Index and pinky up: arms, then sends Ctrl+Left one second later. */
  method SwipeLeftScenario()
  {
    var c := new TouchlessController(Some(DefaultScreen));
    var a1 := c.ProcessGesture([0, 1, 0, 0, 1], 0, 0, 0, 0, [], 4000.0);
    assert a1 == [];
    var a2 := c.ProcessGesture([0, 1, 0, 0, 1], 0, 0, 0, 0, [], 4001.0);
    assert a2 == [Hotkey("ctrl", "left"), Pause(PauseSeconds)];
  }

  /** An all-zero finger vector, which is what FingersUp returns for a list
      of other than 21 landmarks. Whatever the state and the clock, nothing
      is emitted, the move, right-click and swipe records drop to idle, and
      the cursor and the cooldown keep their values. */
  method AllZeroFingersScenario(c: TouchlessController, x1: int, y1: int, x2: int, y2: int,
                        lmList: seq<Landmark>, now: real)
    requires c.Valid()
    modifies c
  {
    var cx, cy, lastClick := c.clocX, c.clocY, c.lastClickTime;
    var a := c.ProcessGesture([0, 0, 0, 0, 0], x1, y1, x2, y2, lmList, now);
    assert a == [];
    assert !c.gestureStates[Move].active && !c.gestureStates[RightClick].active;
    assert !c.gestureStates[SwipeLeft].active && !c.gestureStates[SwipeRight].active;
    assert c.clocX == cx && c.clocY == cy && c.lastClickTime == lastClick;
  }
}
