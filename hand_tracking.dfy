/*
 * Landmark interpreter of the hand tracker: turns the 21 pixel landmarks of
 * one hand into a finger-up vector, a pinch distance with its midpoint, and
 * the landmark list with its bounding box.
 *
 * Landmark coordinates arrive already in integer pixels; the pose model and
 * the normalised-to-pixel conversion are outside this model.
 */
module HandTrackingModule {

  datatype Option<T> = None | Some(value: T)

  /** One entry of the landmark list: `[id, cx, cy]`. */
  datatype Landmark = Landmark(id: int, x: int, y: int)

  /** A landmark already converted to pixel coordinates by the caller. */
  datatype Pixel = Pixel(x: int, y: int)

  /** `(xMin, yMin, xMax, yMax)` */
  datatype BBox = BBox(xMin: int, yMin: int, xMax: int, yMax: int)

  /** `[x1, y1, x2, y2, cx, cy]`: the two endpoints and their midpoint. */
  datatype LineInfo = LineInfo(x1: int, y1: int, x2: int, y2: int, cx: int, cy: int)

  /** The pinch measurement: the squared length stands for `math.hypot`'s length. */
  datatype Distance = Distance(lengthSq: int, lineInfo: LineInfo)

  /** Landmark indices of the thumb, index, middle, ring and pinky tips. */
  const TipIds: seq<int> := [4, 8, 12, 16, 20]

  /** A tracked hand has exactly this many landmarks. */
  const LandmarkCount: nat := 21

  /** Whether finger `k` counts as extended: the thumb compares x against the
      joint one back, the other fingers compare y against the joint two back. */
  predicate Extended(lmList: seq<Landmark>, k: int)
    requires |lmList| == LandmarkCount && 0 <= k < 5
  {
    if k == 0 then lmList[TipIds[0]].x > lmList[TipIds[0] - 1].x
    else lmList[TipIds[k]].y < lmList[TipIds[k] - 2].y
  }

  /** A finger-up vector: every entry is 0 (down) or 1 (up). */
  predicate Binary(f: seq<int>)
  {
    forall i :: 0 <= i < |f| ==> f[i] == 0 || f[i] == 1
  }

  /** Classifies the five fingers; a list of any other length than 21
      gives all zeros. */
  method FingersUp(lmList: seq<Landmark>) returns (fingers: seq<int>)
    ensures |fingers| == 5
    ensures Binary(fingers)
    ensures |lmList| != LandmarkCount ==> fingers == [0, 0, 0, 0, 0]
    ensures |lmList| == LandmarkCount ==>
      (fingers[0] == 1 <==> lmList[4].x > lmList[3].x) &&
      (fingers[1] == 1 <==> lmList[8].y < lmList[6].y) &&
      (fingers[2] == 1 <==> lmList[12].y < lmList[10].y) &&
      (fingers[3] == 1 <==> lmList[16].y < lmList[14].y) &&
      (fingers[4] == 1 <==> lmList[20].y < lmList[18].y)
  {
    if |lmList| != LandmarkCount {
      return [0, 0, 0, 0, 0];
    }
    fingers := [];
    // Thumb
    if lmList[TipIds[0]].x > lmList[TipIds[0] - 1].x {
      fingers := fingers + [1];
    } else {
      fingers := fingers + [0];
    }
    // Fingers
    for id := 1 to 5
      invariant |fingers| == id
      invariant forall k :: 0 <= k < id ==> (fingers[k] == 1 <==> Extended(lmList, k))
      invariant forall k :: 0 <= k < id ==> fingers[k] == 0 || fingers[k] == 1
    {
      if lmList[TipIds[id]].y < lmList[TipIds[id] - 2].y {
        fingers := fingers + [1];
      } else {
        fingers := fingers + [0];
      }
    }
  }

  /** Squared Euclidean length of the segment from (x1, y1) to (x2, y2). */
  function SquaredLength(x1: int, y1: int, x2: int, y2: int): (r: int)
    ensures r >= 0
    ensures r == 0 <==> x1 == x2 && y1 == y2
  {
    var dx, dy := x2 - x1, y2 - y1;
    assert dx * dx >= 0 && dy * dy >= 0;
    assert dx != 0 ==> dx * dx > 0;
    assert dy != 0 ==> dy * dy > 0;
    dx * dx + dy * dy
  }

  /** The pinch measurement between landmarks `p1` and `p2`: the midpoint is
      rounded down (Python's `//`), the length is kept squared. */
  function FindDistance(lmList: seq<Landmark>, p1: int, p2: int): (r: Distance)
    requires 0 <= p1 < |lmList| && 0 <= p2 < |lmList|
    ensures r.lineInfo.x1 == lmList[p1].x && r.lineInfo.y1 == lmList[p1].y
    ensures r.lineInfo.x2 == lmList[p2].x && r.lineInfo.y2 == lmList[p2].y
    ensures 2 * r.lineInfo.cx <= lmList[p1].x + lmList[p2].x < 2 * r.lineInfo.cx + 2
    ensures 2 * r.lineInfo.cy <= lmList[p1].y + lmList[p2].y < 2 * r.lineInfo.cy + 2
    ensures r.lengthSq >= 0
    ensures r.lengthSq == 0 <==> lmList[p1].x == lmList[p2].x && lmList[p1].y == lmList[p2].y
  {
    var x1, y1 := lmList[p1].x, lmList[p1].y;
    var x2, y2 := lmList[p2].x, lmList[p2].y;
    // Dafny's `/` by a positive divisor rounds down, as Python's `//` does.
    var cx, cy := (x1 + x2) / 2, (y1 + y2) / 2;
    Distance(SquaredLength(x1, y1, x2, y2), LineInfo(x1, y1, x2, y2, cx, cy))
  }

  /** Swapping the two landmarks gives the same length and midpoint. */
  lemma FindDistanceSymmetric(lmList: seq<Landmark>, p1: int, p2: int)
    requires 0 <= p1 < |lmList| && 0 <= p2 < |lmList|
    ensures FindDistance(lmList, p1, p2).lengthSq == FindDistance(lmList, p2, p1).lengthSq
    ensures FindDistance(lmList, p1, p2).lineInfo.cx == FindDistance(lmList, p2, p1).lineInfo.cx
    ensures FindDistance(lmList, p1, p2).lineInfo.cy == FindDistance(lmList, p2, p1).lineInfo.cy
  {
  }

  /** Comparing the exact (non-negative) length with the click and scroll
      thresholds is the same as comparing its square with their squares. */
  lemma PinchThresholds(length: real, lengthSq: int)
    requires length >= 0.0 && length * length == lengthSq as real
    ensures length < 30.0 <==> lengthSq < 900
    ensures length >= 40.0 <==> lengthSq >= 1600
  {
    if length < 30.0 {
      assert length * length <= length * 30.0 < 900.0;
    } else {
      assert length * length >= length * 30.0 >= 900.0;
    }
    if length >= 40.0 {
      assert length * length >= length * 40.0 >= 1600.0;
    } else {
      assert length * length <= length * 40.0 < 1600.0;
    }
  }

  /** Smallest of `init` and the elements of `xs`, folded left to right as
      the landmark loop does. */
  function MinFold(init: int, xs: seq<int>): (m: int)
    ensures m <= init
    ensures m == init || m in xs
    decreases |xs|
  {
    if xs == [] then init
    else
      var m := MinFold(init, xs[..|xs| - 1]);
      if xs[|xs| - 1] < m then xs[|xs| - 1] else m
  }

  /** Largest of `init` and the elements of `xs`, folded left to right. */
  function MaxFold(init: int, xs: seq<int>): (m: int)
    ensures m >= init
    ensures m == init || m in xs
    decreases |xs|
  {
    if xs == [] then init
    else
      var m := MaxFold(init, xs[..|xs| - 1]);
      if xs[|xs| - 1] > m then xs[|xs| - 1] else m
  }

  /** The min fold is the least of `init` and the elements, and is one of them. */
  lemma {:induction false} MinFoldIsLeast(init: int, xs: seq<int>)
    ensures MinFold(init, xs) <= init
    ensures forall k :: 0 <= k < |xs| ==> MinFold(init, xs) <= xs[k]
    ensures MinFold(init, xs) == init || exists k :: 0 <= k < |xs| && MinFold(init, xs) == xs[k]
    decreases |xs|
  {
    if xs != [] {
      var front := xs[..|xs| - 1];
      MinFoldIsLeast(init, front);
      assert forall k :: 0 <= k < |front| ==> front[k] == xs[k];
    }
  }

  /** The max fold is the greatest of `init` and the elements, and is one of them. */
  lemma {:induction false} MaxFoldIsGreatest(init: int, xs: seq<int>)
    ensures MaxFold(init, xs) >= init
    ensures forall k :: 0 <= k < |xs| ==> MaxFold(init, xs) >= xs[k]
    ensures MaxFold(init, xs) == init || exists k :: 0 <= k < |xs| && MaxFold(init, xs) == xs[k]
    decreases |xs|
  {
    if xs != [] {
      var front := xs[..|xs| - 1];
      MaxFoldIsGreatest(init, front);
      assert forall k :: 0 <= k < |front| ==> front[k] == xs[k];
    }
  }

  /** One more element extends both folds by a single comparison. */
  lemma FoldStep(init: int, xs: seq<int>, i: int)
    requires 0 <= i < |xs|
    ensures MinFold(init, xs[..i + 1]) ==
      if xs[i] < MinFold(init, xs[..i]) then xs[i] else MinFold(init, xs[..i])
    ensures MaxFold(init, xs[..i + 1]) ==
      if xs[i] > MaxFold(init, xs[..i]) then xs[i] else MaxFold(init, xs[..i])
  {
    assert xs[..i + 1][..i] == xs[..i];
  }

  /** Every pixel of a hand lies inside the box FindPosition builds for it. */
  lemma BBoxEnclosesHand(hand: seq<Pixel>, w: int, h: int)
    ensures forall i :: 0 <= i < |hand| ==>
      MinFold(w, Xs(hand)) <= hand[i].x <= MaxFold(0, Xs(hand)) &&
      MinFold(h, Ys(hand)) <= hand[i].y <= MaxFold(0, Ys(hand))
  {
    MinFoldIsLeast(w, Xs(hand));
    MinFoldIsLeast(h, Ys(hand));
    MaxFoldIsGreatest(0, Xs(hand));
    MaxFoldIsGreatest(0, Ys(hand));
  }

  function Xs(pixels: seq<Pixel>): (r: seq<int>)
    ensures |r| == |pixels| && forall i :: 0 <= i < |pixels| ==> r[i] == pixels[i].x
  {
    seq(|pixels|, i requires 0 <= i < |pixels| => pixels[i].x)
  }

  function Ys(pixels: seq<Pixel>): (r: seq<int>)
    ensures |r| == |pixels| && forall i :: 0 <= i < |pixels| ==> r[i] == pixels[i].y
  {
    seq(|pixels|, i requires 0 <= i < |pixels| => pixels[i].y)
  }

  /** The detector's per-frame landmark list, rebuilt by FindPosition. */
  class HandDetector {
    var lmList: seq<Landmark>

    constructor ()
      ensures lmList == []
    {
      lmList := [];
    }

    /** Rebuilds the landmark list from hand number `handNo` of the detected
        hands (`hands == []` when no hand is seen) in a `w` by `h` image, and
        returns it with its bounding box. */
    method FindPosition(hands: seq<seq<Pixel>>, handNo: nat, w: int, h: int)
      returns (lms: seq<Landmark>, bbox: Option<BBox>)
      requires hands != [] ==> handNo < |hands|
      modifies this
      ensures lmList == lms
      ensures hands == [] ==> lms == [] && bbox == None
      ensures hands != [] ==>
        var hand := hands[handNo];
        |lms| == |hand| &&
        (forall i :: 0 <= i < |hand| ==> lms[i] == Landmark(i, hand[i].x, hand[i].y)) &&
        bbox == Some(BBox(MinFold(w, Xs(hand)), MinFold(h, Ys(hand)),
                          MaxFold(0, Xs(hand)), MaxFold(0, Ys(hand))))
    {
      bbox := None;
      lms := [];
      if hands != [] {
        var myHand := hands[handNo];
        var xMin, yMin := w, h;
        var xMax, yMax := 0, 0;
        ghost var xs, ys := Xs(myHand), Ys(myHand);
        for id := 0 to |myHand|
          invariant |lms| == id
          invariant forall i :: 0 <= i < id ==> lms[i] == Landmark(i, myHand[i].x, myHand[i].y)
          invariant xMin == MinFold(w, xs[..id]) && yMin == MinFold(h, ys[..id])
          invariant xMax == MaxFold(0, xs[..id]) && yMax == MaxFold(0, ys[..id])
        {
          var cx, cy := myHand[id].x, myHand[id].y;
          lms := lms + [Landmark(id, cx, cy)];
          FoldStep(w, xs, id);
          FoldStep(h, ys, id);
          FoldStep(0, xs, id);
          FoldStep(0, ys, id);
          if cx < xMin {
            xMin := cx;
          }
          if cy < yMin {
            yMin := cy;
          }
          if cx > xMax {
            xMax := cx;
          }
          if cy > yMax {
            yMax := cy;
          }
        }
        assert xs[..|myHand|] == xs && ys[..|myHand|] == ys;
        bbox := Some(BBox(xMin, yMin, xMax, yMax));
      }
      lmList := lms;
    }
  }
}
