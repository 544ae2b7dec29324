/** The adaptive detection scheduler and the mouth-open classifier of the
    optimised face-detection component. A time gate decides whether a tick
    runs detection; every face found then updates a smoothed velocity of the
    face box (which picks the next polling interval) and, while an overlay
    model is selected, the stored mouth landmarks and the open/closed flag. */
module FaceDetection {
  import opened Landmarks

  const InitialInterval: int := 50
  const FastInterval: int := 30
  const MediumInterval: int := 50
  const SlowInterval: int := 100

  /** Velocity bands, in pixels per detection. */
  const FastVelocity: real := 10.0
  const MediumVelocity: real := 5.0

  /** Weight kept from the previous velocity, and weight of the new sample. */
  const Retention: real := 0.7
  const Gain: real := 0.3

  /** Inner-lip gap, in pixels, from which the mouth counts as open. */
  const MouthOpenThreshold: real := 10.0

  /** A detected face box; only its top-left corner enters the motion. */
  datatype Box = Box(x: real, y: real, width: real, height: real)

  /** One detection as the landmark provider returns it: the box, and the
      mouth contour when landmarks came back with the face. */
  datatype Face = Face(box: Box, mouth: Option<seq<Point>>)

  /** The scheduler's motion history. */
  datatype Motion = Motion(lastFacePosition: Option<Box>, faceVelocity: real, detectionInterval: int)

  /** Everything the component keeps across detection ticks. */
  datatype Detector = Detector(lastDetectionTime: int, motion: Motion,
                               mouthLandmarks: Option<seq<Point>>, isMouthOpen: bool,
                               detectionCount: nat)

  const InitialDetector: Detector :=
    Detector(0, Motion(None, 0.0, InitialInterval), None, false, 0)

  /** Exponential moving average step: the result lies between the old
      velocity and the new sample. */
  function Smooth(velocity: real, sample: real): (v: real)
    ensures velocity <= sample ==> velocity <= v <= sample
    ensures sample <= velocity ==> sample <= v <= velocity
    ensures sample == 0.0 ==> v == Retention * velocity
  {
    velocity * Retention + sample * Gain
  }

  /** The polling interval for a velocity: three bands that partition the
      reals, a faster face getting a shorter interval. */
  function IntervalFor(velocity: real): (ms: int)
    ensures ms == FastInterval <==> velocity > FastVelocity
    ensures ms == MediumInterval <==> MediumVelocity < velocity <= FastVelocity
    ensures ms == SlowInterval <==> velocity <= MediumVelocity
  {
    if velocity > FastVelocity then FastInterval
    else if velocity > MediumVelocity then MediumInterval
    else SlowInterval
  }

  lemma IntervalAntitone(v1: real, v2: real)
    requires v1 <= v2
    ensures IntervalFor(v2) <= IntervalFor(v1)
  {
  }

  /** Squared Euclidean distance between the top-left corners of two boxes. */
  function SquaredDistance(from: Box, to: Box): (d2: real)
    ensures d2 >= 0.0
    ensures from.x == to.x && from.y == to.y ==> d2 == 0.0
  {
    var dx, dy := to.x - from.x, to.y - from.y;
    SquareNonNegative(dx);
    SquareNonNegative(dy);
    dx * dx + dy * dy
  }

  lemma SquareNonNegative(a: real)
    ensures a * a >= 0.0
  {
    if a < 0.0 {
      assert a * a == (-a) * (-a);
    }
  }

  /** Euclidean distance between the top-left corners of two boxes. */
  function Displacement(from: Box, to: Box, sqrt: real -> real): real
  {
    sqrt(SquaredDistance(from, to))
  }

  /** A box that only changes size has not moved: displacement is measured
      between corners, not centres. */
  lemma ResizeIsNotMotion(b: Box, width: real, height: real, sqrt: real -> real)
    requires sqrt(0.0) == 0.0
    ensures Displacement(b, b.(width := width, height := height), sqrt) == 0.0
  {
    assert SquaredDistance(b, b.(width := width, height := height)) == 0.0;
  }

  /** One call of the adaptive-interval update for a detected box. */
  function AdaptiveMotion(m: Motion, box: Box, sqrt: real -> real): (r: Motion)
    ensures r.lastFacePosition == Some(box)
    ensures m.lastFacePosition.None? ==>
              r.faceVelocity == m.faceVelocity && r.detectionInterval == m.detectionInterval
    ensures m.lastFacePosition.Some? ==>
              r.faceVelocity == Smooth(m.faceVelocity, Displacement(m.lastFacePosition.value, box, sqrt)) &&
              r.detectionInterval in {FastInterval, MediumInterval, SlowInterval} &&
              r.detectionInterval == IntervalFor(r.faceVelocity)
  {
    match m.lastFacePosition
    case None => m.(lastFacePosition := Some(box))
    case Some(prev) =>
      var v := Smooth(m.faceVelocity, Displacement(prev, box, sqrt));
      Motion(Some(box), v, IntervalFor(v))
  }

  /** The open/closed classification of a full mouth contour; a gap of
      exactly the threshold counts as open. */
  function MouthIsOpen(m: seq<Point>): (open: bool)
    requires |m| >= MouthPointCount
    ensures open <==> (m[BottomInnerLip].y - m[TopInnerLip].y >= MouthOpenThreshold ||
                       m[TopInnerLip].y - m[BottomInnerLip].y >= MouthOpenThreshold)
  {
    MouthHeight(m) >= MouthOpenThreshold
  }

  /** A gap of exactly the threshold is open; anything smaller is closed. */
  lemma ClassifierBoundary(m: seq<Point>)
    requires |m| >= MouthPointCount
    ensures MouthHeight(m) == MouthOpenThreshold ==> MouthIsOpen(m)
    ensures MouthHeight(m) < MouthOpenThreshold ==> !MouthIsOpen(m)
  {
  }

  /** A mouth contour with the given corners and inner lip centres; the
      other sixteen points sit on the corner line. */
  function SampleMouth(left: Point, right: Point, top: Point, bottom: Point): (m: seq<Point>)
    ensures |m| == MouthPointCount
    ensures m[LeftCorner] == left && m[RightCorner] == right
    ensures m[TopInnerLip] == top && m[BottomInnerLip] == bottom
  {
    seq(MouthPointCount, i requires 0 <= i < MouthPointCount =>
      if i == LeftCorner then left
      else if i == RightCorner then right
      else if i == TopInnerLip then top
      else if i == BottomInnerLip then bottom
      else Point(180.0, 300.0))
  }

  /** Corners at (150,300) and (210,300): inner lips at rows 295 and 305
      (10 px apart) read as open, at rows 298 and 302 (4 px) as closed. */
  lemma ClassifierScenarios()
    ensures MouthIsOpen(SampleMouth(Point(150.0, 300.0), Point(210.0, 300.0), Point(180.0, 295.0), Point(180.0, 305.0)))
    ensures !MouthIsOpen(SampleMouth(Point(150.0, 300.0), Point(210.0, 300.0), Point(180.0, 298.0), Point(180.0, 302.0)))
  {
  }

  /** The state after one face, and whether handling it completed (false:
      the classifier read a lip point past the end of a short contour and
      threw, which ends the loop over faces). */
  datatype Step = Step(detector: Detector, completed: bool)

  /** Handling of one detected face: motion update, then landmarks and
      gesture. */
  function ApplyFace(d: Detector, face: Face, modelSelected: bool, sqrt: real -> real): (s: Step)
    ensures s.detector.motion == AdaptiveMotion(d.motion, face.box, sqrt)
    ensures s.detector.lastDetectionTime == d.lastDetectionTime
    ensures s.detector.detectionCount == d.detectionCount
    ensures !s.completed <==> modelSelected && face.mouth.Some? && 0 < |face.mouth.value| < MouthPointCount
    ensures !modelSelected ==> s.detector.mouthLandmarks == None && !s.detector.isMouthOpen
    ensures modelSelected && face.mouth.Some? && |face.mouth.value| >= MouthPointCount ==>
              s.detector.mouthLandmarks == face.mouth &&
              s.detector.isMouthOpen == MouthIsOpen(face.mouth.value)
    ensures !s.completed ==> s.detector.mouthLandmarks == face.mouth && s.detector.isMouthOpen == d.isMouthOpen
    ensures modelSelected && (face.mouth.None? || face.mouth == Some([])) ==>
              s.detector.mouthLandmarks == d.mouthLandmarks && s.detector.isMouthOpen == d.isMouthOpen
  {
    var moved := d.(motion := AdaptiveMotion(d.motion, face.box, sqrt));
    if face.mouth.Some? && modelSelected then
      var mouth := face.mouth.value;
      if |mouth| == 0 then Step(moved, true)
      else if |mouth| < MouthPointCount then Step(moved.(mouthLandmarks := Some(mouth)), false)
      else Step(moved.(mouthLandmarks := Some(mouth), isMouthOpen := MouthIsOpen(mouth)), true)
    else if !modelSelected then
      Step(moved.(mouthLandmarks := None, isMouthOpen := false), true)
    else
      Step(moved, true)
  }

  /** The faces of one detection, in order, until one throws. */
  function ApplyFaces(d: Detector, faces: seq<Face>, modelSelected: bool, sqrt: real -> real): Detector
    decreases |faces|
  {
    if |faces| == 0 then d
    else
      var s := ApplyFace(d, faces[0], modelSelected, sqrt);
      if s.completed then ApplyFaces(s.detector, faces[1..], modelSelected, sqrt) else s.detector
  }

  /** The time gate: detection runs only once the current interval has
      elapsed since the last detection started. */
  predicate Due(d: Detector, now: int)
  {
    now - d.lastDetectionTime >= d.motion.detectionInterval
  }

  /** One detection tick: skipped while the video has no size or the gate
      is closed; otherwise the start time is recorded and, if at least one
      face was found, the count is bumped and the faces are handled. */
  function DetectionStep(d: Detector, now: int, videoWidth: nat, videoHeight: nat,
                         faces: seq<Face>, modelSelected: bool, sqrt: real -> real): Detector
  {
    if videoWidth == 0 || videoHeight == 0 || !Due(d, now) then d
    else
      var stamped := d.(lastDetectionTime := now);
      if |faces| == 0 then stamped
      else ApplyFaces(stamped.(detectionCount := stamped.detectionCount + 1), faces, modelSelected, sqrt)
  }

  // ---------------------------------------------------------------------
  // Properties of the scheduler

  /** A square-root oracle that, like Math.sqrt, never returns a negative
      number for a non-negative argument. */
  ghost predicate NonNegativeRoot(sqrt: real -> real)
  {
    forall x :: 0.0 <= x ==> 0.0 <= sqrt(x)
  }

  /** The scheduler invariant: velocity is never negative and the interval
      is one of the three bands (the initial 50 being one of them). */
  ghost predicate Valid(d: Detector)
  {
    d.motion.faceVelocity >= 0.0 &&
    d.motion.detectionInterval in {FastInterval, MediumInterval, SlowInterval}
  }

  lemma InitialValid()
    ensures Valid(InitialDetector)
  {
  }

  lemma {:induction false} ApplyFacesPreserves(d: Detector, faces: seq<Face>, modelSelected: bool, sqrt: real -> real)
    requires Valid(d) && NonNegativeRoot(sqrt)
    ensures Valid(ApplyFaces(d, faces, modelSelected, sqrt))
    decreases |faces|
  {
    if |faces| > 0 {
      var s := ApplyFace(d, faces[0], modelSelected, sqrt);
      if s.completed {
        ApplyFacesPreserves(s.detector, faces[1..], modelSelected, sqrt);
      }
    }
  }

  /** Every tick keeps the scheduler invariant. */
  lemma DetectionStepValid(d: Detector, now: int, videoWidth: nat, videoHeight: nat,
                           faces: seq<Face>, modelSelected: bool, sqrt: real -> real)
    requires Valid(d) && NonNegativeRoot(sqrt)
    ensures Valid(DetectionStep(d, now, videoWidth, videoHeight, faces, modelSelected, sqrt))
  {
    if videoWidth != 0 && videoHeight != 0 && Due(d, now) && |faces| > 0 {
      var stamped := d.(lastDetectionTime := now);
      ApplyFacesPreserves(stamped.(detectionCount := stamped.detectionCount + 1), faces, modelSelected, sqrt);
    }
  }

  /** A closed gate, or a video without a size yet, leaves every field as
      it was. */
  lemma SkippedTickChangesNothing(d: Detector, now: int, videoWidth: nat, videoHeight: nat,
                                  faces: seq<Face>, modelSelected: bool, sqrt: real -> real)
    requires videoWidth == 0 || videoHeight == 0 || now - d.lastDetectionTime < d.motion.detectionInterval
    ensures DetectionStep(d, now, videoWidth, videoHeight, faces, modelSelected, sqrt) == d
  {
  }

  /** An open gate records the tick's time whether or not a face is then
      found, and counts the detection only when one is. */
  lemma OpenGateStampsTime(d: Detector, now: int, videoWidth: nat, videoHeight: nat,
                           faces: seq<Face>, modelSelected: bool, sqrt: real -> real)
    requires videoWidth > 0 && videoHeight > 0 && Due(d, now)
    ensures var r := DetectionStep(d, now, videoWidth, videoHeight, faces, modelSelected, sqrt);
            r.lastDetectionTime == now &&
            r.detectionCount == d.detectionCount + (if |faces| > 0 then 1 else 0)
  {
    if |faces| > 0 {
      StampedFacesKeepClock(d.(lastDetectionTime := now, detectionCount := d.detectionCount + 1),
                            faces, modelSelected, sqrt);
    }
  }

  lemma {:induction false} StampedFacesKeepClock(d: Detector, faces: seq<Face>, modelSelected: bool, sqrt: real -> real)
    ensures var r := ApplyFaces(d, faces, modelSelected, sqrt);
            r.lastDetectionTime == d.lastDetectionTime && r.detectionCount == d.detectionCount
    decreases |faces|
  {
    if |faces| > 0 {
      var s := ApplyFace(d, faces[0], modelSelected, sqrt);
      if s.completed {
        StampedFacesKeepClock(s.detector, faces[1..], modelSelected, sqrt);
      }
    }
  }

  /** A tick that finds no face changes nothing but the time stamp: motion,
      landmarks and the gesture flag all stay as they were. */
  lemma NoFaceKeepsState(d: Detector, now: int, videoWidth: nat, videoHeight: nat,
                         modelSelected: bool, sqrt: real -> real)
    ensures var r := DetectionStep(d, now, videoWidth, videoHeight, [], modelSelected, sqrt);
            r == d.(lastDetectionTime := r.lastDetectionTime)
  {
  }

  /** With no overlay model selected, any tick that finds faces clears the
      landmarks and the gesture flag, and leaves the last face's box as the
      stored position. */
  lemma {:induction false} NoModelClearsGesture(d: Detector, faces: seq<Face>, sqrt: real -> real)
    requires |faces| > 0
    ensures var r := ApplyFaces(d, faces, false, sqrt);
            r.mouthLandmarks == None && !r.isMouthOpen &&
            r.motion.lastFacePosition == Some(faces[|faces| - 1].box)
    decreases |faces|
  {
    var s := ApplyFace(d, faces[0], false, sqrt);
    if |faces| > 1 {
      NoModelClearsGesture(s.detector, faces[1..], sqrt);
    }
  }

  /** Repeated updates with the box that is already stored. */
  function Still(m: Motion, n: nat, sqrt: real -> real): (r: Motion)
    requires m.lastFacePosition.Some?
    ensures r.lastFacePosition == m.lastFacePosition
  {
    if n == 0 then m else AdaptiveMotion(Still(m, n - 1, sqrt), m.lastFacePosition.value, sqrt)
  }

  /** A face that stays put loses at least 3/7 of its initial velocity per
      update in the harmonic sense: v_n * (7 + 3n) <= 7 * v_0. */
  lemma {:induction false} StillnessDecays(m: Motion, n: nat, sqrt: real -> real)
    requires m.lastFacePosition.Some? && m.faceVelocity >= 0.0 && sqrt(0.0) == 0.0
    ensures Still(m, n, sqrt).faceVelocity >= 0.0
    ensures Still(m, n, sqrt).faceVelocity * (7.0 + 3.0 * n as real) <= 7.0 * m.faceVelocity
  {
    if n > 0 {
      StillnessDecays(m, n - 1, sqrt);
      var prev := Still(m, n - 1, sqrt);
      var box := m.lastFacePosition.value;
      assert Displacement(box, box, sqrt) == 0.0;
      var v := prev.faceVelocity;
      var k := (n - 1) as real;
      assert Still(m, n, sqrt).faceVelocity == 0.7 * v;
      assert 0.7 * v * (7.0 + 3.0 * n as real) == v * (7.0 + 2.1 * k) + 0.0 * v;
      assert v * (7.0 + 2.1 * k) <= v * (7.0 + 3.0 * k);
    }
  }

  /** A face that stays put drives the interval to the slowest band within
      a number of updates proportional to its velocity. */
  lemma StillnessReachesSlowest(m: Motion, n: nat, sqrt: real -> real)
    requires m.lastFacePosition.Some? && m.faceVelocity >= 0.0 && sqrt(0.0) == 0.0
    requires n >= 1 && 15.0 * n as real >= 7.0 * m.faceVelocity
    ensures Still(m, n, sqrt).detectionInterval == SlowInterval
  {
    StillnessDecays(m, n, sqrt);
    var v := Still(m, n, sqrt).faceVelocity;
    assert v * (7.0 + 3.0 * n as real) <= 35.0 + 15.0 * n as real;
    NonPositiveFactor(v - 5.0, 7.0 + 3.0 * n as real);
    var prev := Still(m, n - 1, sqrt);
    assert Still(m, n, sqrt) == AdaptiveMotion(prev, m.lastFacePosition.value, sqrt);
  }

  /** A box whose corner moves from (100,100) to (150,140), about 64 px,
      against a resting history pushes the interval to the fast band. */
  lemma FastMoveScenario(size: real, sqrt: real -> real)
    requires sqrt(4100.0) >= 0.0 && sqrt(4100.0) * sqrt(4100.0) == 4100.0
    ensures AdaptiveMotion(Motion(Some(Box(100.0, 100.0, size, size)), 0.0, InitialInterval),
                           Box(150.0, 140.0, size, size), sqrt).detectionInterval == FastInterval
  {
    var from, to := Box(100.0, 100.0, size, size), Box(150.0, 140.0, size, size);
    assert SquaredDistance(from, to) == 4100.0;
    RootAbove(sqrt(4100.0), 34.0);
  }

  /** A non-negative number whose square exceeds b * b exceeds b. */
  lemma RootAbove(d: real, b: real)
    requires d >= 0.0 && b >= 0.0 && d * d > b * b
    ensures d > b
  {
    assert (d - b) * (d + b) == d * d - b * b;
    assert d + b > 0.0;
  }

  lemma NonPositiveFactor(a: real, c: real)
    requires c > 0.0 && a * c <= 0.0
    ensures a <= 0.0
  {
  }

  // ---------------------------------------------------------------------
  // The component's refs and state, updated in place

  class FaceDetector {
    var lastDetectionTime: int
    var detectionInterval: int
    var lastFacePosition: Option<Box>
    var faceVelocity: real
    var mouthLandmarks: Option<seq<Point>>
    var isMouthOpen: bool
    var detectionCount: nat

    function Model(): Detector
      reads this
    {
      Detector(lastDetectionTime, Motion(lastFacePosition, faceVelocity, detectionInterval),
               mouthLandmarks, isMouthOpen, detectionCount)
    }

    constructor ()
      ensures Model() == InitialDetector
    {
      lastDetectionTime := 0;
      detectionInterval := InitialInterval;
      lastFacePosition := None;
      faceVelocity := 0.0;
      mouthLandmarks := None;
      isMouthOpen := false;
      detectionCount := 0;
    }

    /** The time gate at the head of a detection. */
    method Tick(now: int) returns (due: bool)
      modifies this
      ensures due == Due(old(Model()), now)
      ensures Model() == if due then old(Model()).(lastDetectionTime := now) else old(Model())
    {
      if now - lastDetectionTime < detectionInterval {
        return false;
      }
      lastDetectionTime := now;
      return true;
    }

    method CalculateAdaptiveInterval(box: Box, sqrt: real -> real)
      modifies this
      ensures Model() == old(Model()).(motion := AdaptiveMotion(old(Model()).motion, box, sqrt))
    {
      if lastFacePosition.None? {
        lastFacePosition := Some(box);
        return;
      }
      var prev := lastFacePosition.value;
      var dx := box.x - prev.x;
      var dy := box.y - prev.y;
      var squared := dx * dx + dy * dy;
      assert squared == SquaredDistance(prev, box);
      var distance := sqrt(squared);
      faceVelocity := faceVelocity * 0.7 + distance * 0.3;
      if faceVelocity > 10.0 {
        detectionInterval := 30;
      } else if faceVelocity > 5.0 {
        detectionInterval := 50;
      } else {
        detectionInterval := 100;
      }
      lastFacePosition := Some(box);
      assert distance == Displacement(prev, box, sqrt);
      assert faceVelocity == Smooth(old(faceVelocity), distance);
      assert detectionInterval == IntervalFor(faceVelocity);
    }

    /** The body of the loop over detected faces. */
    method OnDetection(face: Face, modelSelected: bool, sqrt: real -> real) returns (completed: bool)
      modifies this
      ensures Step(Model(), completed) == ApplyFace(old(Model()), face, modelSelected, sqrt)
    {
      CalculateAdaptiveInterval(face.box, sqrt);
      completed := true;
      if face.mouth.Some? && modelSelected {
        var mouthPoints := face.mouth.value;
        if |mouthPoints| > 0 {
          mouthLandmarks := Some(mouthPoints);
          if |mouthPoints| < MouthPointCount {
            completed := false;
            return;
          }
          var mouthHeight := Abs(mouthPoints[BottomInnerLip].y - mouthPoints[TopInnerLip].y);
          isMouthOpen := mouthHeight >= MouthOpenThreshold;
        }
      } else if !modelSelected {
        mouthLandmarks := None;
        isMouthOpen := false;
      }
    }

    /** One detection tick, with the landmark provider's answer given. */
    method DetectFace(now: int, videoWidth: nat, videoHeight: nat, faces: seq<Face>,
                      modelSelected: bool, sqrt: real -> real)
      modifies this
      ensures Model() == DetectionStep(old(Model()), now, videoWidth, videoHeight, faces, modelSelected, sqrt)
    {
      if videoWidth == 0 || videoHeight == 0 {
        return;
      }
      var due := Tick(now);
      if !due {
        return;
      }
      if |faces| > 0 {
        detectionCount := detectionCount + 1;
        ghost var start := Model();
        var i := 0;
        while i < |faces|
          invariant 0 <= i <= |faces|
          invariant ApplyFaces(Model(), faces[i..], modelSelected, sqrt) == ApplyFaces(start, faces, modelSelected, sqrt)
        {
          assert faces[i..][1..] == faces[i + 1..];
          var completed := OnDetection(faces[i], modelSelected, sqrt);
          if !completed {
            return;
          }
          i := i + 1;
        }
      }
    }
  }
}
