/** The optimised mouth overlay: each rendered frame, the mouthguard model
    is hidden unless landmarks are present and the mouth is open; when it
    is shown, it is placed on the camera's view plane at the mouth centre,
    scaled (without a floor) by mouth width and rolled by the mouth angle.
    Mirroring is left to a CSS horizontal flip of the whole overlay. */
module OverlayOptimized {
  import opened Landmarks
  import opened Scene

  const BaseScale: real := 0.001
  const WidthMultiplier: real := 15.0

  /** The wrapper's style carries `transform: scaleX(-1)`. */
  const MirroredByCss: bool := true

  /** The renderer's perspective camera: vertical field of view in degrees,
      distance along the viewing axis, and the canvas aspect ratio. */
  datatype Camera = Camera(fov: real, positionZ: real, aspect: real)

  /** Height of the visible plane through the origin. */
  function PlaneHeight(cam: Camera, tan: real -> real): real
  {
    2.0 * tan(cam.fov * MathPI / 180.0 / 2.0) * cam.positionZ
  }

  function PlaneWidth(cam: Camera, tan: real -> real): real
  {
    PlaneHeight(cam, tan) * cam.aspect
  }

  /** Unclamped scale: proportional to mouth width relative to frame width,
      so it is never negative and vanishes exactly for a zero-width mouth. */
  function MouthScale(m: seq<Point>, videoWidth: real): (s: real)
    requires |m| >= MouthPointCount && videoWidth > 0.0
    ensures s >= 0.0
    ensures s == 0.0 <==> MouthWidth(m) == 0.0
    ensures s * videoWidth == BaseScale * WidthMultiplier * MouthWidth(m)
  {
    BaseScale * ((MouthWidth(m) / videoWidth) * WidthMultiplier)
  }

  /** The pose computed from one landmark set (no mirroring in here). */
  function MouthPose(m: seq<Point>, videoWidth: real, videoHeight: real, cam: Camera,
                     tan: real -> real, atan2: (real, real) -> real): (p: Pose)
    requires |m| >= MouthPointCount && videoWidth > 0.0 && videoHeight > 0.0
    ensures p.position == Vec3(NdcX(CenterX(m), videoWidth) * PlaneWidth(cam, tan) / 2.0,
                               NdcY(CenterY(m), videoHeight) * PlaneHeight(cam, tan) / 2.0,
                               0.0)
    ensures CenterX(m) == videoWidth / 2.0 && CenterY(m) == videoHeight / 2.0 ==>
              p.position == Vec3(0.0, 0.0, 0.0)
    ensures p.scale == Vec3(MouthScale(m, videoWidth), 0.8 * MouthScale(m, videoWidth), 0.6 * MouthScale(m, videoWidth))
    ensures p.scale.x >= 0.0 && p.scale.y == 0.8 * p.scale.x && p.scale.z == 0.6 * p.scale.x
    ensures p.scale.x == 0.0 <==> MouthWidth(m) == 0.0
    ensures p.rotationX == MathPI
    ensures p.rotationZ == -atan2(m[RightCorner].y - m[LeftCorner].y, m[RightCorner].x - m[LeftCorner].x)
  {
    NdcOfFrame(CenterX(m), CenterY(m), videoWidth, videoHeight);
    var ndcX := NdcX(CenterX(m), videoWidth);
    var ndcY := NdcY(CenterY(m), videoHeight);
    var s := MouthScale(m, videoWidth);
    var angle := atan2(m[RightCorner].y - m[LeftCorner].y, m[RightCorner].x - m[LeftCorner].x);
    Pose(Vec3(ndcX * PlaneWidth(cam, tan) * 0.5, ndcY * PlaneHeight(cam, tan) * 0.5, 0.0),
         Vec3(s, s * 0.8, s * 0.6),
         MathPI, -angle)
  }

  /** Unprojecting the model's position through the same view plane gives
      back the mouth centre in pixels: the model sits over the mouth. */
  lemma PositionProjectsToMouthCentre(m: seq<Point>, videoWidth: real, videoHeight: real, cam: Camera,
                                      tan: real -> real, atan2: (real, real) -> real)
    requires |m| >= MouthPointCount && videoWidth > 0.0 && videoHeight > 0.0
    requires PlaneWidth(cam, tan) != 0.0 && PlaneHeight(cam, tan) != 0.0
    ensures var p := MouthPose(m, videoWidth, videoHeight, cam, tan, atan2);
            PixelX(p.position.x / (PlaneWidth(cam, tan) / 2.0), videoWidth) == CenterX(m) &&
            PixelY(p.position.y / (PlaneHeight(cam, tan) / 2.0), videoHeight) == CenterY(m)
  {
    var p := MouthPose(m, videoWidth, videoHeight, cam, tan, atan2);
    var hw, hh := PlaneWidth(cam, tan) / 2.0, PlaneHeight(cam, tan) / 2.0;
    assert p.position.x / hw == NdcX(CenterX(m), videoWidth);
    assert p.position.y / hh == NdcY(CenterY(m), videoHeight);
    NdcRoundTrip(CenterX(m), CenterY(m), videoWidth, videoHeight);
  }

  /** One frame callback, from the placement before it. */
  function Frame(before: Placement, landmarks: Option<seq<Point>>, videoWidth: real, videoHeight: real,
                 isMouthOpen: bool, cam: Camera, tan: real -> real, atan2: (real, real) -> real): (r: FrameResult)
    requires videoWidth > 0.0 && videoHeight > 0.0
    ensures r.placement.visible <==> landmarks.Some? && isMouthOpen
    ensures !r.placement.visible ==> r == FrameResult(before.(visible := false), false)
    ensures r.threw <==> landmarks.Some? && isMouthOpen && |landmarks.value| < MouthPointCount
    ensures r.threw ==> r.placement == before.(visible := true)
    ensures r.placement.rotation.y == before.rotation.y
    ensures r.placement.visible && !r.threw ==>
              var p := MouthPose(landmarks.value, videoWidth, videoHeight, cam, tan, atan2);
              r.placement == Placement(true, p.position, p.scale, Vec3(p.rotationX, before.rotation.y, p.rotationZ))
  {
    if landmarks.None? || !isMouthOpen then
      FrameResult(before.(visible := false), false)
    else if |landmarks.value| < MouthPointCount then
      FrameResult(before.(visible := true), true)
    else
      var p := MouthPose(landmarks.value, videoWidth, videoHeight, cam, tan, atan2);
      FrameResult(Placement(true, p.position, p.scale, Vec3(p.rotationX, before.rotation.y, p.rotationZ)), false)
  }

  /** The `useFrame` callback: writes the model's fields one by one; a
      landmark set shorter than the indices read aborts it after the
      visibility write. rotation.y is never written. */
  method UseFrame(model: Object3D, landmarks: Option<seq<Point>>, videoWidth: real, videoHeight: real,
                  isMouthOpen: bool, cam: Camera, tan: real -> real, atan2: (real, real) -> real)
    returns (threw: bool)
    requires videoWidth > 0.0 && videoHeight > 0.0
    modifies model
    ensures FrameResult(model.Current(), threw) ==
            Frame(old(model.Current()), landmarks, videoWidth, videoHeight, isMouthOpen, cam, tan, atan2)
  {
    threw := false;
    if landmarks.None? || !isMouthOpen {
      model.visible := false;
      return;
    }
    model.visible := true;
    var m := landmarks.value;
    if |m| < MouthPointCount {
      threw := true;
      return;
    }
    var pose := MouthPose(m, videoWidth, videoHeight, cam, tan, atan2);
    model.position := pose.position;
    model.scale := pose.scale;
    model.rotation := model.rotation.(z := pose.rotationZ);
    model.rotation := model.rotation.(x := pose.rotationX);
  }
}
