/** The original mouth overlay: each rendered frame, the mouthguard model is
    hidden only when landmarks are missing; otherwise its visibility follows
    the mouth-open flag while its pose is recomputed either way. Position is
    the mirrored, slightly raised normalised mouth centre times a fixed gain,
    and the scale is uniform with a floor. */
module Overlay {
  import opened Landmarks
  import opened Scene

  const BaseScale: real := 0.003
  const WidthMultiplier: real := 0.3
  const MinScale: real := 0.001
  const PositionGain: real := 1.8
  const Depth: real := -0.05

  /** The wrapper applies no CSS transform: mirroring happens in here. */
  const MirroredByCss: bool := false

  /** Device x of the mouth centre, flipped for the mirrored video. */
  function MirroredX(m: seq<Point>, videoWidth: real): (nx: real)
    requires |m| >= MouthPointCount && videoWidth > 0.0
    ensures CenterX(m) == videoWidth / 2.0 ==> nx == 0.0
    ensures CenterX(m) == 0.0 ==> nx == 1.0
    ensures CenterX(m) == videoWidth ==> nx == -1.0
    ensures nx == NdcX(videoWidth - CenterX(m), videoWidth)
  {
    NdcMirror(CenterX(m), videoWidth);
    NdcOfFrame(CenterX(m), CenterY(m), videoWidth, 1.0);
    -((CenterX(m) / videoWidth) * 2.0 - 1.0)
  }

  /** Device y of the mouth centre with the upward offset 1.1 in place of 1:
      a tenth of the frame's half-height above NdcY. */
  function RaisedY(m: seq<Point>, videoHeight: real): (ny: real)
    requires |m| >= MouthPointCount && videoHeight > 0.0
    ensures ny == NdcY(CenterY(m), videoHeight) + 0.1
    ensures CenterY(m) == videoHeight / 2.0 ==> ny == 0.1
  {
    NdcOfFrame(0.0, CenterY(m), 1.0, videoHeight);
    -(CenterY(m) / videoHeight) * 2.0 + 1.1
  }

  /** Uniform scale with a floor of MinScale. Because BaseScale times the
      multiplier is below MinScale, the floor wins for every mouth up to
      10/9 of the frame width. */
  function MouthScale(m: seq<Point>, videoWidth: real): (s: real)
    requires |m| >= MouthPointCount && videoWidth > 0.0
    ensures s >= MinScale
    ensures s == MinScale <==> 9.0 * MouthWidth(m) <= 10.0 * videoWidth
    ensures s > MinScale ==> s * videoWidth == BaseScale * WidthMultiplier * MouthWidth(m)
  {
    var raw := BaseScale * ((MouthWidth(m) / videoWidth) * WidthMultiplier);
    assert raw * videoWidth == 0.0009 * MouthWidth(m);
    Max(raw, MinScale)
  }

  function MouthPose(m: seq<Point>, videoWidth: real, videoHeight: real,
                     atan2: (real, real) -> real): (p: Pose)
    requires |m| >= MouthPointCount && videoWidth > 0.0 && videoHeight > 0.0
    ensures p.position == Vec3(PositionGain * MirroredX(m, videoWidth), PositionGain * RaisedY(m, videoHeight), Depth)
    ensures p.scale == Vec3(MouthScale(m, videoWidth), MouthScale(m, videoWidth), MouthScale(m, videoWidth))
    ensures p.scale.x == p.scale.y == p.scale.z >= MinScale
    ensures 9.0 * MouthWidth(m) <= 10.0 * videoWidth ==> p.scale == Vec3(MinScale, MinScale, MinScale)
    ensures p.rotationX == MathPI
    ensures p.rotationZ == -atan2(m[RightCorner].y - m[LeftCorner].y, m[RightCorner].x - m[LeftCorner].x)
  {
    var s := MouthScale(m, videoWidth);
    var angle := atan2(m[RightCorner].y - m[LeftCorner].y, m[RightCorner].x - m[LeftCorner].x);
    Pose(Vec3(MirroredX(m, videoWidth) * PositionGain, RaisedY(m, videoHeight) * PositionGain, Depth),
         Vec3(s, s, s),
         MathPI, -angle)
  }

  /** One frame callback, from the placement before it. */
  function Frame(before: Placement, landmarks: Option<seq<Point>>, videoWidth: real, videoHeight: real,
                 isMouthOpen: bool, atan2: (real, real) -> real): (r: FrameResult)
    requires videoWidth > 0.0 && videoHeight > 0.0
    ensures r.placement.visible <==> landmarks.Some? && isMouthOpen
    ensures landmarks.None? ==> r == FrameResult(before.(visible := false), false)
    ensures r.threw <==> landmarks.Some? && |landmarks.value| < MouthPointCount
    ensures r.threw ==> r.placement == before.(visible := isMouthOpen)
    ensures landmarks.Some? && !r.threw ==>
              var p := MouthPose(landmarks.value, videoWidth, videoHeight, atan2);
              r.placement == Placement(isMouthOpen, p.position, p.scale, Vec3(p.rotationX, 0.0, p.rotationZ))
  {
    match landmarks
    case None => FrameResult(before.(visible := false), false)
    case Some(m) =>
      if |m| < MouthPointCount then
        FrameResult(before.(visible := isMouthOpen), true)
      else
        var p := MouthPose(m, videoWidth, videoHeight, atan2);
        FrameResult(Placement(isMouthOpen, p.position, p.scale, Vec3(p.rotationX, 0.0, p.rotationZ)), false)
  }

  /** The `useFrame` callback, writing the model's fields in source order. */
  method UseFrame(model: Object3D, landmarks: Option<seq<Point>>, videoWidth: real, videoHeight: real,
                  isMouthOpen: bool, atan2: (real, real) -> real)
    returns (threw: bool)
    requires videoWidth > 0.0 && videoHeight > 0.0
    modifies model
    ensures FrameResult(model.Current(), threw) ==
            Frame(old(model.Current()), landmarks, videoWidth, videoHeight, isMouthOpen, atan2)
  {
    threw := false;
    if landmarks.None? {
      model.visible := false;
      return;
    }
    model.visible := isMouthOpen;
    var m := landmarks.value;
    if |m| < MouthPointCount {
      threw := true;
      return;
    }
    var pose := MouthPose(m, videoWidth, videoHeight, atan2);
    model.position := pose.position;
    model.scale := pose.scale;
    model.rotation := model.rotation.(z := pose.rotationZ);
    model.rotation := model.rotation.(y := 0.0);
    model.rotation := model.rotation.(x := pose.rotationX);
  }
}
