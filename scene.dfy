/** The renderer-side object that both overlay variants move: a three.js
    object whose visibility, position, scale and Euler rotation are
    written field by field from the per-frame callback. */
module Scene {
  import opened Landmarks

  /** JavaScript's Math.PI, written as its shortest decimal. */
  const MathPI: real := 3.141592653589793

  datatype Vec3 = Vec3(x: real, y: real, z: real)

  /** What a pose mapper computes from one mouth landmark set. */
  datatype Pose = Pose(position: Vec3, scale: Vec3, rotationX: real, rotationZ: real)

  /** A snapshot of the object's transform and visibility. */
  datatype Placement = Placement(visible: bool, position: Vec3, scale: Vec3, rotation: Vec3)

  /** The placement after one frame callback, and whether that callback
      stopped with a TypeError (a landmark read past the end of the set). */
  datatype FrameResult = FrameResult(placement: Placement, threw: bool)

  /** Both overlay wrappers mount the 3D scene only for a non-null,
      non-empty landmark array; otherwise they render nothing. */
  function OverlayMounted(landmarks: Option<seq<Point>>): (mounted: bool)
    ensures mounted <==> landmarks.Some? && landmarks.value != []
  {
    match landmarks
    case None => false
    case Some(m) => |m| != 0
  }

  class Object3D {
    var visible: bool
    var position: Vec3
    var scale: Vec3
    var rotation: Vec3

    function Current(): Placement
      reads this
    {
      Placement(visible, position, scale, rotation)
    }

    /** three.js defaults: shown, at the origin, unit scale, no rotation. */
    constructor ()
      ensures Current() == Placement(true, Vec3(0.0, 0.0, 0.0), Vec3(1.0, 1.0, 1.0), Vec3(0.0, 0.0, 0.0))
    {
      visible := true;
      position := Vec3(0.0, 0.0, 0.0);
      scale := Vec3(1.0, 1.0, 1.0);
      rotation := Vec3(0.0, 0.0, 0.0);
    }
  }
}
