/** How the two overlay variants compare: the same visibility rule, a
    different treatment of a closed mouth, and mirroring applied exactly
    once in each, by CSS in one and by a sign flip in the other. */
module OverlayVariants {
  import opened Landmarks
  import opened Scene
  import Opt = OverlayOptimized
  import Ov = Overlay

  /** Device x as the viewer sees it once the wrapper's CSS is applied. */
  function Displayed(ndcX: real, mirroredByCss: bool): real
  {
    if mirroredByCss then -ndcX else ndcX
  }

  /** Each variant flips device x exactly once: the optimised one through
      the wrapper's CSS, the original one through its own sign flip. Both
      give NdcX of the mirrored mouth column. This is before each variant
      maps device x to world units, and those maps differ. */
  lemma MirroringAppliedOnce(m: seq<Point>, videoWidth: real)
    requires |m| >= MouthPointCount && videoWidth > 0.0
    ensures Displayed(NdcX(CenterX(m), videoWidth), Opt.MirroredByCss) == NdcX(videoWidth - CenterX(m), videoWidth)
    ensures Displayed(Ov.MirroredX(m, videoWidth), Ov.MirroredByCss) == NdcX(videoWidth - CenterX(m), videoWidth)
  {
    NdcMirror(CenterX(m), videoWidth);
  }

  /** Whatever the previous placements, both variants show the model on
      exactly the same frames: landmarks present and mouth open. */
  lemma SameVisibility(before1: Placement, before2: Placement, landmarks: Option<seq<Point>>,
                       videoWidth: real, videoHeight: real, isMouthOpen: bool,
                       cam: Opt.Camera, tan: real -> real, atan2: (real, real) -> real)
    requires videoWidth > 0.0 && videoHeight > 0.0
    ensures Opt.Frame(before1, landmarks, videoWidth, videoHeight, isMouthOpen, cam, tan, atan2).placement.visible
        == Ov.Frame(before2, landmarks, videoWidth, videoHeight, isMouthOpen, atan2).placement.visible
  {
  }

  /** With a closed mouth the optimised variant freezes the hidden model's
      transform, while the original one keeps tracking the mouth. */
  lemma ClosedMouthPolicies(before: Placement, m: seq<Point>, videoWidth: real, videoHeight: real,
                            cam: Opt.Camera, tan: real -> real, atan2: (real, real) -> real)
    requires |m| >= MouthPointCount && videoWidth > 0.0 && videoHeight > 0.0
    ensures Opt.Frame(before, Some(m), videoWidth, videoHeight, false, cam, tan, atan2).placement
         == before.(visible := false)
    ensures Ov.Frame(before, Some(m), videoWidth, videoHeight, false, atan2).placement.position
         == Ov.MouthPose(m, videoWidth, videoHeight, atan2).position
  {
  }
}
