/** Mouth landmarks as the face-landmark model reports them (video-pixel
    coordinates, y growing downwards), and the pixel arithmetic that the
    mouth-open classifier and both pose mappers share. */
module Landmarks {

  datatype Option<+T> = None | Some(value: T)

  /** One landmark of the mouth contour, in pixels of the video frame. */
  datatype Point = Point(x: real, y: real)

  // Semantic indices into the 20-point mouth contour.
  const LeftCorner: nat := 0
  const RightCorner: nat := 6
  const TopInnerLip: nat := 13
  const BottomInnerLip: nat := 19

  /** Reading every index above needs this many points (the last is 19). */
  const MouthPointCount: nat := 20

  function Abs(r: real): (a: real)
    ensures a >= 0.0
    ensures a == r || a == -r
  {
    if r < 0.0 then -r else r
  }

  function Max(a: real, b: real): (m: real)
    ensures m >= a && m >= b
    ensures m == a || m == b
  {
    if a >= b then a else b
  }

  /** Horizontal mouth centre: midway between the two corners. */
  function CenterX(m: seq<Point>): real
    requires |m| >= MouthPointCount
  {
    (m[LeftCorner].x + m[RightCorner].x) / 2.0
  }

  /** Vertical mouth centre: midway between the inner lip centres. */
  function CenterY(m: seq<Point>): real
    requires |m| >= MouthPointCount
  {
    (m[TopInnerLip].y + m[BottomInnerLip].y) / 2.0
  }

  /** Corner-to-corner horizontal extent of the mouth. */
  function MouthWidth(m: seq<Point>): (w: real)
    requires |m| >= MouthPointCount
    ensures w >= 0.0
    ensures w == 0.0 <==> m[RightCorner].x == m[LeftCorner].x
  {
    Abs(m[RightCorner].x - m[LeftCorner].x)
  }

  /** Vertical gap between the inner lip centres. */
  function MouthHeight(m: seq<Point>): (h: real)
    requires |m| >= MouthPointCount
    ensures h >= 0.0
  {
    Abs(m[BottomInnerLip].y - m[TopInnerLip].y)
  }

  /** Pixel column to normalised device x in [-1, 1], left edge to -1. */
  function NdcX(cx: real, width: real): real
    requires width > 0.0
  {
    (cx / width) * 2.0 - 1.0
  }

  /** Pixel row to normalised device y; the image row axis points down,
      the device axis up, so the top edge goes to 1. */
  function NdcY(cy: real, height: real): real
    requires height > 0.0
  {
    -(cy / height) * 2.0 + 1.0
  }

  /** Inverse of NdcX: normalised device x back to a pixel column. */
  function PixelX(ndc: real, width: real): real
  {
    (ndc + 1.0) / 2.0 * width
  }

  /** Inverse of NdcY: normalised device y back to a pixel row. */
  function PixelY(ndc: real, height: real): real
  {
    (1.0 - ndc) / 2.0 * height
  }

  lemma NdcRoundTrip(cx: real, cy: real, width: real, height: real)
    requires width > 0.0 && height > 0.0
    ensures PixelX(NdcX(cx, width), width) == cx
    ensures PixelY(NdcY(cy, height), height) == cy
    ensures NdcX(PixelX(cx, width), width) == cx
    ensures NdcY(PixelY(cy, height), height) == cy
  {
    assert (cx / width) * width == cx;
    assert (cy / height) * height == cy;
  }

  /** The frame centre maps to the device origin, and points inside the
      frame map into [-1, 1] on both axes. */
  lemma NdcOfFrame(cx: real, cy: real, width: real, height: real)
    requires width > 0.0 && height > 0.0
    ensures NdcX(width / 2.0, width) == 0.0 && NdcY(height / 2.0, height) == 0.0
    ensures 0.0 <= cx <= width ==> -1.0 <= NdcX(cx, width) <= 1.0
    ensures 0.0 <= cy <= height ==> -1.0 <= NdcY(cy, height) <= 1.0
  {
    FractionInUnit(cx, width);
    FractionInUnit(cy, height);
  }

  lemma FractionInUnit(c: real, extent: real)
    requires extent > 0.0
    ensures 0.0 <= c <= extent ==> 0.0 <= c / extent <= 1.0
  {
    if 0.0 <= c <= extent {
      assert (c / extent) * extent == c;
    }
  }

  /** NdcX keeps left-to-right order; NdcY reverses top-to-bottom order. */
  lemma NdcOrder(a: real, b: real, width: real, height: real)
    requires width > 0.0 && height > 0.0 && a < b
    ensures NdcX(a, width) < NdcX(b, width)
    ensures NdcY(a, height) > NdcY(b, height)
  {
    assert (b / width - a / width) * width == b - a;
    assert (b / height - a / height) * height == b - a;
  }

  /** Flipping a pixel column about the frame's vertical axis is the same
      as negating its device x. */
  lemma NdcMirror(cx: real, width: real)
    requires width > 0.0
    ensures NdcX(width - cx, width) == -NdcX(cx, width)
  {
    assert (width - cx) / width * width == width - cx;
    assert (1.0 - cx / width) * width == width - cx;
  }
}
