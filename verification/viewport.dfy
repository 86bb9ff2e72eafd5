/** Viewport geometry: how wide the camera's view is at a given depth, and how far an
    object at that depth may travel sideways. The camera looks down -z from z = 15 with a
    45 degree vertical field of view; only its aspect ratio changes (on resize). */
module Viewport {
  import opened JsMath

  /** `camera.position.z`. */
  const CameraZ: real := 15.0
  /** tan(fov / 2) for the fixed 45 degree field of view, i.e. tan(22.5 degrees). */
  const TanHalfFov: real := 0.41421356237309503
  /** Floor on the camera-to-depth distance. */
  const MinDistance: real := 0.001
  /** `viewportMargin`: inset kept between the travel limit and the visible edge. */
  const ViewportMargin: real := 1.2
  /** Smallest travel limit, whatever the viewport. */
  const MinTravel: real := 0.5

  /** Distance from the camera plane to depth `z`, floored so that it is never zero or negative. */
  function Distance(z: real): (d: real)
    ensures d >= MinDistance && d >= CameraZ - z
    ensures d == CameraZ - z || d == MinDistance
  {
    Max(MinDistance, CameraZ - z)
  }

  /** `viewportHalfWidthAt(z)`: half the visible width at depth `z` for the given aspect ratio. */
  function HalfWidthAt(aspect: real, z: real): (half: real)
    ensures aspect > 0.0 ==> half > 0.0
  {
    var height := 2.0 * TanHalfFov * Distance(z);
    (height * aspect) / 2.0
  }

  /** The view widens (never narrows) as the depth moves away from the camera,
      and strictly so once the nearer depth is beyond the distance floor. */
  lemma HalfWidthGrowsWithDistance(aspect: real, zNear: real, zFar: real)
    requires aspect > 0.0 && zFar <= zNear
    ensures HalfWidthAt(aspect, zNear) <= HalfWidthAt(aspect, zFar)
    ensures zFar < zNear && CameraZ - zNear > MinDistance ==>
              HalfWidthAt(aspect, zNear) < HalfWidthAt(aspect, zFar)
  {
    var dn, df := Distance(zNear), Distance(zFar);
    var k := TanHalfFov * aspect;
    assert HalfWidthAt(aspect, zNear) == k * dn && HalfWidthAt(aspect, zFar) == k * df;
    MulMonotone(dn, df, k);
    if zFar < zNear && CameraZ - zNear > MinDistance {
      MulStrictMonotone(dn, df, k);
    }
  }

  /** `maxX = Math.max(0.5, half - viewportMargin)`: the travel limit at depth `z`. It never
      drops below the minimum travel and never exceeds the margin-inset half-width unless the
      minimum forces it to. */
  function MaxX(aspect: real, z: real): (m: real)
    ensures m >= MinTravel
    ensures m >= HalfWidthAt(aspect, z) - ViewportMargin
    ensures m == MinTravel || m == HalfWidthAt(aspect, z) - ViewportMargin
  {
    Max(MinTravel, HalfWidthAt(aspect, z) - ViewportMargin)
  }

  /** A wider viewport (a larger aspect ratio) never shrinks the travel limit. */
  lemma MaxXGrowsWithAspect(narrow: real, wide: real, z: real)
    requires 0.0 <= narrow <= wide
    ensures MaxX(narrow, z) <= MaxX(wide, z)
  {
    var k := TanHalfFov * Distance(z);
    assert HalfWidthAt(narrow, z) == k * narrow && HalfWidthAt(wide, z) == k * wide;
    MulMonotone(narrow, wide, k);
    assert HalfWidthAt(narrow, z) <= HalfWidthAt(wide, z);
  }
}
