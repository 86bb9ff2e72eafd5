/** The object pool: one torus mesh per stacking index, created once at start-up and kept
    for the page's lifetime. A mesh is a value record here; the world rewrites the record
    at its index whenever the page script writes a field of that mesh. */
module Pool {
  import opened JsMath

  /** Object count and vertical spacing for desktop and compact ("max-width: 768px") viewports. */
  const DesktopCount: nat := 28
  const CompactCount: nat := 16
  const DesktopSpacing: real := 7.5
  const CompactSpacing: real := 6.5
  /** Number of torus size variants the geometry factory cycles through. */
  const GeometryVariants: nat := 6
  /** Opacity of the fill material: fully transparent, the tori are outline-only. */
  const FillOpacity: real := 0.0
  /** Opacity the edge materials are created with. */
  const EdgeOpacity: real := 0.95

  /** The pool size: fewer objects on a compact viewport, never none. */
  function Count(compact: bool): (n: nat)
    ensures n > 0
    ensures compact <==> n < DesktopCount
  {
    if compact then CompactCount else DesktopCount
  }

  /** The vertical spacing: tighter on a compact viewport, always positive. */
  function Spacing(compact: bool): (s: real)
    ensures s > 0.0
    ensures compact <==> s < DesktopSpacing
  {
    if compact then CompactSpacing else DesktopSpacing
  }

  /** One torus: its shape variant, edge colour (accent or white), the float anchor `baseY`,
      its position and rotation, and the opacities of its fill and edge materials. */
  datatype Mesh = Mesh(
    variant: nat,
    accent: bool,
    baseY: real,
    x: real, y: real, z: real,
    rotX: real, rotY: real, rotZ: real,
    fillOpacity: real,
    edgeOpacity: real)

  /** What creation fixes for good about the mesh at `index`: its shape variant, its colour
      (accent on odd indices), its float anchor below the previous one, and its depth. */
  predicate Intrinsic(m: Mesh, index: nat, spacing: real) {
    && m.variant == index % GeometryVariants
    && (m.accent <==> index % 2 == 1)
    && m.baseY == -(index as real) * spacing
    && -2.5 <= m.z < 2.5
  }

  /** The body of the creation loop for one index, given its four `Math.random()` draws in
      call order: depth, then the x, y and z starting rotations. The x position is left at
      the graphics library's default of 0 until start positions are assigned. */
  function Spawn(index: nat, spacing: real, r: seq<real>): (m: Mesh)
    requires |r| == 4 && Draws(r)
    ensures Intrinsic(m, index, spacing)
    ensures m.y == m.baseY && m.x == 0.0
    ensures 0.0 <= m.rotX < Pi && 0.0 <= m.rotY < Pi && 0.0 <= m.rotZ < Pi
    ensures m.fillOpacity == 0.0 && m.edgeOpacity == EdgeOpacity
  {
    var y := -(index as real) * spacing;
    assert IsDraw(r[1]) && IsDraw(r[2]) && IsDraw(r[3]);
    MulStrictMonotone(r[1], 1.0, Pi);
    MulStrictMonotone(r[2], 1.0, Pi);
    MulStrictMonotone(r[3], 1.0, Pi);
    Mesh(
      variant := index % GeometryVariants,
      accent := index % 2 == 1,
      baseY := y,
      x := 0.0, y := y, z := (r[0] - 0.5) * 5.0,
      rotX := r[1] * Pi, rotY := r[2] * Pi, rotZ := r[3] * Pi,
      fillOpacity := FillOpacity,
      edgeOpacity := EdgeOpacity)
  }
}
