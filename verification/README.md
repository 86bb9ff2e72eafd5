# Scroll-driven motion of the galaxy-cv torus field

The galaxy-cv home page renders a vertical stack of wireframe tori with three.js. The page
scroll drives them: as the reader scrolls, each torus sweeps across the screen from one side to
the other. It also floats a little up and down, spins, and brightens its edges while it is
mid-sweep. This project models the core of that behaviour in `assets/js/main.js` and proves
properties of the model in Dafny:

- the object pool built at start-up: count, spacing, shape variant, colour, depth and rotations;
- the viewport geometry: the visible half-width at a depth, and the travel limit `maxX`;
- the start-position pass and the motion-parameter seeding, with every `Math.random()` draw
  passed in explicitly;
- the progress mapper `updateMotionWithProgress`: the eased global progress, the per-object
  local progress, and the position, float, spin and edge opacity it produces;
- the render loop's z spin, the scroll trigger's refresh sequence and the resize handler.

Module layout:

| file | module | contents |
|---|---|---|
| `jsmath.dfy` | `JsMath` | `Math.max/min/abs/PI/sin`, random draws, small arithmetic lemmas |
| `gsap.dfy` | `Gsap` | the `power2.out` ease, `gsap.utils.clamp`, `gsap.utils.interpolate` |
| `viewport.dfy` | `Viewport` | camera constants, `viewportHalfWidthAt`, the travel limit |
| `pool.dfy` | `Pool` | the mesh record and the creation-loop body |
| `motion.dfy` | `Motion` | the descriptor record and the `seedMotionParams` body |
| `mapper.dfy` | `Mapper` | one iteration of `updateMotionWithProgress`, with its properties |
| `world.dfy` | `Animation` | the `World` class: the objects array, the descriptors, the aspect ratio and the imperative passes over them |

The objects live in an `array<Mesh>` that the passes update in place. Each pass is a loop
proved against the pure function for one object (`Pool.Spawn`, `Motion.Draw`, `Mapper.Place`).
Three class invariants are kept:
- `Wellformed`: creation-time facts plus float, fill and edge bounds;
- `Contained`: every object lies within its travel limit widened by the jitter bound;
- `Seeded`: one well-formed descriptor per object.

What the proofs establish about the code as written:
- Horizontal containment is `|x| <= maxX + jitterBound(maxX) <= 1.15 * maxX`, not `|x| <= maxX`.
  The jitter added to the sweep endpoints can push an object past the travel limit.
  `Mapper.JitterCanOvershootMaxX` shows that, for every travel limit, seeding can start an object
  exactly the jitter bound beyond it, so the widened bound is tight.
  The 1.2 viewport margin absorbs this: once the margin applies, the object stays at least 0.7
  inside the visible edge (`Animation.InsetFromEdge`).
- An object completes its sweep at full scroll exactly when `phase + speed <= 1` (`Mapper.ArrivesIff`).
  Seeding does not guarantee this, so many objects stop short of the far side. For example,
  phase 0.5 with speed 1 stops at local progress 0.875 (`Mapper.HalfPhaseStopsShort`).
- In GSAP 3 `power2` names the cubic curve, so `power2.out` is `1 - (1 - t)^3`, and that is what
  `Gsap.PowerTwoOut` models.

## Model

| member | source | states |
|---|---|---|
| JsMath.Sin | assets/js/main.js:142 | the stand-in for `Math.sin` always lies in [-1, 1] |
| Gsap.PowerTwoOut | assets/js/main.js:129 | the `power2.out` ease maps [0, 1] into [0, 1] |
| Gsap.EaseMonotone | assets/js/main.js:129 | the ease never maps a later input to an earlier output |
| Gsap.EaseEndpoints | assets/js/main.js:139 | the ease fixes 0 and 1 |
| Gsap.EaseOutLeadsLinear | assets/js/main.js:139 | on [0, 1] the eased value is never behind the linear one |
| Gsap.EaseReachesOneOnlyAtOne | assets/js/main.js:139 | on [0, 1] the ease reaches 1 if and only if its input is 1 |
| Gsap.Clamp | assets/js/main.js:138 | the result lies in the range, and a value already in the range is returned unchanged |
| Gsap.ClampMonotone | assets/js/main.js:138 | clamping keeps order |
| Gsap.Interpolate | assets/js/main.js:140 | gives the start at 0 and the end at 1, and for t in [0, 1] lies between the two |
| Gsap.InterpolateArrivesOnlyAtOne | assets/js/main.js:140 | between distinct points the end is reached if and only if t = 1 |
| Viewport.Distance | assets/js/main.js:86 | the camera distance is at least 0.001 and at least `15 - z`, and equals one of them |
| Viewport.HalfWidthAt | assets/js/main.js:85-90 | for a positive aspect ratio the visible half-width is positive |
| Viewport.HalfWidthGrowsWithDistance | assets/js/main.js:85-90 | the half-width grows as the depth moves away from the camera, strictly beyond the distance floor |
| Viewport.MaxX | assets/js/main.js:97-98 | the travel limit is at least 0.5 and at least half-width minus the 1.2 margin, and equals one of them |
| Viewport.MaxXGrowsWithAspect | assets/js/main.js:97-98 | a wider aspect ratio never shrinks the travel limit |
| Pool.Count | assets/js/main.js:55 | the pool is never empty, and is the smaller one exactly on a compact viewport |
| Pool.Spacing | assets/js/main.js:56 | the spacing is positive, and is the tighter one exactly on a compact viewport |
| Pool.Spawn | assets/js/main.js:59-72 | the mesh at index i gets variant i mod 6, an accent colour exactly on odd i, anchor `-i * spacing`, y at the anchor, depth in [-2.5, 2.5), rotations in [0, π), fill 0 and edge 0.95 |
| Motion.Direction | assets/js/main.js:96 | the direction is ±1, and +1 exactly on even indices |
| Motion.SweepEnd | assets/js/main.js:135-136 | the sweep end is the sweep start mirrored through the centre |
| Motion.SweepStart | assets/js/main.js:135 | for a direction of ±1 the sweep start lies within the limit plus the jitter, and on the side opposite the direction when the jitter is smaller than the limit (the same expression places objects at line 100) |
| Motion.JitterBound | assets/js/main.js:99 | the jitter half-width is at most 15% of the limit and at most 0.5 |
| Motion.Jitter | assets/js/main.js:114 | the jitter never exceeds the jitter half-width in magnitude |
| Motion.StaggerGrows | assets/js/main.js:116 | the stagger `index / (count * 1.4)` is non-negative, grows with the index and stays below 1/1.4 |
| Motion.Phase | assets/js/main.js:116 | the phase lies in [0, 0.9], inside the 0.4-wide window that starts at the index's stagger |
| Motion.Draw | assets/js/main.js:110-122 | each descriptor has the index's direction, bounded jitter, a staggered phase, and speed, spins, float amplitude and frequency in their drawn ranges |
| Mapper.LocalLinear | assets/js/main.js:138 | the linear local progress lies in [0, 1] |
| Mapper.LocalProgress | assets/js/main.js:139 | the eased local progress lies in [0, 1] |
| Mapper.Visible | assets/js/main.js:146 | an object counts as visible only strictly inside its sweep: never before it starts or after it ends |
| Mapper.EdgeOpacityAt | assets/js/main.js:146-152 | the edge opacity is positive; it is 0.95 exactly when local progress is strictly between 0.02 and 0.98, and 0.5 otherwise |
| Mapper.FloatY | assets/js/main.js:142 | the float never moves y further from the anchor than the amplitude |
| Mapper.Place | assets/js/main.js:130-153 | writes only x, y, rotX, rotY and the two opacities; x lies between the sweep start and its mirror; y stays within the float amplitude; rotations are 2π·local·spin; fill 0; edge 0.95 exactly when visible and 0.5 otherwise; z and the z rotation untouched |
| Mapper.LocalMonotone | assets/js/main.js:129-139 | local progress never decreases as global progress increases |
| Mapper.LinearMonotone | assets/js/main.js:138 | linear local progress never decreases as eased progress increases |
| Mapper.NotStartedBeforePhase | assets/js/main.js:138-139 | until eased progress passes the phase, local progress is 0 |
| Mapper.AtZeroProgress | assets/js/main.js:128-154 | at progress 0 every object is at its sweep start, unrotated in x and y, with its edge dimmed to 0.5 |
| Mapper.SweepContained | assets/js/main.js:133-142 | for a seeded descriptor, at every progress |x| <= maxX + jitter bound <= 1.15 maxX and |y - anchor| < 0.3 |
| Mapper.JitterCanOvershootMaxX | assets/js/main.js:99-100 | for every travel limit of at least 0.5, a descriptor that seeding can produce for the first of 28 objects starts it exactly maxX + jitter bound from the centre, beyond the limit |
| Mapper.FullSweepIff | assets/js/main.js:138-139 | at full progress the local sweep completes if and only if phase + speed <= 1 |
| Mapper.LinearAtFullIff | assets/js/main.js:138 | at full progress the linear local progress is 1 if and only if phase + speed <= 1 |
| Mapper.ArrivesIff | assets/js/main.js:135-140 | a seeded object ends exactly at its sweep end at full progress if and only if phase + speed <= 1 |
| Mapper.HalfPhaseStopsShort | assets/js/main.js:138-139 | phase 0.5 with speed 1 reaches only local progress 0.875 |
| Animation.InsetFromEdge | assets/js/main.js:91 | once the margin applies, a contained object stays at least 0.7 inside the visible half-width |
| Animation.SpawnSettles | assets/js/main.js:59-72 | a freshly created mesh meets the creation facts and the float/fill/edge bounds, and at x = 0 lies within any non-negative travel limit |
| Animation.PlaceKeepsBounds | assets/js/main.js:130-153 | placing an object keeps its creation facts and depth, keeps it steady and keeps it within its travel limit widened by the jitter bound |
| Animation.World.constructor | assets/js/main.js:55-72 | creates 16 or 28 meshes, each the creation-loop body for its index and draws; the class invariants hold and no descriptors exist yet |
| Animation.World.SetStartPositions | assets/js/main.js:94-102 | every object moves to the sweep start for its direction, depth and fresh jitter; nothing else changes; objects are contained |
| Animation.World.Seed | assets/js/main.js:108-124 | the descriptor list is replaced by one `Draw` per object, in order; the seeded invariant holds |
| Animation.World.Update | assets/js/main.js:128-154 | every object becomes `Place` of its old state and its descriptor at the eased progress; all three invariants are kept |
| Animation.World.Frame | assets/js/main.js:232-234 | every object's z rotation grows by 0.002 and nothing else changes; the invariants are kept |
| Animation.World.Refresh | assets/js/main.js:162-166 | start positions, then new descriptors, then an update; the final state is the update of the freshly seeded descriptors |
| Animation.World.Reseed | assets/js/main.js:249-250 | start positions then fresh descriptors: every object moves only in x, to the freshly jittered sweep start, and gets the `Draw` of its seven draws; all three invariants hold |
| Animation.World.Resize | assets/js/main.js:241-251 | after the new aspect ratio, a refresh and a reseed, every object keeps its depth and z rotation, sits at a freshly jittered sweep start within its new travel limit widened by the jitter bound, keeps the y, x and y rotations and opacities that the refresh's update gave it, and the invariants hold |

## Left out

- Scene, renderer, camera projection updates, materials and geometries: outside the motion logic. A mesh keeps only its geometry variant index and its two opacities.
- The progress bar, the camera's vertical scroll tween, Lenis smooth scrolling, anchor navigation, the DOM reveal animations and `scripts/capture.js`: presentation and plumbing that do not touch the objects' motion.
- `ScrollTrigger` itself: scroll progress is a parameter. The trigger's `onRefresh` is modelled as running synchronously inside `ScrollTrigger.refresh()` (`World.Resize`), and `onUpdate` as a direct call to `World.Update`.
- `requestAnimationFrame` and timing: `World.Frame` is one frame's spin step.
- `Math.random()`: each call is an element of a `draws` sequence in [0, 1), consumed in the source's call order.
- `window.matchMedia` and the window size: the compact layout is a boolean, and the aspect ratio is a number.
- IEEE-754 doubles: all arithmetic is on mathematical reals. `tan(22.5°)` is a constant.
- Mapper.SweepContained: it bounds |x| by the travel limit plus the jitter bound, not by the travel limit alone. The tighter bound is false for the code as written (`Mapper.JitterCanOvershootMaxX`).
- JsMath.Sin: it models `Math.sin` by Bhaskara's rational approximation after period reduction, not the exact sine. The proofs rely only on its range [-1, 1].
- Animation.World.Update: the `if (m)` and `if (e && e.material)` guards are not modelled, because every mesh built by the creation loop has both materials.
- Meshes are values in an array, so the model has no aliasing between objects or materials.
- The full sweep at progress 1 is not claimed, because the code does not guarantee it. `Mapper.ArrivesIff` states exactly when it happens.
