/** The scroll progress mapper for one object: from the eased global progress and the
    object's descriptor to its position, rotation and opacities. */
module Mapper {
  import opened JsMath
  import opened Gsap
  import opened Pool
  import opened Motion
  import opened Viewport

  /** Edge opacity while an object is mid-sweep, and at the two ends of its sweep. */
  const ActiveEdgeOpacity: real := 0.95
  const RestingEdgeOpacity: real := 0.5
  /** Per-index offset of the float oscillation, in cycles. */
  const FloatIndexOffset: real := 0.13

  /** `clamp(0, 1, (eased - phase) * (1 / speed))`: how far through its own sweep the object is,
      before easing. */
  function LocalLinear(eased: real, p: MotionParams): (l: real)
    requires p.speed != 0.0
    ensures 0.0 <= l <= 1.0
  {
    Clamp(0.0, 1.0, (eased - p.phase) * (1.0 / p.speed))
  }

  /** The eased local progress that drives everything about the object. */
  function LocalProgress(eased: real, p: MotionParams): (local: real)
    requires p.speed != 0.0
    ensures 0.0 <= local <= 1.0
  {
    PowerTwoOut(LocalLinear(eased, p))
  }

  /** An object counts as mid-sweep strictly between 2% and 98% of its local progress, so an
      object that has not started, or has finished, never counts. */
  predicate Visible(local: real): (v: bool)
    ensures v ==> 0.0 < local < 1.0
    ensures local <= 0.0 || local >= 1.0 ==> !v
  {
    0.02 < local && local < 0.98
  }

  /** The edge opacity rule: strong mid-sweep, dimmed at the ends, never invisible. */
  function EdgeOpacityAt(local: real): (o: real)
    ensures 0.0 < o
    ensures o == ActiveEdgeOpacity <==> Visible(local)
    ensures !Visible(local) ==> o == RestingEdgeOpacity < ActiveEdgeOpacity
  {
    if Visible(local) then ActiveEdgeOpacity else RestingEdgeOpacity
  }

  /** The vertical float: the baseline plus the wave scaled by the amplitude, never further
      from the baseline than the amplitude. */
  function FloatY(baseY: real, wave: real, amp: real): (y: real)
    requires -1.0 <= wave <= 1.0
    ensures amp >= 0.0 ==> Abs(y - baseY) <= amp
  {
    assert amp >= 0.0 ==> Abs(wave * amp) <= amp by {
      if amp >= 0.0 { ScaledWaveBounded(wave, amp); }
    }
    baseY + wave * amp
  }

  /** One iteration of `updateMotionWithProgress` for the object at `index` with descriptor `p`,
      travel limit `maxX` and eased global progress `eased`. Only x, y, the x and y rotations
      and the two opacities are written. */
  function Place(m: Mesh, p: MotionParams, index: nat, maxX: real, eased: real): (r: Mesh)
    requires p.speed != 0.0
    ensures r == m.(x := r.x, y := r.y, rotX := r.rotX, rotY := r.rotY,
                    fillOpacity := r.fillOpacity, edgeOpacity := r.edgeOpacity)
    ensures var s := SweepStart(p.dir, p.jitter, maxX);
            s <= r.x <= -s || -s <= r.x <= s
    ensures p.floatAmp >= 0.0 ==> Abs(r.y - m.baseY) <= p.floatAmp
    ensures var local := LocalProgress(eased, p);
            r.rotX == 2.0 * Pi * local * p.spinX && r.rotY == 2.0 * Pi * local * p.spinY
    ensures r.fillOpacity == 0.0
    ensures r.edgeOpacity == ActiveEdgeOpacity <==> Visible(LocalProgress(eased, p))
    ensures !Visible(LocalProgress(eased, p)) ==> r.edgeOpacity == RestingEdgeOpacity
    ensures r.edgeOpacity > 0.0
  {
    var startX := SweepStart(p.dir, p.jitter, maxX);
    var endX := SweepEnd(p.dir, p.jitter, maxX);
    var local := LocalProgress(eased, p);
    var spinBase := local * Pi * 2.0;
    m.(x := Interpolate(startX, endX, local),
       y := FloatY(m.baseY, Sin((local * p.floatFreq + (index as real) * FloatIndexOffset) * Pi * 2.0), p.floatAmp),
       rotX := spinBase * p.spinX,
       rotY := spinBase * p.spinY,
       fillOpacity := 0.0,
       edgeOpacity := EdgeOpacityAt(local))
  }

  /** Local progress never runs backwards as the global progress advances. */
  lemma {:induction false} LocalMonotone(g1: real, g2: real, p: MotionParams)
    requires g1 <= g2 && p.speed > 0.0
    ensures LocalProgress(PowerTwoOut(g1), p) <= LocalProgress(PowerTwoOut(g2), p)
  {
    var e1, e2 := PowerTwoOut(g1), PowerTwoOut(g2);
    EaseMonotone(g1, g2);
    LinearMonotone(e1, e2, p);
    EaseMonotone(LocalLinear(e1, p), LocalLinear(e2, p));
  }

  /** Before easing, local progress is monotone in the eased global progress. */
  lemma LinearMonotone(e1: real, e2: real, p: MotionParams)
    requires e1 <= e2 && p.speed > 0.0
    ensures LocalLinear(e1, p) <= LocalLinear(e2, p)
  {
    ReciprocalPositive(p.speed, 1.0 / p.speed);
    ScaledClampMonotone(e1 - p.phase, e2 - p.phase, 1.0 / p.speed);
  }

  /** Scaling by a non-negative rate and clamping into [0, 1] keeps order. */
  lemma ScaledClampMonotone(x1: real, x2: real, k: real)
    requires x1 <= x2 && k >= 0.0
    ensures Clamp(0.0, 1.0, x1 * k) <= Clamp(0.0, 1.0, x2 * k)
  {
    ScaledOrder(x1, x2, k, x1 * k, x2 * k);
    ClampMonotone(0.0, 1.0, x1 * k, x2 * k);
  }

  /** Until the eased global progress passes the object's phase, the object has not moved. */
  lemma NotStartedBeforePhase(eased: real, p: MotionParams)
    requires p.speed > 0.0 && eased <= p.phase
    ensures LocalProgress(eased, p) == 0.0
  {
    ReciprocalPositive(p.speed, 1.0 / p.speed);
    ScaledOrder(eased - p.phase, 0.0, 1.0 / p.speed, (eased - p.phase) * (1.0 / p.speed), 0.0);
    EaseEndpoints();
  }

  /** At zero progress every object sits exactly at its sweep start, unrotated and dimmed. */
  lemma AtZeroProgress(m: Mesh, p: MotionParams, index: nat, maxX: real)
    requires p.phase >= 0.0 && p.speed > 0.0
    ensures var r := Place(m, p, index, maxX, PowerTwoOut(0.0));
            && r.x == SweepStart(p.dir, p.jitter, maxX)
            && r.rotX == 0.0 && r.rotY == 0.0
            && r.edgeOpacity == RestingEdgeOpacity
  {
    EaseEndpoints();
    NotStartedBeforePhase(PowerTwoOut(0.0), p);
  }

  /** Containment: a seeded object never strays further from the screen centre than its travel
      limit plus its jitter, hence never beyond 115% of the limit, and floats within 0.3 of its
      baseline. */
  lemma SweepContained(m: Mesh, p: MotionParams, index: nat, count: nat, maxX: real, eased: real)
    requires WellSeeded(p, index, count, maxX) && maxX >= 0.0
    ensures var r := Place(m, p, index, maxX, eased);
            && Abs(r.x) <= maxX + JitterBound(maxX) <= 1.15 * maxX
            && Abs(r.y - m.baseY) < 0.30
  {
  }

  /** The travel limit alone does not contain the sweep, and `SweepContained`'s bound is tight:
      for every travel limit, seeding can give the first of the 28 desktop objects the largest
      jitter against its direction, which starts it exactly the jitter bound beyond the limit. */
  lemma JitterCanOvershootMaxX(m: Mesh, maxX: real)
    requires maxX >= MinTravel
    ensures var p := MotionParams(1, -JitterBound(maxX), 0.0, 1.0, 1.0, 1.0, 0.2, 1.0);
            && WellSeeded(p, 0, DesktopCount, maxX)
            && Abs(Place(m, p, 0, maxX, PowerTwoOut(0.0)).x) == maxX + JitterBound(maxX) > maxX
  {
    var p := MotionParams(1, -JitterBound(maxX), 0.0, 1.0, 1.0, 1.0, 0.2, 1.0);
    AtZeroProgress(m, p, 0, maxX);
  }

  /** At full progress the local sweep completes exactly when the phase and the speed together
      fit inside the unit interval. */
  lemma {:induction false} FullSweepIff(p: MotionParams)
    requires p.speed > 0.0
    ensures LocalProgress(PowerTwoOut(1.0), p) == 1.0 <==> p.phase + p.speed <= 1.0
  {
    EaseEndpoints();
    LinearAtFullIff(p);
    EaseReachesOneOnlyAtOne(LocalLinear(1.0, p));
  }

  /** Before easing, the local sweep at full progress completes exactly when the phase and the
      speed fit inside the unit interval. */
  lemma LinearAtFullIff(p: MotionParams)
    requires p.speed > 0.0
    ensures LocalLinear(1.0, p) == 1.0 <==> p.phase + p.speed <= 1.0
  {
    ReciprocalPositive(p.speed, 1.0 / p.speed);
    if p.phase + p.speed <= 1.0 {
      ScaledOrder(p.speed, 1.0 - p.phase, 1.0 / p.speed, 1.0, (1.0 - p.phase) * (1.0 / p.speed));
    } else {
      ScaledStrictOrder(1.0 - p.phase, p.speed, 1.0 / p.speed, (1.0 - p.phase) * (1.0 / p.speed), 1.0);
    }
  }

  /** A seeded object reaches its sweep end at full progress exactly when its phase and speed
      fit inside the unit interval; otherwise it stops short. */
  lemma {:induction false} ArrivesIff(m: Mesh, p: MotionParams, index: nat, count: nat, maxX: real)
    requires WellSeeded(p, index, count, maxX) && maxX > 0.0
    ensures (Place(m, p, index, maxX, PowerTwoOut(1.0)).x == SweepEnd(p.dir, p.jitter, maxX))
            <==> (p.phase + p.speed <= 1.0)
  {
    var startX, endX := SweepStart(p.dir, p.jitter, maxX), SweepEnd(p.dir, p.jitter, maxX);
    assert startX != endX;
    InterpolateArrivesOnlyAtOne(startX, endX, LocalProgress(PowerTwoOut(1.0), p));
    FullSweepIff(p);
  }

  /** The object with phase 0.5 and speed 1 is only 87.5% through its sweep at full progress. */
  lemma HalfPhaseStopsShort(p: MotionParams)
    requires p.phase == 0.5 && p.speed == 1.0
    ensures LocalProgress(PowerTwoOut(1.0), p) == 0.875
  {
    EaseEndpoints();
    assert LocalLinear(1.0, p) == 0.5;
  }
}
