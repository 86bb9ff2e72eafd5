/** The motion-parameter generator: one randomised trajectory descriptor per object,
    regenerated at start-up and on every refresh or resize. */
module Motion {
  import opened JsMath

  /** `{ dir, jitter, phase, speed, spinX, spinY, floatAmp, floatFreq }` as pushed onto
      `motionParams`. */
  datatype MotionParams = MotionParams(
    dir: int,
    jitter: real,
    phase: real,
    speed: real,
    spinX: real,
    spinY: real,
    floatAmp: real,
    floatFreq: real)

  /** Even indices travel towards +x, odd ones towards -x, so neighbours cross. */
  function Direction(index: nat): (d: int)
    ensures d == 1 || d == -1
    ensures d == 1 <==> index % 2 == 0
  {
    if index % 2 == 0 then 1 else -1
  }

  /** Where a sweep in direction `dir` starts for travel limit `maxX`: the far side, moved by
      `jitter`. It lies within the travel limit widened by the jitter, and on the side opposite
      the direction whenever the jitter is smaller than the limit. */
  function SweepStart(dir: int, jitter: real, maxX: real): (s: real)
    ensures (dir == 1 || dir == -1) && maxX >= 0.0 ==> Abs(s) <= maxX + Abs(jitter)
    ensures (dir == 1 || dir == -1) && Abs(jitter) < maxX ==> (dir as real) * s < 0.0
  {
    -(dir as real) * maxX + jitter
  }

  /** Where the same sweep ends: the start mirrored through the screen centre. */
  function SweepEnd(dir: int, jitter: real, maxX: real): (e: real)
    ensures e == -SweepStart(dir, jitter, maxX)
  {
    (dir as real) * maxX - jitter
  }

  /** Half the width `Math.min(0.3 * maxX, 1.0)` that the jitter is drawn from. */
  function JitterBound(maxX: real): (b: real)
    ensures maxX >= 0.0 ==> 0.0 <= b <= 0.15 * maxX && b <= 0.5
  {
    0.5 * Min(0.3 * maxX, 1.0)
  }

  /** `(Math.random() - 0.5) * Math.min(0.3 * maxX, 1.0)`: a symmetric nudge that stays within
      15% of the travel limit and within half a unit. */
  function Jitter(r: real, maxX: real): (j: real)
    requires IsDraw(r)
    ensures maxX >= 0.0 ==> Abs(j) <= JitterBound(maxX)
  {
    var w := Min(0.3 * maxX, 1.0);
    assert maxX >= 0.0 ==> Abs((r - 0.5) * w) <= 0.5 * w by {
      if maxX >= 0.0 {
        MulMonotone(r - 0.5, 0.5, w);
        MulMonotone(-0.5, r - 0.5, w);
      }
    }
    (r - 0.5) * w
  }

  /** The deterministic part of the phase, `index / (objects.length * 1.4)`: later indices start later. */
  function Stagger(index: nat, count: nat): real
    requires index < count
  {
    (index as real) / ((count as real) * 1.4)
  }

  /** The stagger never decreases along the stack and stays below 1 / 1.4. */
  lemma {:induction false} StaggerGrows(i: nat, j: nat, count: nat)
    requires i <= j < count
    ensures 0.0 <= Stagger(i, count) <= Stagger(j, count) < 1.0 / 1.4
  {
    var d := (count as real) * 1.4;
    DivMonotone(0.0, i as real, d);
    DivMonotone(i as real, j as real, d);
    DivMonotone(j as real, count as real, d);
    StaggerCeiling(count);
  }

  /** The stagger of the (nonexistent) index `count` would be exactly 1 / 1.4. */
  lemma StaggerCeiling(count: nat)
    requires count > 0
    ensures (count as real) / ((count as real) * 1.4) == 1.0 / 1.4
  {
    var c := count as real;
    var q := c / (c * 1.4);
    assert q * (c * 1.4) == c;
    assert (q * 1.4) * c == 1.0 * c;
    if q * 1.4 != 1.0 {
      if q * 1.4 < 1.0 {
        MulStrictMonotone(q * 1.4, 1.0, c);
      } else {
        MulStrictMonotone(1.0, q * 1.4, c);
      }
    }
    assert q == 1.0 / 1.4;
  }

  /** `Math.min(0.9, Math.random() * 0.4 + index / (objects.length * 1.4))`: a start point in
      [0, 0.9] that lies in a window of width 0.4 beginning at the index's stagger. */
  function Phase(r: real, index: nat, count: nat): (ph: real)
    requires IsDraw(r) && index < count
    ensures 0.0 <= ph <= 0.9
    ensures Min(0.9, Stagger(index, count)) <= ph <= Min(0.9, 0.4 + Stagger(index, count))
  {
    StaggerGrows(index, index, count);
    Min(0.9, r * 0.4 + Stagger(index, count))
  }

  /** What seeding guarantees about the descriptor at `index` of `count` for travel limit `maxX`. */
  predicate WellSeeded(p: MotionParams, index: nat, count: nat, maxX: real) {
    && index < count
    && p.dir == Direction(index)
    && Abs(p.jitter) <= JitterBound(maxX)
    && Min(0.9, Stagger(index, count)) <= p.phase <= Min(0.9, 0.4 + Stagger(index, count))
    && 0.8 <= p.speed < 1.6
    && 0.6 <= p.spinX < 1.6
    && 0.6 <= p.spinY < 1.6
    && 0.12 <= p.floatAmp < 0.30
    && 0.6 <= p.floatFreq < 1.8
  }

  /** The body of `seedMotionParams` for one object, given its seven `Math.random()` draws in
      call order: jitter, phase, speed, spinX, spinY, floatAmp, floatFreq. */
  function Draw(index: nat, count: nat, maxX: real, r: seq<real>): (p: MotionParams)
    requires index < count && |r| == 7 && Draws(r)
    ensures maxX >= 0.0 ==> WellSeeded(p, index, count, maxX)
    ensures 0.0 <= p.phase <= 0.9
  {
    assert IsDraw(r[0]) && IsDraw(r[1]) && IsDraw(r[2]) && IsDraw(r[3]);
    assert IsDraw(r[4]) && IsDraw(r[5]) && IsDraw(r[6]);
    MotionParams(
      dir := Direction(index),
      jitter := Jitter(r[0], maxX),
      phase := Phase(r[1], index, count),
      speed := 0.8 + r[2] * 0.8,
      spinX := 0.6 + r[3] * 1.0,
      spinY := 0.6 + r[4] * 1.0,
      floatAmp := 0.12 + r[5] * 0.18,
      floatFreq := 0.6 + r[6] * 1.2)
  }
}
