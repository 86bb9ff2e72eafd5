/** The animation world: the object pool, the cached motion parameters and the camera's aspect
    ratio, with the operations the page runs on them: creation, start positions, seeding,
    the progress update, the per-frame spin, the refresh sequence and the resize handler. */
module Animation {
  import opened JsMath
  import opened Gsap
  import opened Viewport
  import opened Pool
  import opened Motion
  import opened Mapper

  /** Extra z rotation applied to every object on every animation frame. */
  const FrameSpin: real := 0.002

  /** Bounds every object keeps whatever the viewport: close to its float anchor, no fill,
      and one of the two edge opacities. */
  predicate Steady(m: Mesh) {
    && Abs(m.y - m.baseY) < 0.30
    && m.fillOpacity == 0.0
    && (m.edgeOpacity == ActiveEdgeOpacity || m.edgeOpacity == RestingEdgeOpacity)
  }

  /** What creation fixed, together with the aspect-independent bounds. */
  predicate Settled(m: Mesh, index: nat, spacing: real) {
    Intrinsic(m, index, spacing) && Steady(m)
  }

  /** Horizontal containment for travel limit `maxX`: within the limit widened by the largest jitter. */
  predicate WithinTravel(m: Mesh, maxX: real) {
    Abs(m.x) <= maxX + JitterBound(maxX)
  }

  /** Once the view at an object's depth is wide enough for the margin to apply, horizontal
      containment keeps the object's centre at least 0.7 inside the visible edge. */
  lemma InsetFromEdge(aspect: real, z: real, m: Mesh)
    requires HalfWidthAt(aspect, z) >= MinTravel + ViewportMargin
    requires WithinTravel(m, MaxX(aspect, z))
    ensures Abs(m.x) <= HalfWidthAt(aspect, z) - 0.7 < HalfWidthAt(aspect, z)
  {
  }

  /** A freshly spawned object is settled, and at x = 0 it lies within any travel limit. */
  lemma SpawnSettles(index: nat, spacing: real, r: seq<real>, maxX: real)
    requires |r| == 4 && Draws(r) && maxX >= 0.0
    ensures Settled(Spawn(index, spacing, r), index, spacing)
    ensures WithinTravel(Spawn(index, spacing, r), maxX)
  {
    var m := Spawn(index, spacing, r);
    assert m.x == 0.0 && m.y == m.baseY;
  }

  /** Placing an object keeps what creation fixed, keeps it steady and within its travel limit widened by the jitter bound. */
  lemma PlaceKeepsBounds(m: Mesh, p: MotionParams, index: nat, count: nat, spacing: real,
                         maxX: real, eased: real)
    requires Intrinsic(m, index, spacing) && WellSeeded(p, index, count, maxX) && maxX >= 0.0
    ensures var r := Place(m, p, index, maxX, eased);
            && Intrinsic(r, index, spacing) && Steady(r) && r.z == m.z
            && WithinTravel(r, maxX)
  {
    SweepContained(m, p, index, count, maxX, eased);
  }

  /** The object the refresh sequence leaves behind: `m` placed at `progress` with the
      descriptor drawn, for its travel limit, from the seven draws of `draws` starting at `at`. */
  function Refreshed(m: Mesh, index: nat, count: nat, aspect: real, progress: real,
                     draws: seq<real>, at: nat): Mesh
    requires index < count && at + 7 <= |draws| && Draws(draws)
  {
    var maxX := MaxX(aspect, m.z);
    var r := draws[at..at + 7];
    assert Draws(r) by {
      forall k | 0 <= k < 7 ensures IsDraw(r[k]) { assert r[k] == draws[at + k]; }
    }
    Place(m, Draw(index, count, maxX, r), index, maxX, PowerTwoOut(progress))
  }

  class World {
    /** `objects`: one mesh per stacking index, fixed in number at creation. */
    const objects: array<Mesh>
    /** `verticalSpacing` between consecutive float anchors. */
    const spacing: real
    /** `camera.aspect`. */
    var aspect: real
    /** `motionParams`, index-aligned with `objects` once seeded. */
    var motionParams: seq<MotionParams>

    /** Creation-time facts and aspect-independent bounds hold for every object. */
    ghost predicate Wellformed()
      reads this, objects
    {
      forall i {:trigger Settled(objects[i], i, spacing)} :: 0 <= i < objects.Length ==> Settled(objects[i], i, spacing)
    }

    /** Every object lies within the travel limit of its depth for the current aspect ratio,
        widened by the jitter bound. */
    ghost predicate Contained()
      reads this, objects
    {
      forall i {:trigger WithinTravel(objects[i], MaxX(aspect, objects[i].z))} :: 0 <= i < objects.Length ==>
        WithinTravel(objects[i], MaxX(aspect, objects[i].z))
    }

    /** There is one descriptor per object, each as seeding makes it for the current aspect ratio. */
    ghost predicate Seeded()
      reads this, objects
    {
      && |motionParams| == objects.Length
      // Implied by the well-seeded clause below; stated on its own so that the speed bound,
      // which every `Place` call needs, is available without the travel-limit term.
      && (forall i :: 0 <= i < |motionParams| ==> motionParams[i].speed >= 0.8)
      && forall i {:trigger WellSeeded(motionParams[i], i, objects.Length, MaxX(aspect, objects[i].z))} ::
           0 <= i < objects.Length ==> WellSeeded(motionParams[i], i, objects.Length, MaxX(aspect, objects[i].z))
    }

    /** The creation loop: one mesh per index, from four draws each. No descriptors exist yet. */
    constructor (compact: bool, aspect: real, draws: seq<real>)
      requires |draws| == 4 * Count(compact) && Draws(draws)
      ensures fresh(objects) && objects.Length == Count(compact) && spacing == Spacing(compact)
      ensures this.aspect == aspect && motionParams == []
      ensures forall i :: 0 <= i < objects.Length ==> objects[i] == Spawn(i, spacing, draws[4 * i..4 * i + 4])
      ensures Wellformed() && Contained()
    {
      var n := Count(compact);
      var pool := new Mesh[n];
      for i := 0 to n
        invariant forall k :: 0 <= k < i ==> pool[k] == Spawn(k, Spacing(compact), draws[4 * k..4 * k + 4])
        invariant forall k :: 0 <= k < i ==>
                    Settled(pool[k], k, Spacing(compact)) && WithinTravel(pool[k], MaxX(aspect, pool[k].z))
      {
        var r := draws[4 * i..4 * i + 4];
        assert Draws(r) by {
          forall k | 0 <= k < 4 ensures IsDraw(r[k]) { assert r[k] == draws[4 * i + k]; }
        }
        pool[i] := Spawn(i, Spacing(compact), r);
        SpawnSettles(i, Spacing(compact), r, MaxX(aspect, pool[i].z));
      }
      objects := pool;
      spacing := Spacing(compact);
      this.aspect := aspect;
      motionParams := [];
      new;
      assert Wellformed();
      assert Contained();
    }

    /** `setStartPositions`: every object jumps to the start of a sweep in its direction, with a
        jitter of its own drawn here (one draw per object). */
    method SetStartPositions(draws: seq<real>)
      requires Wellformed() && |draws| == objects.Length && Draws(draws)
      modifies objects
      ensures Wellformed() && Contained()
      ensures forall i :: 0 <= i < objects.Length ==>
                var maxX := MaxX(aspect, old(objects[i]).z);
                objects[i] == old(objects[i]).(x := SweepStart(Direction(i), Jitter(draws[i], maxX), maxX))
    {
      for i := 0 to objects.Length
        invariant forall k :: 0 <= k < i ==>
                    var maxX := MaxX(aspect, old(objects[k]).z);
                    objects[k] == old(objects[k]).(x := SweepStart(Direction(k), Jitter(draws[k], maxX), maxX))
        invariant forall k :: 0 <= k < i ==> WithinTravel(objects[k], MaxX(aspect, objects[k].z))
        invariant forall k :: i <= k < objects.Length ==> objects[k] == old(objects[k])
      {
        var obj := objects[i];
        var direction := Direction(i);
        var half := HalfWidthAt(aspect, obj.z);
        var maxX := Max(MinTravel, half - ViewportMargin);
        assert IsDraw(draws[i]);
        var jitter := Jitter(draws[i], maxX);
        objects[i] := obj.(x := SweepStart(direction, jitter, maxX));
      }
      forall i | 0 <= i < objects.Length
        ensures Settled(objects[i], i, spacing) && WithinTravel(objects[i], MaxX(aspect, objects[i].z))
      {
        assert Settled(old(objects[i]), i, spacing);
      }
    }

    /** `seedMotionParams`: empty the descriptor list and push one fresh descriptor per object,
        from seven draws each. */
    method Seed(draws: seq<real>)
      requires |draws| == 7 * objects.Length && Draws(draws)
      modifies this`motionParams
      ensures Seeded()
      ensures forall i :: 0 <= i < objects.Length ==>
                motionParams[i] == Draw(i, objects.Length, MaxX(aspect, objects[i].z), draws[7 * i..7 * i + 7])
    {
      motionParams := [];
      for i := 0 to objects.Length
        invariant |motionParams| == i
        invariant forall k :: 0 <= k < i ==>
                    motionParams[k] == Draw(k, objects.Length, MaxX(aspect, objects[k].z), draws[7 * k..7 * k + 7])
        invariant forall k :: 0 <= k < i ==>
                    WellSeeded(motionParams[k], k, objects.Length, MaxX(aspect, objects[k].z))
      {
        var obj := objects[i];
        var dir := Direction(i);
        var half := HalfWidthAt(aspect, obj.z);
        var maxX := Max(MinTravel, half - ViewportMargin);
        var r := draws[7 * i..7 * i + 7];
        assert Draws(r) by {
          forall k | 0 <= k < 7 ensures IsDraw(r[k]) { assert r[k] == draws[7 * i + k]; }
        }
        var jitter := Jitter(r[0], maxX);
        var phase := Phase(r[1], i, objects.Length);
        var speed := 0.8 + r[2] * 0.8;
        var spinX := 0.6 + r[3] * 1.0;
        var spinY := 0.6 + r[4] * 1.0;
        var floatAmp := 0.12 + r[5] * 0.18;
        var floatFreq := 0.6 + r[6] * 1.2;
        var p := MotionParams(dir, jitter, phase, speed, spinX, spinY, floatAmp, floatFreq);
        assert p == Draw(i, objects.Length, maxX, r);
        motionParams := motionParams + [p];
      }
    }

    /** `updateMotionWithProgress(progress)`: ease the progress once, then place every object
        from its own descriptor. */
    method Update(progress: real)
      requires Wellformed() && Seeded()
      modifies objects
      ensures Wellformed() && Seeded() && Contained()
      ensures forall i :: 0 <= i < objects.Length ==>
                objects[i] == Place(old(objects[i]), motionParams[i], i,
                                    MaxX(aspect, old(objects[i]).z), PowerTwoOut(progress))
    {
      var eased := PowerTwoOut(progress);
      for i := 0 to objects.Length
        invariant forall k :: 0 <= k < i ==>
                    objects[k] == Place(old(objects[k]), motionParams[k], k,
                                        MaxX(aspect, old(objects[k]).z), eased)
        invariant forall k :: i <= k < objects.Length ==> objects[k] == old(objects[k])
      {
        var obj := objects[i];
        var p := motionParams[i];
        objects[i] := Place(obj, p, i, MaxX(aspect, obj.z), eased);
      }
      forall i | 0 <= i < objects.Length
        ensures Settled(objects[i], i, spacing)
        ensures objects[i].z == old(objects[i]).z
        ensures WithinTravel(objects[i], MaxX(aspect, objects[i].z))
        ensures WellSeeded(motionParams[i], i, objects.Length, MaxX(aspect, objects[i].z))
      {
        assert Settled(old(objects[i]), i, spacing);
        assert WellSeeded(motionParams[i], i, objects.Length, MaxX(aspect, old(objects[i]).z));
        PlaceKeepsBounds(old(objects[i]), motionParams[i], i, objects.Length, spacing,
                         MaxX(aspect, old(objects[i]).z), eased);
      }
      assert Wellformed();
      assert Contained();
    }

    /** The spin step of the render loop: every object turns a little further about z, and
        nothing else changes. */
    method Frame()
      requires Wellformed()
      modifies objects
      ensures Wellformed()
      ensures old(Contained()) ==> Contained()
      ensures old(Seeded()) ==> Seeded()
      ensures forall i :: 0 <= i < objects.Length ==>
                objects[i] == old(objects[i]).(rotZ := old(objects[i]).rotZ + FrameSpin)
    {
      for i := 0 to objects.Length
        invariant forall k :: 0 <= k < i ==>
                    objects[k] == old(objects[k]).(rotZ := old(objects[k]).rotZ + FrameSpin)
        invariant forall k :: i <= k < objects.Length ==> objects[k] == old(objects[k])
      {
        objects[i] := objects[i].(rotZ := objects[i].rotZ + FrameSpin);
      }
      forall i | 0 <= i < objects.Length
        ensures Settled(objects[i], i, spacing)
        ensures old(Contained()) ==> WithinTravel(objects[i], MaxX(aspect, objects[i].z))
        ensures old(Seeded()) ==> WellSeeded(motionParams[i], i, objects.Length, MaxX(aspect, objects[i].z))
      {
        assert Settled(old(objects[i]), i, spacing);
        assert old(Contained()) ==> WithinTravel(old(objects[i]), MaxX(aspect, old(objects[i]).z));
        assert old(Seeded()) ==> WellSeeded(motionParams[i], i, objects.Length, MaxX(aspect, old(objects[i]).z));
      }
    }

    /** The refresh sequence, run at start-up and by the scroll trigger's refresh: start
        positions (n draws), fresh descriptors (7n draws), then an update at the current progress.
        The update overwrites every start position. */
    method Refresh(progress: real, draws: seq<real>)
      requires Wellformed() && |draws| == 8 * objects.Length && Draws(draws)
      modifies this`motionParams, objects
      ensures Wellformed() && Seeded() && Contained()
      ensures forall i :: 0 <= i < objects.Length ==>
                && motionParams[i] == Draw(i, objects.Length, MaxX(aspect, objects[i].z),
                                           draws[objects.Length + 7 * i..objects.Length + 7 * i + 7])
                && objects[i] == Place(old(objects[i]), motionParams[i], i,
                                       MaxX(aspect, old(objects[i]).z), PowerTwoOut(progress))
      ensures forall i :: 0 <= i < objects.Length ==>
                objects[i] == Refreshed(old(objects[i]), i, objects.Length, aspect, progress,
                                        draws, objects.Length + 7 * i)
    {
      Reseed(draws);
      Update(progress);
    }

    /** Start positions (n draws) followed by fresh descriptors (7n draws): the first two steps
        of the refresh sequence, and the tail of the resize handler. Every object moves to a
        freshly jittered sweep start and nothing else about it changes. */
    method Reseed(draws: seq<real>)
      requires Wellformed() && |draws| == 8 * objects.Length && Draws(draws)
      modifies this`motionParams, objects
      ensures Wellformed() && Seeded() && Contained()
      ensures forall i :: 0 <= i < objects.Length ==> objects[i] == old(objects[i]).(x := objects[i].x)
      ensures forall i :: 0 <= i < objects.Length ==>
                var maxX := MaxX(aspect, objects[i].z);
                && objects[i].x == SweepStart(Direction(i), Jitter(draws[i], maxX), maxX)
                && motionParams[i] == Draw(i, objects.Length, maxX,
                                           draws[objects.Length + 7 * i..objects.Length + 7 * i + 7])
    {
      var n := objects.Length;
      SetStartPositions(draws[..n]);
      forall i | 0 <= i < n
        ensures draws[..n][i] == draws[i]
        ensures draws[n..][7 * i..7 * i + 7] == draws[n + 7 * i..n + 7 * i + 7]
      {
      }
      Seed(draws[n..]);
    }

    /** The resize handler: the new aspect ratio, the scroll trigger's refresh (which runs the
        refresh sequence), then start positions and descriptors once more, with no update after
        them. Every object ends at a freshly jittered sweep start within its new travel limit
        widened by the jitter bound,
        keeps its depth and z rotation, and keeps the float, x and y rotations and opacities
        that the refresh's update gave it. */
    method Resize(newAspect: real, progress: real, draws: seq<real>)
      requires Wellformed() && |draws| == 16 * objects.Length && Draws(draws)
      modifies this`aspect, this`motionParams, objects
      ensures aspect == newAspect
      ensures Wellformed() && Seeded() && Contained()
      ensures forall i :: 0 <= i < objects.Length ==>
                objects[i].z == old(objects[i]).z && objects[i].rotZ == old(objects[i]).rotZ
      ensures var rest := draws[8 * objects.Length..];
              forall i :: 0 <= i < objects.Length ==>
                var maxX := MaxX(newAspect, objects[i].z);
                && objects[i].x == SweepStart(Direction(i), Jitter(rest[i], maxX), maxX)
                && motionParams[i] == Draw(i, objects.Length, maxX,
                                           rest[objects.Length + 7 * i..objects.Length + 7 * i + 7])
      ensures var first := draws[..8 * objects.Length];
              forall i :: 0 <= i < objects.Length ==>
                objects[i] == Refreshed(old(objects[i]), i, objects.Length, newAspect, progress,
                                        first, objects.Length + 7 * i).(x := objects[i].x)
    {
      var n := objects.Length;
      aspect := newAspect;
      Refresh(progress, draws[..8 * n]);
      ghost var refreshed := objects[..];
      Reseed(draws[8 * n..]);
      forall i | 0 <= i < n
        ensures objects[i] == refreshed[i].(x := objects[i].x)
      {
      }
    }
  }
}
