/**
 * Simulator.cpp: builds the forces, then the points seeded from them, and
 * runs the simulation loop, recording snapshots for the VTK export.
 *
 * The engine is the sample tape of module Random read through a draw
 * counter.  The arguments of Vector3D(randomDouble(..), randomDouble(..),
 * randomDouble(..)) are taken in the order x, y, z.  Point::update, which
 * the loop calls once per point and micro-step, is the function `update`
 * given to Simulate.
 */
module Simulation {
  import opened Wrappers
  import opened Vectors
  import opened Random
  import opened Forces
  import opened Points
  import opened Params
  import opened VtkWriter

  /** The micro-step length of simulate(). */
  const Dt: real := 0.01

  /** static_cast<int>(1.0 / dt) */
  const StepsPerSecond: nat := 100

  /** Draws consumed per force: three for the direction, one for the
      minimum magnitude, one for the extra range. */
  const DrawsPerForce: nat := 5

  /** Draws consumed per point before its forces: three for the position,
      three for the initial velocity, one for the friction. */
  const DrawsPerPoint: nat := 7

  /** randomVector3D(lo, hi) on the draws k, k + 1, k + 2. */
  function VectorAt(tape: nat -> real, k: nat, lo: real, hi: real): Vector3D {
    Vector3D(Uniform(lo, hi, tape(k)), Uniform(lo, hi, tape(k + 1)), Uniform(lo, hi, tape(k + 2)))
  }

  /** The minimum magnitude initializeForces draws on draw k. */
  function MinMagnitudeAt(p: SimulationParams, tape: nat -> real, k: nat): real {
    Uniform(p.minAcceleration, p.maxAcceleration, tape(k))
  }

  /** The maximum magnitude: the minimum plus a draw over what is left up
      to maxAcceleration, on draw k + 1. */
  function MaxMagnitudeAt(p: SimulationParams, tape: nat -> real, k: nat): real {
    var minMag := MinMagnitudeAt(p, tape, k);
    minMag + Uniform(0.0, p.maxAcceleration - minMag, tape(k + 1))
  }

  /** The force initializeForces builds from the draws k .. k + 4: the
      drawn direction is normalised, then handed to the Force constructor,
      which normalises it again. */
  function ForceAt(p: SimulationParams, tape: nat -> real, sqrt: real -> real, k: nat): Force
    requires IsSqrt(sqrt)
  {
    var direction := Normalized(VectorAt(tape, k, -1.0, 1.0), sqrt);
    MakeForce(direction, MinMagnitudeAt(p, tape, k + 3), MaxMagnitudeAt(p, tape, k + 3), sqrt)
  }

  /** Normalising twice is normalising once: the stored direction is the
      drawn vector normalised a single time. */
  lemma ForceDirectionNormalizedOnce(p: SimulationParams, tape: nat -> real, sqrt: real -> real, k: nat)
    requires IsSqrt(sqrt)
    ensures ForceAt(p, tape, sqrt, k).direction == Normalized(VectorAt(tape, k, -1.0, 1.0), sqrt)
  {
    NormalizedIdempotent(VectorAt(tape, k, -1.0, 1.0), sqrt);
  }

  /** n forces built one after another from draw k on. */
  function ForcesFrom(p: SimulationParams, tape: nat -> real, sqrt: real -> real, k: nat, n: nat): (r: seq<Force>)
    requires IsSqrt(sqrt)
    ensures |r| == n
  {
    seq(n, i requires 0 <= i < n => ForceAt(p, tape, sqrt, k + DrawsPerForce * i))
  }

  lemma ForcesFromStep(p: SimulationParams, tape: nat -> real, sqrt: real -> real, k: nat, n: nat)
    requires IsSqrt(sqrt)
    ensures ForcesFrom(p, tape, sqrt, k, n + 1)
      == ForcesFrom(p, tape, sqrt, k, n) + [ForceAt(p, tape, sqrt, k + DrawsPerForce * n)]
  {
  }

  /** generateForce of each force in order, on the draws k, k + 1, ... */
  function Generated(forces: seq<Force>, tape: nat -> real, k: nat): (r: seq<Vector3D>)
    ensures |r| == |forces|
  {
    seq(|forces|, j requires 0 <= j < |forces| => GenerateForce(forces[j], tape(k + j)))
  }

  /** The number of draws initializePoints consumes per point. */
  function PointStride(forces: seq<Force>): nat {
    DrawsPerPoint + |forces|
  }

  /** The point initializePoints builds from the draws starting at k: its
      acceleration starts at zero and receives one generated force per
      force, in order. */
  function PointAt(p: SimulationParams, tape: nat -> real, forces: seq<Force>, k: nat): PointState {
    var position := VectorAt(tape, k, -p.cubeSize / 2.0, p.cubeSize / 2.0);
    var initialVelocity := VectorAt(tape, k + 3, p.minInitialVelocity, p.maxInitialVelocity);
    var friction := Uniform(p.minFriction, p.maxFriction, tape(k + 6));
    PointState(position, initialVelocity, initialVelocity,
      Accumulated(Zero(), Generated(forces, tape, k + DrawsPerPoint)), friction)
  }

  /** PointAt assembled from its parts, so that a caller holding the draws
      need not unfold it. */
  lemma PointAtParts(p: SimulationParams, tape: nat -> real, forces: seq<Force>, k: nat,
                     position: Vector3D, initialVelocity: Vector3D, friction: real)
    requires position == VectorAt(tape, k, -p.cubeSize / 2.0, p.cubeSize / 2.0)
    requires initialVelocity == VectorAt(tape, k + 3, p.minInitialVelocity, p.maxInitialVelocity)
    requires friction == Uniform(p.minFriction, p.maxFriction, tape(k + 6))
    ensures PointAt(p, tape, forces, k) == PointState(position, initialVelocity, initialVelocity,
      Accumulated(Zero(), Generated(forces, tape, k + DrawsPerPoint)), friction)
  {
  }

  /** n points built one after another from draw k on. */
  function PointsFrom(p: SimulationParams, tape: nat -> real, forces: seq<Force>, k: nat, n: nat): (r: seq<PointState>)
    ensures |r| == n
  {
    seq(n, i requires 0 <= i < n => PointAt(p, tape, forces, k + PointStride(forces) * i))
  }

  lemma PointsFromStep(p: SimulationParams, tape: nat -> real, forces: seq<Force>, k: nat, n: nat, d: nat)
    requires d == k + PointStride(forces) * n
    ensures PointsFrom(p, tape, forces, k, n + 1) == PointsFrom(p, tape, forces, k, n) + [PointAt(p, tape, forces, d)]
    ensures d + PointStride(forces) == k + PointStride(forces) * (n + 1)
  {
  }

  /** With canonical draws and minAcceleration <= maxAcceleration, every
      force satisfies minAcceleration <= minMagnitude <= maxMagnitude <=
      maxAcceleration, and its direction is a unit vector or zero. */
  lemma ForcesInRange(p: SimulationParams, tape: nat -> real, sqrt: real -> real, k: nat, n: nat, i: nat)
    requires IsSqrt(sqrt) && IsCanonicalTape(tape)
    requires p.minAcceleration <= p.maxAcceleration
    requires i < n
    ensures var f := ForcesFrom(p, tape, sqrt, k, n)[i];
      p.minAcceleration <= f.minMagnitude <= f.maxMagnitude <= p.maxAcceleration &&
      (f.direction == Zero() || Magnitude(f.direction, sqrt) == 1.0)
  {
    var j := k + DrawsPerForce * i;
    assert ForcesFrom(p, tape, sqrt, k, n)[i] == ForceAt(p, tape, sqrt, j);
    ForceMagnitudesInRange(p, tape, j + 3);
    ForceDirectionIsUnit(p, tape, sqrt, j);
  }

  lemma ForceMagnitudesInRange(p: SimulationParams, tape: nat -> real, k: nat)
    requires IsCanonicalTape(tape)
    requires p.minAcceleration <= p.maxAcceleration
    ensures p.minAcceleration <= MinMagnitudeAt(p, tape, k) <= MaxMagnitudeAt(p, tape, k) <= p.maxAcceleration
  {
    var minMag := MinMagnitudeAt(p, tape, k);
    UniformInRange(p.minAcceleration, p.maxAcceleration, tape(k));
    UniformInRange(0.0, p.maxAcceleration - minMag, tape(k + 1));
  }

  lemma ForceDirectionIsUnit(p: SimulationParams, tape: nat -> real, sqrt: real -> real, k: nat)
    requires IsSqrt(sqrt)
    ensures var f := ForceAt(p, tape, sqrt, k);
      f.minMagnitude == MinMagnitudeAt(p, tape, k + 3) &&
      f.maxMagnitude == MaxMagnitudeAt(p, tape, k + 3) &&
      (f.direction == Zero() || Magnitude(f.direction, sqrt) == 1.0)
  {
    MakeForceDirection(Normalized(VectorAt(tape, k, -1.0, 1.0), sqrt),
      MinMagnitudeAt(p, tape, k + 3), MaxMagnitudeAt(p, tape, k + 3), sqrt);
  }

  /** Every generated force of a well-formed force is one of its draws. */
  lemma GeneratedAreDraws(forces: seq<Force>, tape: nat -> real, k: nat, j: nat)
    requires IsCanonicalTape(tape)
    requires j < |forces| && forces[j].minMagnitude <= forces[j].maxMagnitude
    ensures IsDrawOf(forces[j], Generated(forces, tape, k)[j])
  {
    GenerateForceIsDraw(forces[j], tape(k + j));
  }

  /** A point lies in the cube, its velocity equals its initial velocity and
      lies in the initial-velocity box, its friction lies in the friction
      range, and its acceleration is the sum of one generated force per
      force. */
  lemma PointsInRange(p: SimulationParams, tape: nat -> real, forces: seq<Force>, k: nat, n: nat, i: nat)
    requires IsCanonicalTape(tape)
    requires p.cubeSize >= 0.0
    requires p.minFriction <= p.maxFriction
    requires p.minInitialVelocity <= p.maxInitialVelocity
    requires i < n
    ensures var s := PointsFrom(p, tape, forces, k, n)[i];
      var j := k + PointStride(forces) * i;
      InBox(s.position, -p.cubeSize / 2.0, p.cubeSize / 2.0) &&
      s.velocity == s.initialVelocity &&
      InBox(s.initialVelocity, p.minInitialVelocity, p.maxInitialVelocity) &&
      InClosedRange(s.frictionCoefficient, p.minFriction, p.maxFriction) &&
      s.acceleration == Add(Zero(), Accumulated(Zero(), Generated(forces, tape, j + DrawsPerPoint)))
  {
    var j := k + PointStride(forces) * i;
    var s := PointsFrom(p, tape, forces, k, n)[i];
    assert s == PointAt(p, tape, forces, j);
    PointAtInRange(p, tape, forces, j);
  }

  lemma PointAtInRange(p: SimulationParams, tape: nat -> real, forces: seq<Force>, k: nat)
    requires IsCanonicalTape(tape)
    requires p.cubeSize >= 0.0
    requires p.minFriction <= p.maxFriction
    requires p.minInitialVelocity <= p.maxInitialVelocity
    ensures var s := PointAt(p, tape, forces, k);
      InBox(s.position, -p.cubeSize / 2.0, p.cubeSize / 2.0) &&
      s.velocity == s.initialVelocity &&
      InBox(s.initialVelocity, p.minInitialVelocity, p.maxInitialVelocity) &&
      InClosedRange(s.frictionCoefficient, p.minFriction, p.maxFriction) &&
      s.acceleration == Add(Zero(), Accumulated(Zero(), Generated(forces, tape, k + DrawsPerPoint)))
  {
    VectorInBox(tape, k, -p.cubeSize / 2.0, p.cubeSize / 2.0);
    VectorInBox(tape, k + 3, p.minInitialVelocity, p.maxInitialVelocity);
    UniformInRange(p.minFriction, p.maxFriction, tape(k + 6));
    AccumulatedIsSum(Zero(), Generated(forces, tape, k + DrawsPerPoint));
  }

  /** Every component of v lies in [lo, hi]. */
  predicate InBox(v: Vector3D, lo: real, hi: real) {
    InClosedRange(v.x, lo, hi) && InClosedRange(v.y, lo, hi) && InClosedRange(v.z, lo, hi)
  }

  lemma VectorInBox(tape: nat -> real, k: nat, lo: real, hi: real)
    requires IsCanonicalTape(tape) && lo <= hi
    ensures InBox(VectorAt(tape, k, lo, hi), lo, hi)
  {
    UniformInRange(lo, hi, tape(k));
    UniformInRange(lo, hi, tape(k + 1));
    UniformInRange(lo, hi, tape(k + 2));
  }

  // The simulation loop, on values.

  /** One micro-step: every point updated once, in index order. */
  function StepAll(points: seq<PointState>, update: (PointState, real) -> PointState): (r: seq<PointState>)
    ensures |r| == |points|
  {
    seq(|points|, i requires 0 <= i < |points| => update(points[i], Dt))
  }

  /** k micro-steps. */
  function MicroSteps(points: seq<PointState>, update: (PointState, real) -> PointState, k: nat): (r: seq<PointState>)
    ensures |r| == |points|
    decreases k
  {
    if k == 0 then points else StepAll(MicroSteps(points, update, k - 1), update)
  }

  /** One tick of simulate(): StepsPerSecond micro-steps. */
  function Tick(points: seq<PointState>, update: (PointState, real) -> PointState): (r: seq<PointState>)
    ensures |r| == |points|
  {
    MicroSteps(points, update, StepsPerSecond)
  }

  /** n ticks. */
  function Ticks(points: seq<PointState>, update: (PointState, real) -> PointState, n: nat): (r: seq<PointState>)
    ensures |r| == |points|
    decreases n
  {
    if n == 0 then points else Tick(Ticks(points, update, n - 1), update)
  }

  /** The snapshots taken after each of n ticks. */
  function History(points: seq<PointState>, update: (PointState, real) -> PointState, n: nat): (r: seq<seq<PointState>>)
    ensures |r| == n
  {
    seq(n, t requires 0 <= t < n => Ticks(points, update, t + 1))
  }

  /** The number of ticks of `for (t = 0; t <= simulationTime; ++t)`. */
  function TickCount(simulationTime: int): nat {
    if simulationTime < 0 then 0 else simulationTime + 1
  }

  lemma HistoryStep(points: seq<PointState>, update: (PointState, real) -> PointState, n: nat)
    ensures History(points, update, n + 1) == History(points, update, n) + [Ticks(points, update, n + 1)]
  {
  }

  /** Micro-steps compose. */
  lemma {:induction false} MicroStepsAdd(points: seq<PointState>, update: (PointState, real) -> PointState, a: nat, b: nat)
    ensures MicroSteps(MicroSteps(points, update, a), update, b) == MicroSteps(points, update, a + b)
    decreases b
  {
    if b > 0 {
      MicroStepsAdd(points, update, a, b - 1);
    }
  }

  /** n ticks are exactly n * StepsPerSecond micro-steps, each updating
      every point once. */
  lemma {:induction false} TicksAreMicroSteps(points: seq<PointState>, update: (PointState, real) -> PointState, n: nat)
    ensures Ticks(points, update, n) == MicroSteps(points, update, n * StepsPerSecond)
    decreases n
  {
    if n > 0 {
      TicksAreMicroSteps(points, update, n - 1);
      MicroStepsAdd(points, update, (n - 1) * StepsPerSecond, StepsPerSecond);
    }
  }

  /** Snapshot t of the history is the state after t + 1 ticks, and later
      snapshots continue from earlier ones. */
  lemma HistoryContinues(points: seq<PointState>, update: (PointState, real) -> PointState, n: nat, t: nat)
    requires t + 1 < n
    ensures History(points, update, n)[t + 1] == Tick(History(points, update, n)[t], update)
  {
  }

  /** A point the step function leaves in place stays in place through any
      number of ticks. */
  lemma {:induction false} FixedPointsStay(points: seq<PointState>, update: (PointState, real) -> PointState, n: nat, i: nat)
    requires i < |points| && update(points[i], Dt) == points[i]
    ensures Ticks(points, update, n)[i] == points[i]
    decreases n
  {
    if n > 0 {
      FixedPointsStay(points, update, n - 1, i);
      MicroStepsKeep(Ticks(points, update, n - 1), update, StepsPerSecond, i, points[i]);
    }
  }

  lemma {:induction false} MicroStepsKeep(points: seq<PointState>, update: (PointState, real) -> PointState, k: nat, i: nat, s: PointState)
    requires i < |points| && points[i] == s && update(s, Dt) == s
    ensures MicroSteps(points, update, k)[i] == s
    decreases k
  {
    if k > 0 {
      MicroStepsKeep(points, update, k - 1, i, s);
    }
  }

  /** The std::mt19937 member: a tape of canonical samples and the number
      drawn so far. */
  class Engine {
    const tape: nat -> real
    var draws: nat

    /** Seeding from std::random_device chooses the tape. */
    constructor (tape: nat -> real)
      ensures this.tape == tape && draws == 0
    {
      this.tape := tape;
      draws := 0;
    }

    /** One canonical sample. */
    method Next() returns (u: real)
      modifies this
      ensures u == tape(old(draws)) && draws == old(draws) + 1
    {
      u := tape(draws);
      draws := draws + 1;
    }
  }

  class Simulator {
    var params: SimulationParams
    const rng: Engine
    /** std::sqrt, used by Vector3D::normalized. */
    const sqrt: real -> real
    var points: seq<PointState>
    var forces: seq<Force>
    var pointsHistory: seq<seq<PointState>>

    /** sqrt is a square root, as Normalized needs. */
    ghost predicate Valid() {
      IsSqrt(sqrt)
    }

    /** Simulator(params): initializeForces, then initializePoints, on an
        engine seeded with `tape`. */
    constructor (p: SimulationParams, tape: nat -> real, sqrt: real -> real)
      requires IsSqrt(sqrt)
      requires p.numForces >= 0 && p.numPoints >= 0  // reserve throws std::length_error otherwise
      ensures Valid() && fresh(rng)
      ensures params == p && rng.tape == tape && this.sqrt == sqrt
      ensures forces == ForcesFrom(p, tape, sqrt, 0, p.numForces)
      ensures points == PointsFrom(p, tape, forces, DrawsPerForce * p.numForces, p.numPoints)
      ensures rng.draws == DrawsPerForce * p.numForces + PointStride(forces) * p.numPoints
      ensures pointsHistory == []
    {
      params := p;
      rng := new Engine(tape);
      this.sqrt := sqrt;
      points := [];
      forces := [];
      pointsHistory := [];
      new;
      InitializeForces();
      InitializePoints();
    }

    /** randomDouble(min, max): uniform_real_distribution on one sample. */
    method RandomDouble(min: real, max: real) returns (r: real)
      modifies rng
      ensures r == Uniform(min, max, rng.tape(old(rng.draws))) && rng.draws == old(rng.draws) + 1
    {
      var u := rng.Next();
      r := Uniform(min, max, u);
    }

    /** randomVector3D(min, max): three draws, for x, y and z. */
    method RandomVector3D(min: real, max: real) returns (v: Vector3D)
      modifies rng
      ensures v == VectorAt(rng.tape, old(rng.draws), min, max) && rng.draws == old(rng.draws) + 3
    {
      var x := RandomDouble(min, max);
      var y := RandomDouble(min, max);
      var z := RandomDouble(min, max);
      v := Vector3D(x, y, z);
    }

    /** initializeForces: replaces the force list by numForces forces. */
    method InitializeForces()
      requires Valid() && params.numForces >= 0
      modifies this, rng
      ensures params == old(params) && points == old(points) && pointsHistory == old(pointsHistory)
      ensures forces == ForcesFrom(params, rng.tape, sqrt, old(rng.draws), params.numForces)
      ensures rng.draws == old(rng.draws) + DrawsPerForce * params.numForces
    {
      forces := [];
      var start := rng.draws;
      ghost var p := params;
      var i := 0;
      while i < params.numForces
        invariant 0 <= i <= p.numForces
        invariant params == p && points == old(points) && pointsHistory == old(pointsHistory)
        invariant rng.draws == start + DrawsPerForce * i
        invariant forces == ForcesFrom(p, rng.tape, sqrt, start, i)
      {
        var force := NewForce();
        ForcesFromStep(p, rng.tape, sqrt, start, i);
        forces := forces + [force];
        i := i + 1;
      }
    }

    /** The body of initializeForces' loop: a normalised random direction,
        a minimum magnitude in the acceleration range and a maximum
        magnitude between it and maxAcceleration. */
    method NewForce() returns (force: Force)
      requires Valid()
      modifies rng
      ensures force == ForceAt(params, rng.tape, sqrt, old(rng.draws))
      ensures rng.draws == old(rng.draws) + DrawsPerForce
    {
      var direction := RandomVector3D(-1.0, 1.0);
      direction := Normalized(direction, sqrt);
      var minMag := RandomDouble(params.minAcceleration, params.maxAcceleration);
      var extra := RandomDouble(0.0, params.maxAcceleration - minMag);
      var maxMag := minMag + extra;
      force := MakeForce(direction, minMag, maxMag, sqrt);
    }

    /** initializePoints: replaces the point list by numPoints points, each
        seeded with one generated force per force. */
    method InitializePoints()
      requires params.numPoints >= 0
      modifies this, rng
      ensures params == old(params) && forces == old(forces) && pointsHistory == old(pointsHistory)
      ensures points == PointsFrom(params, rng.tape, forces, old(rng.draws), params.numPoints)
      ensures rng.draws == old(rng.draws) + PointStride(forces) * params.numPoints
    {
      points := [];
      var start := rng.draws;
      ghost var p, fs := params, forces;
      var i := 0;
      while i < params.numPoints
        invariant 0 <= i <= p.numPoints
        invariant params == p && forces == fs && pointsHistory == old(pointsHistory)
        invariant rng.draws == start + PointStride(fs) * i
        invariant points == PointsFrom(p, rng.tape, fs, start, i)
      {
        ghost var d := rng.draws;
        var state := NewPoint();
        PointsFromStep(p, rng.tape, fs, start, i, d);
        points := points + [state];
        i := i + 1;
      }
    }

    /** The body of initializePoints' loop: draws a position, an initial
        velocity and a friction, builds the point with zero acceleration and
        applies one generated force per force to it. */
    method NewPoint() returns (state: PointState)
      modifies rng
      ensures state == PointAt(params, rng.tape, forces, old(rng.draws))
      ensures rng.draws == old(rng.draws) + PointStride(forces)
    {
      ghost var k := rng.draws;
      var position := RandomVector3D(-params.cubeSize / 2.0, params.cubeSize / 2.0);
      var initialVelocity := RandomVector3D(params.minInitialVelocity, params.maxInitialVelocity);
      var acceleration := Zero();
      var friction := RandomDouble(params.minFriction, params.maxFriction);
      var point := new Point(position, initialVelocity, acceleration, friction);
      point.initialVelocity := initialVelocity;
      ApplyForces(point);
      state := point.State();
      PointAtParts(params, rng.tape, forces, k, position, initialVelocity, friction);
    }

    /** The inner loop of initializePoints: point.applyForce of one
        generated force per force, in force-list order, each on the next
        draw. */
    method ApplyForces(point: Point)
      modifies rng, point
      ensures point.State() == old(point.State()).(acceleration :=
        Accumulated(old(point.acceleration), Generated(forces, rng.tape, old(rng.draws))))
      ensures rng.draws == old(rng.draws) + |forces|
    {
      var k := rng.draws;
      var j := 0;
      while j < |forces|
        invariant 0 <= j <= |forces|
        invariant rng.draws == k + j
        invariant point.State() == old(point.State()).(acceleration :=
          Accumulated(old(point.acceleration), Generated(forces[..j], rng.tape, k)))
      {
        var u := rng.Next();
        point.ApplyForce(GenerateForce(forces[j], u));
        ghost var before := Generated(forces[..j], rng.tape, k);
        assert Generated(forces[..j + 1], rng.tape, k) == before + [GenerateForce(forces[j], u)];
        assert (before + [GenerateForce(forces[j], u)])[..j] == before;
        j := j + 1;
      }
      assert forces[..j] == forces;
    }

    /** simulate(): simulationTime + 1 ticks of StepsPerSecond micro-steps.
        With VTK output on, the history is cleared and receives a copy of
        the points after each tick; with a file name as well, each tick's
        snapshot is written and, at the end, the whole history again
        together with the collection file. */
    method Simulate(update: (PointState, real) -> PointState) returns (written: seq<VtpFile>, manifest: Option<Manifest>)
      requires params.enableVTKOutput ==> params.simulationTime >= -1  // reserve(simulationTime + 1)
      modifies this
      ensures params == old(params) && forces == old(forces)
      ensures points == Ticks(old(points), update, TickCount(params.simulationTime))
      ensures pointsHistory == if params.enableVTKOutput
        then History(old(points), update, TickCount(params.simulationTime))
        else old(pointsHistory)
      ensures params.enableVTKOutput && params.vtkOutputFile != "" ==>
        written == Snapshots(pointsHistory, params.vtkOutputFile) + Snapshots(pointsHistory, params.vtkOutputFile) &&
        manifest == Some(Collection(params.vtkOutputFile, |pointsHistory|))
      ensures !(params.enableVTKOutput && params.vtkOutputFile != "") ==> written == [] && manifest == None
    {
      var vtk := params.enableVTKOutput;
      var writeFiles := params.enableVTKOutput && params.vtkOutputFile != "";
      ghost var p, initial, before := params, points, pointsHistory;
      if vtk {
        pointsHistory := [];
      }
      written := [];
      manifest := None;
      var t := 0;
      while t <= params.simulationTime
        invariant 0 <= t <= TickCount(p.simulationTime)
        invariant params == p && forces == old(forces)
        invariant points == Ticks(initial, update, t)
        invariant pointsHistory == if vtk then History(initial, update, t) else before
        invariant written == if writeFiles then Snapshots(pointsHistory, p.vtkOutputFile) else []
      {
        var files := TickAndRecord(update, t);
        HistoryStep(initial, update, t);
        if writeFiles {
          SnapshotsStep(History(initial, update, t), Ticks(initial, update, t + 1), p.vtkOutputFile);
        }
        written := written + files;
        t := t + 1;
      }
      if writeFiles {
        var files, m := WriteTimeSeriesPoints(pointsHistory, params.vtkOutputFile);
        written := written + files;
        manifest := Some(m);
      }
    }

    /** One pass of the tick loop: a tick, the copy into the history when
        VTK output is on, and the snapshot of time step t when a file name
        is set as well. */
    method TickAndRecord(update: (PointState, real) -> PointState, t: int) returns (files: seq<VtpFile>)
      modifies this
      ensures params == old(params) && forces == old(forces)
      ensures points == Tick(old(points), update)
      ensures pointsHistory == if params.enableVTKOutput then old(pointsHistory) + [points] else old(pointsHistory)
      ensures files == if params.enableVTKOutput && params.vtkOutputFile != ""
        then [Snapshot(points, params.vtkOutputFile, t)] else []
    {
      RunTick(update);
      if params.enableVTKOutput {
        pointsHistory := pointsHistory + [points];
      }
      files := [];
      if params.enableVTKOutput && params.vtkOutputFile != "" {
        var file := WritePoints(points, params.vtkOutputFile, t);
        files := [file];
      }
    }

    /** The body of the tick loop: StepsPerSecond micro-steps. */
    method RunTick(update: (PointState, real) -> PointState)
      modifies this
      ensures points == Tick(old(points), update)
      ensures params == old(params) && forces == old(forces) && pointsHistory == old(pointsHistory)
    {
      var step := 0;
      while step < StepsPerSecond
        invariant 0 <= step <= StepsPerSecond
        invariant points == MicroSteps(old(points), update, step)
        invariant params == old(params) && forces == old(forces) && pointsHistory == old(pointsHistory)
      {
        UpdateAll(update);
        step := step + 1;
      }
    }

    /** One micro-step: points[i].update(dt) for every i, in order. */
    method UpdateAll(update: (PointState, real) -> PointState)
      modifies this
      ensures points == StepAll(old(points), update)
      ensures params == old(params) && forces == old(forces) && pointsHistory == old(pointsHistory)
    {
      ghost var before := points;
      var i := 0;
      while i < |points|
        invariant 0 <= i <= |points| == |before|
        invariant forall j :: 0 <= j < i ==> points[j] == update(before[j], Dt)
        invariant forall j :: i <= j < |points| ==> points[j] == before[j]
        invariant params == old(params) && forces == old(forces) && pointsHistory == old(pointsHistory)
      {
        points := points[i := update(points[i], Dt)];
        i := i + 1;
      }
      assert points == StepAll(before, update);
    }
  }
}
