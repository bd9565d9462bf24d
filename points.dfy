/**
 * Point.h and Point.cpp: a point mass with position, velocity, the velocity
 * it started with, an accumulated acceleration and a friction coefficient.
 * `Point` is the object whose methods update its fields; `PointState` is the
 * value a std::vector<Point> holds (copies of points).
 */
module Points {
  import opened Vectors

  datatype PointState = PointState(
    position: Vector3D,
    velocity: Vector3D,
    initialVelocity: Vector3D,
    acceleration: Vector3D,
    frictionCoefficient: real)

  /** The state of Point(): friction 0 and every vector (0, 0, 0). */
  function DefaultState(): PointState {
    PointState(Zero(), Zero(), Zero(), Zero(), 0.0)
  }

  /** The acceleration used by updatePosition: the accumulated acceleration
      plus the friction term -frictionCoefficient * velocity. */
  function TotalAcceleration(s: PointState): Vector3D {
    Add(s.acceleration, Scale(s.velocity, -s.frictionCoefficient))
  }

  /** The state after updatePosition(time): constant-acceleration motion
      restarted from initialVelocity, with the total acceleration taken from
      the velocity before the call. */
  function Advanced(s: PointState, time: real): PointState {
    var a := TotalAcceleration(s);
    s.(position := Add(Add(s.position, Scale(s.initialVelocity, time)), Scale(a, 0.5 * time * time)),
       velocity := Add(s.initialVelocity, Scale(a, time)))
  }

  /** updatePosition(0) keeps the position and resets the velocity to the
      initial velocity. */
  lemma AdvancedByZero(s: PointState)
    ensures Advanced(s, 0.0).position == s.position
    ensures Advanced(s, 0.0).velocity == s.initialVelocity
  {
  }

  /** updatePosition changes only the position and the velocity; the new
      velocity differs from the initial velocity, not the current one, by
      the total acceleration times `time`. */
  lemma AdvancedKeeps(s: PointState, time: real)
    ensures var r := Advanced(s, time);
      r.acceleration == s.acceleration && r.initialVelocity == s.initialVelocity &&
      r.frictionCoefficient == s.frictionCoefficient &&
      Sub(r.velocity, s.initialVelocity) == Scale(TotalAcceleration(s), time)
  {
  }

  /** The displacement of updatePosition(time) is the mean of the initial
      velocity and the new velocity, times `time`: the closed form is that of
      uniformly accelerated motion. */
  lemma AdvancedDisplacement(s: PointState, time: real)
    ensures Sub(Advanced(s, time).position, s.position)
         == Scale(Add(s.initialVelocity, Advanced(s, time).velocity), time / 2.0)
  {
    var a := TotalAcceleration(s);
    var v0 := s.initialVelocity;
    assert Advanced(s, time).velocity == Add(v0, Scale(a, time));
  }

  /** Without friction the velocity before the call has no influence on the
      result: the motion depends only on initialVelocity and acceleration. */
  lemma FrictionlessIgnoresVelocity(s: PointState, w: Vector3D, time: real)
    requires s.frictionCoefficient == 0.0
    ensures Advanced(s.(velocity := w), time) == Advanced(s, time)
  {
  }

  /** `acc` after `+=` of each force of `fs` in order. */
  function Accumulated(acc: Vector3D, fs: seq<Vector3D>): Vector3D
    decreases |fs|
  {
    if |fs| == 0 then acc else Add(Accumulated(acc, fs[..|fs| - 1]), fs[|fs| - 1])
  }

  /** Accumulating onto `acc` adds the sum of the forces to `acc`. */
  lemma {:induction false} AccumulatedIsSum(acc: Vector3D, fs: seq<Vector3D>)
    ensures Accumulated(acc, fs) == Add(acc, Accumulated(Zero(), fs))
    decreases |fs|
  {
    if |fs| > 0 {
      AccumulatedIsSum(acc, fs[..|fs| - 1]);
    }
  }

  /** Removing one force from anywhere in the list removes exactly its
      contribution. */
  lemma {:induction false} AccumulatedRemove(acc: Vector3D, a: seq<Vector3D>, x: Vector3D, b: seq<Vector3D>)
    ensures Accumulated(acc, a + [x] + b) == Add(Accumulated(acc, a + b), x)
    decreases |b|
  {
    if |b| == 0 {
      assert a + [x] + b == a + [x];
      assert a + b == a;
      assert (a + [x])[..|a + [x]| - 1] == a;
    } else {
      var b' := b[..|b| - 1];
      var y := b[|b| - 1];
      AccumulatedRemove(acc, a, x, b');
      assert (a + [x] + b)[..|a + [x] + b| - 1] == a + [x] + b';
      assert (a + b)[..|a + b| - 1] == a + b';
    }
  }

  /** The accumulated acceleration does not depend on the order in which the
      forces are applied. */
  lemma {:induction false} AccumulatedPermutation(acc: Vector3D, fs: seq<Vector3D>, gs: seq<Vector3D>)
    requires multiset(fs) == multiset(gs)
    ensures Accumulated(acc, fs) == Accumulated(acc, gs)
    decreases |fs|
  {
    if |fs| == 0 {
      assert |gs| == |multiset(gs)| == 0;
    } else {
      var x := fs[|fs| - 1];
      var fs' := fs[..|fs| - 1];
      assert fs == fs' + [x];
      assert x in multiset(fs);
      assert x in multiset(gs);
      var j :| 0 <= j < |gs| && gs[j] == x;
      var a, b := gs[..j], gs[j + 1..];
      assert gs == a + [x] + b;
      assert multiset(fs') == multiset(a + b) by {
        calc {
          multiset(fs') + multiset{x};
        ==
          multiset(fs);
        ==
          multiset(a + [x] + b);
        ==
          multiset(a) + multiset{x} + multiset(b);
        }
        calc {
          multiset(fs');
        ==
          multiset(fs') + multiset{x} - multiset{x};
        ==
          multiset(a) + multiset{x} + multiset(b) - multiset{x};
        ==
          multiset(a) + multiset(b);
        ==
          multiset(a + b);
        }
      }
      AccumulatedPermutation(acc, fs', a + b);
      AccumulatedRemove(acc, a, x, b);
    }
  }

  /** A zero force is a no-op. */
  lemma AccumulatedZeroForce(acc: Vector3D, fs: seq<Vector3D>)
    ensures Accumulated(acc, fs + [Zero()]) == Accumulated(acc, fs)
  {
    assert (fs + [Zero()])[..|fs|] == fs;
  }

  class Point {
    var position: Vector3D
    var velocity: Vector3D
    var initialVelocity: Vector3D
    var acceleration: Vector3D
    var frictionCoefficient: real

    /** The value a copy of this point holds. */
    function State(): PointState
      reads this
    {
      PointState(position, velocity, initialVelocity, acceleration, frictionCoefficient)
    }

    /** Point() */
    constructor Default()
      ensures State() == DefaultState()
    {
      position := Zero();
      velocity := Zero();
      initialVelocity := Zero();
      acceleration := Zero();
      frictionCoefficient := 0.0;
    }

    /** Point(pos, vel, accel, friction): vel is both the current and the
        initial velocity. */
    constructor (pos: Vector3D, vel: Vector3D, accel: Vector3D, friction: real)
      ensures State() == PointState(pos, vel, vel, accel, friction)
      ensures velocity == initialVelocity
    {
      position := pos;
      velocity := vel;
      initialVelocity := vel;
      acceleration := accel;
      frictionCoefficient := friction;
    }

    /** applyForce(force): acceleration += force; nothing else changes. */
    method ApplyForce(force: Vector3D)
      modifies this
      ensures State() == old(State()).(acceleration := Add(old(acceleration), force))
    {
      acceleration := AddAssign(acceleration, force);
    }

    /** updatePosition(time) */
    method UpdatePosition(time: real)
      modifies this
      ensures State() == Advanced(old(State()), time)
    {
      var frictionForce := Scale(velocity, -frictionCoefficient);
      var totalAcceleration := Add(acceleration, frictionForce);
      position := Add(Add(position, Scale(initialVelocity, time)), Scale(totalAcceleration, 0.5 * time * time));
      velocity := Add(initialVelocity, Scale(totalAcceleration, time));
    }
  }
}
