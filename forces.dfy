/**
 * Force.h and Force.cpp: a force is a direction (normalised on construction)
 * and a magnitude range; generateForce() draws a magnitude from the range and
 * scales the direction by it.
 */
module Forces {
  import opened Vectors
  import opened Random

  datatype Force = Force(direction: Vector3D, minMagnitude: real, maxMagnitude: real)

  /** Force(): direction (0, 0, 0) and both magnitudes 0. */
  function DefaultForce(): Force {
    Force(Zero(), 0.0, 0.0)
  }

  /** Force(dir, minMag, maxMag): stores dir.normalized() and the two
      magnitudes as given, without checking minMag <= maxMag. */
  function MakeForce(dir: Vector3D, minMag: real, maxMag: real, sqrt: real -> real): Force
    requires IsSqrt(sqrt)
  {
    Force(Normalized(dir, sqrt), minMag, maxMag)
  }

  /** The constructed force keeps the magnitudes verbatim, and its direction
      is the zero vector for a zero `dir` and otherwise the unit vector that
      `dir` is a positive multiple of. */
  lemma MakeForceDirection(dir: Vector3D, minMag: real, maxMag: real, sqrt: real -> real)
    requires IsSqrt(sqrt)
    ensures MakeForce(dir, minMag, maxMag, sqrt).minMagnitude == minMag
    ensures MakeForce(dir, minMag, maxMag, sqrt).maxMagnitude == maxMag
    ensures dir == Zero() ==> MakeForce(dir, minMag, maxMag, sqrt).direction == Zero()
    ensures dir != Zero() ==> Magnitude(MakeForce(dir, minMag, maxMag, sqrt).direction, sqrt) == 1.0
    ensures dir != Zero() ==>
      Scale(MakeForce(dir, minMag, maxMag, sqrt).direction, Magnitude(dir, sqrt)) == dir
  {
    if dir == Zero() {
      NormalizedZero(sqrt);
    } else {
      NormalizedIsUnit(dir, sqrt);
      NormalizedScalesBack(dir, sqrt);
    }
  }

  /** v is a possible result of generateForce() on f: the direction scaled by
      a magnitude between minMagnitude and maxMagnitude. */
  ghost predicate IsDrawOf(f: Force, v: Vector3D) {
    exists m: real {:trigger Scale(f.direction, m)} ::
      InClosedRange(m, f.minMagnitude, f.maxMagnitude) && v == Scale(f.direction, m)
  }

  /** generateForce(): the magnitude is the draw of
      uniform_real_distribution(minMagnitude, maxMagnitude) on the sample u. */
  function GenerateForce(f: Force, u: real): Vector3D {
    Scale(f.direction, Uniform(f.minMagnitude, f.maxMagnitude, u))
  }

  /** With a well-formed range, every generated force is a draw of f. */
  lemma GenerateForceIsDraw(f: Force, u: real)
    requires f.minMagnitude <= f.maxMagnitude && 0.0 <= u < 1.0
    ensures IsDrawOf(f, GenerateForce(f, u))
  {
    var m := Uniform(f.minMagnitude, f.maxMagnitude, u);
    UniformInRange(f.minMagnitude, f.maxMagnitude, u);
    assert InClosedRange(m, f.minMagnitude, f.maxMagnitude) && GenerateForce(f, u) == Scale(f.direction, m);
  }

  /** A force with a zero direction, such as Force(), generates the zero
      vector whatever magnitude is drawn. */
  lemma GenerateForceZeroDirection(f: Force, u: real)
    requires f.direction == Zero()
    ensures GenerateForce(f, u) == Zero()
  {
  }

  /** With minMagnitude == maxMagnitude the draw is fixed. */
  lemma GenerateForceFixedMagnitude(f: Force, u: real)
    requires f.minMagnitude == f.maxMagnitude
    ensures GenerateForce(f, u) == Scale(f.direction, f.minMagnitude)
  {
    UniformDegenerate(f.minMagnitude, u);
  }
}
