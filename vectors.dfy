/**
 * Vector3D.h: a three-component vector of doubles, modelled over the reals.
 * The vector is a value; the in-place `+=` is modelled as a method that
 * updates a local copy component by component.  std::sqrt is a foreign
 * call, so the square root is a parameter whose only assumed property is
 * `IsSqrt`.
 */
module Vectors {

  datatype Vector3D = Vector3D(x: real, y: real, z: real)

  /** Vector3D(): every component 0.0. */
  function Zero(): Vector3D {
    Vector3D(0.0, 0.0, 0.0)
  }

  /** operator+ */
  function Add(a: Vector3D, b: Vector3D): Vector3D {
    Vector3D(a.x + b.x, a.y + b.y, a.z + b.z)
  }

  /** operator- */
  function Sub(a: Vector3D, b: Vector3D): Vector3D {
    Vector3D(a.x - b.x, a.y - b.y, a.z - b.z)
  }

  /** operator*(double) */
  function Scale(a: Vector3D, s: real): Vector3D {
    Vector3D(a.x * s, a.y * s, a.z * s)
  }

  /** The product of a number with itself.  Keeping squares behind this
      function keeps the solver's non-linear arithmetic out of the way. */
  function Square(a: real): real {
    a * a
  }

  /** x*x + y*y + z*z, the argument handed to std::sqrt by magnitude(). */
  function NormSquared(v: Vector3D): real {
    Square(v.x) + Square(v.y) + Square(v.z)
  }

  /** What the model assumes of std::sqrt: on non-negative arguments it
      returns the non-negative square root. */
  ghost predicate IsSqrt(sqrt: real -> real) {
    forall r {:trigger sqrt(r)} :: r >= 0.0 ==> sqrt(r) >= 0.0 && Square(sqrt(r)) == r
  }

  // ---------------------------------------------------------------------
  // Facts about real products used below.

  lemma PositiveProduct(a: real, b: real)
    requires a > 0.0 && b > 0.0
    ensures a * b > 0.0
  {
  }

  lemma NegativeProduct(a: real, b: real)
    requires a < 0.0 && b < 0.0
    ensures a * b > 0.0
  {
    PositiveProduct(0.0 - a, 0.0 - b);
    assert (0.0 - a) * (0.0 - b) == a * b;
  }

  lemma MixedProduct(a: real, b: real)
    requires a < 0.0 && b > 0.0
    ensures a * b < 0.0
  {
    PositiveProduct(0.0 - a, b);
    assert (0.0 - a) * b == 0.0 - a * b;
  }

  /** The square of a nonzero number is positive. */
  lemma SquarePositive(a: real)
    requires a != 0.0
    ensures Square(a) > 0.0
  {
    if a < 0.0 {
      calc {
        Square(a);
      ==
        a * a;
      >  { NegativeProduct(a, a); }
        0.0;
      }
    } else {
      calc {
        Square(a);
      ==
        a * a;
      >  { PositiveProduct(a, a); }
        0.0;
      }
    }
  }

  lemma SquareNonNegative(a: real)
    ensures Square(a) >= 0.0
  {
    if a != 0.0 {
      SquarePositive(a);
    }
  }

  /** A product with a positive factor is zero only if the other factor is. */
  lemma ZeroProduct(a: real, c: real)
    requires c > 0.0 && a * c == 0.0
    ensures a == 0.0
  {
    if a > 0.0 {
      PositiveProduct(a, c);
      assert false;
    } else if a < 0.0 {
      MixedProduct(a, c);
      assert false;
    }
  }

  /** The only non-negative square root of 1 is 1. */
  lemma UnitRoot(r: real)
    requires r >= 0.0 && Square(r) == 1.0
    ensures r == 1.0
  {
    calc {
      (r - 1.0) * (r + 1.0);
    ==
      Square(r) - 1.0;
    ==
      0.0;
    }
    ZeroProduct(r - 1.0, r + 1.0);
  }

  lemma SquareOfProduct(a: real, b: real)
    ensures Square(a * b) == Square(a) * Square(b)
  {
  }

  // ---------------------------------------------------------------------
  // magnitude() and normalized()

  lemma NormSquaredNonNegative(v: Vector3D)
    ensures NormSquared(v) >= 0.0
  {
    SquareNonNegative(v.x);
    SquareNonNegative(v.y);
    SquareNonNegative(v.z);
  }

  /** Only the zero vector has norm 0. */
  lemma NormSquaredPositive(v: Vector3D)
    requires v != Zero()
    ensures NormSquared(v) > 0.0
  {
    SquareNonNegative(v.x);
    SquareNonNegative(v.y);
    SquareNonNegative(v.z);
    if v.x != 0.0 {
      SquarePositive(v.x);
    } else if v.y != 0.0 {
      SquarePositive(v.y);
    } else {
      SquarePositive(v.z);
    }
  }

  /** magnitude(): the Euclidean length, i.e. the non-negative number whose
      square is x*x + y*y + z*z. */
  function Magnitude(v: Vector3D, sqrt: real -> real): (m: real)
    requires IsSqrt(sqrt)
    ensures m >= 0.0 && Square(m) == NormSquared(v)
  {
    NormSquaredNonNegative(v);
    sqrt(NormSquared(v))
  }

  /** A non-negative number whose square is 0 is 0. */
  lemma RootOfZero(m: real)
    requires m >= 0.0 && Square(m) == 0.0
    ensures m == 0.0
  {
    if m != 0.0 {
      SquarePositive(m);
      assert false;
    }
  }

  /** A non-negative number whose square is positive is positive. */
  lemma RootOfPositive(m: real, s: real)
    requires m >= 0.0 && Square(m) == s && s > 0.0
    ensures m > 0.0
  {
  }

  /** The length is positive exactly for the nonzero vectors, so the
      `mag > 0.0` test of normalized() separates the zero vector. */
  lemma MagnitudePositive(v: Vector3D, sqrt: real -> real)
    requires IsSqrt(sqrt)
    ensures Magnitude(v, sqrt) > 0.0 <==> v != Zero()
  {
    var m := Magnitude(v, sqrt);
    if v == Zero() {
      RootOfZero(m);
    } else {
      NormSquaredPositive(v);
      RootOfPositive(m, NormSquared(v));
    }
  }

  /** normalized(): each component divided by the length when the length is
      positive, otherwise the zero vector. */
  function Normalized(v: Vector3D, sqrt: real -> real): Vector3D
    requires IsSqrt(sqrt)
  {
    var mag := Magnitude(v, sqrt);
    if mag > 0.0 then Vector3D(v.x / mag, v.y / mag, v.z / mag) else Zero()
  }

  /** The zero vector normalises to the zero vector. */
  lemma NormalizedZero(sqrt: real -> real)
    requires IsSqrt(sqrt)
    ensures Normalized(Zero(), sqrt) == Zero()
  {
    MagnitudePositive(Zero(), sqrt);
  }

  /** A nonzero vector is its normalization stretched by its length: the
      direction is kept and the length moves entirely into the scale. */
  lemma NormalizedScalesBack(v: Vector3D, sqrt: real -> real)
    requires IsSqrt(sqrt) && v != Zero()
    ensures Scale(Normalized(v, sqrt), Magnitude(v, sqrt)) == v
  {
    MagnitudePositive(v, sqrt);
  }

  /** The normalization of a nonzero vector has length 1. */
  lemma NormalizedIsUnit(v: Vector3D, sqrt: real -> real)
    requires IsSqrt(sqrt) && v != Zero()
    ensures NormSquared(Normalized(v, sqrt)) == 1.0
    ensures Magnitude(Normalized(v, sqrt), sqrt) == 1.0
  {
    var m := Magnitude(v, sqrt);
    var n := Normalized(v, sqrt);
    NormalizedScalesBack(v, sqrt);
    NormSquaredPositive(v);
    var k := Square(m);
    SquareOfProduct(n.x, m);
    SquareOfProduct(n.y, m);
    SquareOfProduct(n.z, m);
    calc {
      (NormSquared(n) - 1.0) * k;
    ==
      Square(n.x) * k + Square(n.y) * k + Square(n.z) * k - k;
    ==
      Square(n.x * m) + Square(n.y * m) + Square(n.z * m) - k;
    ==
      NormSquared(v) - k;
    ==
      0.0;
    }
    ZeroProduct(NormSquared(n) - 1.0, k);
    UnitRoot(Magnitude(n, sqrt));
  }

  /** normalized() is idempotent, so normalising a direction that is
      already normalised leaves it unchanged. */
  lemma NormalizedIdempotent(v: Vector3D, sqrt: real -> real)
    requires IsSqrt(sqrt)
    ensures Normalized(Normalized(v, sqrt), sqrt) == Normalized(v, sqrt)
  {
    if v == Zero() {
      NormalizedZero(sqrt);
    } else {
      NormalizedIsUnit(v, sqrt);
    }
  }

  // ---------------------------------------------------------------------
  // Algebra of + , - and * used by the point kinematics.

  lemma AddLaws(a: Vector3D, b: Vector3D, c: Vector3D)
    ensures Add(a, Zero()) == a && Add(Zero(), a) == a
    ensures Add(a, b) == Add(b, a)
    ensures Add(Add(a, b), c) == Add(a, Add(b, c))
    ensures Sub(Add(a, b), b) == a
  {
  }

  lemma ScaleLaws(a: Vector3D, b: Vector3D, s: real, t: real)
    ensures Scale(a, 0.0) == Zero() && Scale(a, 1.0) == a
    ensures Scale(Add(a, b), s) == Add(Scale(a, s), Scale(b, s))
    ensures Scale(a, s + t) == Add(Scale(a, s), Scale(a, t))
    ensures Scale(Scale(a, s), t) == Scale(a, s * t)
  {
  }

  /** operator+=: adds `other` into `self` one component at a time.  The
      in-place update agrees with operator+. */
  method AddAssign(self: Vector3D, other: Vector3D) returns (updated: Vector3D)
    ensures updated == Add(self, other)
    ensures Sub(updated, other) == self
  {
    updated := self;
    updated := updated.(x := updated.x + other.x);
    updated := updated.(y := updated.y + other.y);
    updated := updated.(z := updated.z + other.z);
  }
}
