/**
 * The random source of Simulator.cpp and Force.cpp.  The engine (std::mt19937
 * seeded from std::random_device) is modelled as a tape of canonical samples
 * in [0, 1), one sample consumed per distribution call, and
 * std::uniform_real_distribution<double>(a, b) maps a sample u to
 * a + (b - a) * u.
 */
module Random {

  /** Every sample on the tape is a canonical sample: it lies in [0, 1). */
  ghost predicate IsCanonicalTape(tape: nat -> real) {
    forall k: nat :: 0.0 <= tape(k) < 1.0
  }

  /** uniform_real_distribution(a, b) applied to the canonical sample u. */
  function Uniform(a: real, b: real, u: real): real {
    a + (b - a) * u
  }

  /** r lies between the bounds of a draw over [lo, hi]. */
  predicate InClosedRange(r: real, lo: real, hi: real) {
    lo <= r <= hi
  }

  lemma ProductBounds(d: real, u: real)
    requires d >= 0.0 && 0.0 <= u < 1.0
    ensures 0.0 <= d * u <= d
    ensures d > 0.0 ==> d * u < d
  {
    calc {
      d * u;
    <=
      d * 1.0;
    }
    calc {
      d * u;
    >=
      d * 0.0;
    }
    if d > 0.0 {
      calc {
        d * u;
      <
        d * 1.0;
      }
    }
  }

  /** A draw over [a, b] with a <= b lands in [a, b], and below b when the
      interval is not degenerate, as uniform_real_distribution promises. */
  lemma UniformInRange(a: real, b: real, u: real)
    requires a <= b && 0.0 <= u < 1.0
    ensures InClosedRange(Uniform(a, b, u), a, b)
    ensures a < b ==> Uniform(a, b, u) < b
  {
    var d := b - a;
    var p := d * u;
    ProductBounds(d, u);
    assert 0.0 <= p <= d;
    assert d > 0.0 ==> p < d;
  }

  /** A draw over the degenerate interval [a, a] yields a whatever the sample. */
  lemma UniformDegenerate(a: real, u: real)
    ensures Uniform(a, a, u) == a
  {
  }
}
