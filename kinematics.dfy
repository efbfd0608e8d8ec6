// Kinetic energy of a generator particle from its four-momentum.
module Kinematics {

  /** Squared length of the three-momentum. */
  function P2(px: real, py: real, pz: real): real {
    px * px + py * py + pz * pz
  }

  /** m is the rest mass of the four-momentum (px, py, pz, E): the non-negative root of E^2 - |p|^2.
      There is no square root over the reals in the model, so the root is supplied with the
      particle and this predicate pins it down (see RestMassUnique). */
  predicate IsRestMass(m: real, px: real, py: real, pz: real, e: real) {
    m >= 0.0 && m * m == e * e - P2(px, py, pz)
  }

  /** KE = (E - m) * 1000: GeV in, MeV out. */
  function CalculateKE(px: real, py: real, pz: real, e: real, mass: real): (ke: real)
    requires IsRestMass(mass, px, py, pz, e)
    ensures (e - ke / 1000.0) * (e - ke / 1000.0) == e * e - P2(px, py, pz)
    ensures ke <= 1000.0 * e
  {
    (e - mass) * 1000.0
  }

  /** At most one value can be the rest mass, so the kinetic energy is a function of the four-momentum. */
  lemma RestMassUnique(m1: real, m2: real, px: real, py: real, pz: real, e: real)
    requires IsRestMass(m1, px, py, pz, e) && IsRestMass(m2, px, py, pz, e)
    ensures m1 == m2
  {
    assert (m1 - m2) * (m1 + m2) == m1 * m1 - m2 * m2 == 0.0;
    if m1 + m2 == 0.0 {
      assert m1 == 0.0 && m2 == 0.0;
    } else {
      assert m1 + m2 > 0.0;
    }
  }

  /** A particle at rest with non-negative energy has zero kinetic energy. */
  lemma KEAtRest(e: real, mass: real)
    requires e >= 0.0 && IsRestMass(mass, 0.0, 0.0, 0.0, e)
    ensures CalculateKE(0.0, 0.0, 0.0, e, mass) == 0.0
  {
    RestMassUnique(mass, e, 0.0, 0.0, 0.0, e);
  }

  /** For a physical four-momentum (E >= 0, E^2 >= |p|^2) the kinetic energy lies in [0, 1000 E]. */
  lemma KEBounds(px: real, py: real, pz: real, e: real, mass: real)
    requires e >= 0.0 && IsRestMass(mass, px, py, pz, e)
    ensures 0.0 <= CalculateKE(px, py, pz, e, mass) <= 1000.0 * e
  {
    assert P2(px, py, pz) >= 0.0;
    if mass > e {
      SquareMonotone(mass, e);
    }
  }

  /** Squaring is strictly monotone on the non-negative reals. */
  lemma SquareMonotone(a: real, b: real)
    requires 0.0 <= b < a
    ensures b * b < a * a
  {
    ProductPositive(a - b, a + b);
    assert (a - b) * (a + b) == a * a - b * b;
  }

  lemma ProductPositive(x: real, y: real)
    requires x > 0.0 && y > 0.0
    ensures x * y > 0.0
  {
  }

  /** A space-like four-momentum (|p| > E) has no rest mass: the original's square root yields NaN here. */
  lemma NoRestMassWhenSpaceLike(px: real, py: real, pz: real, e: real, m: real)
    requires e * e < P2(px, py, pz)
    ensures !IsRestMass(m, px, py, pz, e)
  {
    assert m * m >= 0.0;
  }
}
