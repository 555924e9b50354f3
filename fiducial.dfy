/** survis/fiducial.py: the surface density of each species in a shell of
    radius R and half-width dR, counted over the particles' 3D radii. Radii
    are compared through their squares, so no square root is taken. */
module Fiducial {
  import opened Results
  import opened Preprocess
  import opened Toomre

  /** The squared distance of a particle from the origin. */
  function SqRadius(p: Particle): (s: real)
    ensures s >= 0.0
  {
    p.x * p.x + p.y * p.y + p.z * p.z
  }

  /** A radius whose square is `s` is at least `a`. */
  predicate RadiusAtLeast(s: real, a: real)
  {
    a <= 0.0 || a * a <= s
  }

  /** A radius whose square is `s` is at most `b`. */
  predicate RadiusAtMost(s: real, b: real)
  {
    0.0 <= b && s <= b * b
  }

  /** The particle is not masked: its radius minus R is neither below -dR
      nor above dR. */
  predicate InShell(p: Particle, R: real, dR: real)
    // a counted radius is non-negative, so the band must reach 0 ...
    ensures InShell(p, R, dR) ==> R + dR >= 0.0
    // ... and a negative dR leaves the band empty
    ensures dR < 0.0 ==> !InShell(p, R, dR)
  {
    var s, a, b := SqRadius(p), R - dR, R + dR;
    assert dR < 0.0 && RadiusAtMost(s, b) ==> !RadiusAtLeast(s, a) by {
      if dR < 0.0 && RadiusAtMost(s, b) {
        SquareLess(b, a);
      }
    }
    RadiusAtLeast(s, a) && RadiusAtMost(s, b)
  }

  lemma SquareLess(x: real, y: real)
    requires 0.0 <= x < y
    ensures x * x < y * y
  {
    var xx, xy, yy := x * x, x * y, y * y;
    assert xx <= xy;
    assert xy < yy;
  }

  /** Squaring keeps the order of non-negative numbers. */
  lemma SquareOrder(a: real, b: real)
    requires 0.0 <= a && 0.0 <= b
    ensures a <= b <==> a * a <= b * b
  {
    if a <= b {
      assert a * a <= a * b <= b * b;
    } else {
      SquareLess(b, a);
    }
  }

  /** With r the particle's radius, InShell is the closed band
      R - dR <= r <= R + dR. */
  lemma InShellIffBand(p: Particle, R: real, dR: real, r: real)
    requires r >= 0.0 && r * r == SqRadius(p)
    ensures InShell(p, R, dR) <==> R - dR <= r <= R + dR
  {
    var a, b := R - dR, R + dR;
    if a > 0.0 {
      SquareOrder(a, r);
    }
    if b >= 0.0 {
      SquareOrder(r, b);
    }
  }

  /** Widening the band [a1, b1] to [a2, b2] keeps every radius in it. */
  lemma BandWidens(s: real, a1: real, a2: real, b1: real, b2: real)
    requires a2 <= a1 && b1 <= b2
    requires RadiusAtLeast(s, a1) && RadiusAtMost(s, b1)
    ensures RadiusAtLeast(s, a2) && RadiusAtMost(s, b2)
  { }

  /** A wider shell keeps every particle of a narrower one. */
  lemma InShellMonotone(p: Particle, R: real, dR1: real, dR2: real)
    requires dR1 <= dR2
    requires InShell(p, R, dR1)
    ensures InShell(p, R, dR2)
  {
    BandWidens(SqRadius(p), R - dR1, R - dR2, R + dR1, R + dR2);
  }

  /** `within_bounds.count()`: the number of particles in the shell. */
  function ShellCount(ps: seq<Particle>, R: real, dR: real): (n: nat)
    ensures n <= |ps|
  {
    if ps == [] then 0
    else (if InShell(ps[0], R, dR) then 1 else 0) + ShellCount(ps[1..], R, dR)
  }

  /** The count grows with dR. */
  lemma {:induction false} ShellCountMonotone(ps: seq<Particle>, R: real, dR1: real, dR2: real)
    requires dR1 <= dR2
    ensures ShellCount(ps, R, dR1) <= ShellCount(ps, R, dR2)
  {
    if ps != [] {
      if InShell(ps[0], R, dR1) {
        InShellMonotone(ps[0], R, dR1, dR2);
      }
      ShellCountMonotone(ps[1..], R, dR1, dR2);
    }
  }

  /** The area `4 pi R dR`; it is zero exactly for a zero radius or width. */
  function AreaEnclosed(R: real, dR: real): (a: real)
    ensures a == 0.0 <==> R == 0.0 || dR == 0.0
  {
    assert R * dR == 0.0 <==> R == 0.0 || dR == 0.0 by {
      if R != 0.0 && dR != 0.0 {
        assert R * dR != 0.0;
      }
    }
    4.0 * Pi * R * dR
  }

  /** `4 pi R dR` is the area of the annulus between R - dR and R + dR. */
  lemma AreaIsAnnulus(R: real, dR: real)
    ensures AreaEnclosed(R, dR) == Pi * ((R + dR) * (R + dR) - (R - dR) * (R - dR))
  {
  }

  /** sd_per_type: the mass in the shell over the shell's area. A zero area
      gives no number (numpy's inf or nan), which is None here. */
  function SdPerType(ps: seq<Particle>, mass: real, R: real, dR: real): (sd: Option<real>)
    ensures sd.None? <==> R == 0.0 || dR == 0.0
    ensures sd.Some? ==> sd.value * AreaEnclosed(R, dR) == ShellCount(ps, R, dR) as real * mass
    ensures sd.Some? && ShellCount(ps, R, dR) == 0 ==> sd.value == 0.0
  {
    var area := AreaEnclosed(R, dR);
    if area == 0.0 then None
    else Some((ShellCount(ps, R, dR) as real * mass) / area)
  }

  /** For a positive radius, width and particle mass the surface density is
      defined and non-negative. */
  lemma SdPerTypeNonNegative(ps: seq<Particle>, mass: real, R: real, dR: real)
    requires R > 0.0 && dR > 0.0 && mass >= 0.0
    ensures SdPerType(ps, mass, R, dR).Some? && SdPerType(ps, mass, R, dR).value >= 0.0
  {
  }

  /** surface_density: `[sd_gas, sd_star]`, each species with its own
      particle mass. */
  function SurfaceDensity(dg: DataGrid, R: real, dR: real): (r: Option<seq<real>>)
    ensures r.None? <==> R == 0.0 || dR == 0.0
    ensures r.Some? ==>
      && |r.value| == 2
      && SdPerType(dg.gas, dg.gasMass, R, dR) == Some(r.value[0])
      && SdPerType(dg.star, dg.starMass, R, dR) == Some(r.value[1])
  {
    var sdGas := SdPerType(dg.gas, dg.gasMass, R, dR);
    var sdStar := SdPerType(dg.star, dg.starMass, R, dR);
    if sdGas.None? then None
    else
      assert sdStar.Some?;
      Some([sdGas.value, sdStar.value])
  }
}
