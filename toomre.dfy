/** The Toomre stability parameter of survis/toomre.py for the gas,
    Q = c_s kappa / (pi G Sigma), evaluated cell by cell on the grids of a
    DataGridder, with cells of zero surface density forced to 0. */
module Toomre {
  import opened Grids

  /** numpy's float pi. */
  const Pi: real := 3.141592653589793

  /** Q_gas's default gravitational constant, in kpc / Msun (km/s)^2. */
  const GravConst: real := 0.000004302

  // the isothermal equation of state of sound_speed
  const Gamma: real := 5.0 / 3.0
  const GasConstant: real := 8.314
  const MolarMass: real := 0.001
  const Temperature: real := 10000.0

  /** sqrt(gamma R T / M) in m/s, times 0.001 for km/s, as the float
      the source evaluates it to. */
  function IsothermalSpeed(): (c: real)
    ensures c > 0.0
    // c^2 is gamma R T / M converted to (km/s)^2, to within 1e-13
    ensures -0.0000000000001 < c * c - Gamma * GasConstant * Temperature / MolarMass * 0.000001 < 0.0000000000001
  {
    11.771434350437787
  }

  /** sound_speed: an array shaped like `density` holding the isothermal
      sound speed in every cell. */
  function SoundSpeed(density: Grid): (c: Grid)
    ensures SameShape(c, density)
    ensures forall i, j :: 0 <= i < |c| && 0 <= j < |c[i]| ==> c[i][j] == IsothermalSpeed()
  {
    seq(|density|, i requires 0 <= i < |density| => seq(|density[i]|, j => IsothermalSpeed()))
  }

  /** The sound speed does not depend on the density, only on its shape. */
  lemma SoundSpeedIndependent(d1: Grid, d2: Grid)
    requires SameShape(d1, d2)
    ensures SoundSpeed(d1) == SoundSpeed(d2)
  {
  }

  /** `c_s kappa / (pi G sd)` for one cell. */
  function QValue(cs: real, kappa: real, sd: real, g: real): (q: real)
    requires g != 0.0 && sd != 0.0
    ensures q * (Pi * g * sd) == cs * kappa
  {
    cs * kappa / (Pi * g * sd)
  }

  /** The Toomre parameter of one cell: 0 where the surface density is 0,
      and otherwise the Q with Q pi G Sigma = c_s kappa. */
  function QCell(cs: real, kappa: real, sd: real, g: real): (q: real)
    requires g != 0.0
    ensures sd == 0.0 ==> q == 0.0
    ensures sd != 0.0 ==> q * (Pi * g * sd) == cs * kappa
  {
    if sd == 0.0 then 0.0 else QValue(cs, kappa, sd, g)
  }

  /** A cell's Q is 0 exactly when its surface density, its sound speed or
      its kappa is 0. */
  lemma QCellZeroIff(cs: real, kappa: real, sd: real, g: real)
    requires g != 0.0
    ensures QCell(cs, kappa, sd, g) == 0.0 <==> sd == 0.0 || cs == 0.0 || kappa == 0.0
  {
  }

  /** With positive sound speed, kappa and G, a larger surface density gives
      a smaller Q: the cell is less stable. */
  lemma QCellAntitone(cs: real, kappa: real, sd1: real, sd2: real, g: real)
    requires cs > 0.0 && kappa > 0.0 && g > 0.0
    requires 0.0 < sd1 <= sd2
    ensures 0.0 < QCell(cs, kappa, sd2, g) <= QCell(cs, kappa, sd1, g)
  {
  }

  /** `surface_density + (surface_density == 0)`: 1 where the surface
      density is 0, the surface density elsewhere; never 0. */
  function SdMasked(sd: Grid): (m: Grid)
    ensures SameShape(m, sd)
    ensures forall i, j :: 0 <= i < |sd| && 0 <= j < |sd[i]| ==>
      && m[i][j] != 0.0
      && (sd[i][j] == 0.0 ==> m[i][j] == 1.0)
      && (sd[i][j] != 0.0 ==> m[i][j] == sd[i][j])
  {
    seq(|sd|, i requires 0 <= i < |sd| => seq(|sd[i]|, j requires 0 <= j < |sd[i]| =>
      sd[i][j] + (if sd[i][j] == 0.0 then 1.0 else 0.0)))
  }

  /** `(c_s * kappa) / (pi * G * sd_masked)` elementwise. */
  function QFormula(cs: Grid, kappa: Grid, sdMasked: Grid, g: real): (q: Grid)
    requires SameShape(kappa, cs) && SameShape(sdMasked, cs)
    requires g != 0.0
    requires forall i, j :: 0 <= i < |sdMasked| && 0 <= j < |sdMasked[i]| ==> sdMasked[i][j] != 0.0
    ensures SameShape(q, cs)
    ensures forall i, j :: 0 <= i < |cs| && 0 <= j < |cs[i]| ==>
      q[i][j] == QValue(cs[i][j], kappa[i][j], sdMasked[i][j], g)
  {
    seq(|cs|, i requires 0 <= i < |cs| => seq(|cs[i]|, j requires 0 <= j < |cs[i]| =>
      QValue(cs[i][j], kappa[i][j], sdMasked[i][j], g)))
  }

  /** One cell of Q_gas: the formula on the overwritten sound speed and the
      masked surface density gives QCell of the original inputs. */
  lemma MaskedCell(cs: real, csZeroed: real, kappa: real, sd: real, sdMasked: real, q: real, g: real)
    requires g != 0.0
    requires csZeroed == (if sd == 0.0 then 0.0 else cs)
    requires sdMasked == (if sd == 0.0 then 1.0 else sd)
    requires q == QValue(csZeroed, kappa, sdMasked, g)
    ensures q == QCell(cs, kappa, sd, g)
  {
  }

  /** Q_gas: the sound speed array `soundSpeed(density)` has its cells of
      zero surface density overwritten with 0, and Q is then taken against
      the masked surface density; every cell gets QCell of its inputs, so a
      cell of zero surface density gets 0 whatever the sound speed. */
  method QGas(soundSpeed: Grid -> Grid, kappa: Grid, density: Grid, surfaceDensity: Grid, g: real, rows: nat, cols: nat)
    returns (q: Grid)
    requires IsGrid(kappa, rows, cols) && IsGrid(density, rows, cols) && IsGrid(surfaceDensity, rows, cols)
    requires IsGrid(soundSpeed(density), rows, cols)
    requires g != 0.0
    ensures IsGrid(q, rows, cols)
    ensures forall i, j :: 0 <= i < rows && 0 <= j < cols ==>
      q[i][j] == QCell(soundSpeed(density)[i][j], kappa[i][j], surfaceDensity[i][j], g)
  {
    var speeds := soundSpeed(density);
    var cs := ToArray(speeds, rows, cols);
    // c_s[surface_density == 0] = 0
    forall i, j | 0 <= i < rows && 0 <= j < cols && surfaceDensity[i][j] == 0.0 {
      cs[i, j] := 0.0;
    }
    var csZeroed := ToGrid(cs);
    assert forall i, j :: 0 <= i < rows && 0 <= j < cols ==>
      csZeroed[i][j] == (if surfaceDensity[i][j] == 0.0 then 0.0 else speeds[i][j]);
    var sdMasked := SdMasked(surfaceDensity);
    q := QFormula(csZeroed, kappa, sdMasked, g);
    forall i, j | 0 <= i < rows && 0 <= j < cols
      ensures q[i][j] == QCell(speeds[i][j], kappa[i][j], surfaceDensity[i][j], g)
    {
      MaskedCell(speeds[i][j], csZeroed[i][j], kappa[i][j], surfaceDensity[i][j], sdMasked[i][j], q[i][j], g);
    }
  }
}
