# SurVis core, modelled in Dafny

SurVis turns the particles of a galaxy simulation snapshot into grids. A
`DataGridder` bins the gas and the stars of a snapshot into a
`binsx` x `binsy` grid over a bounding box. Each cell gets a mass, a mean
speed and, for the gas, a mean density. The Toomre stability parameter
Q = c_s kappa / (pi G Sigma) is then evaluated cell by cell, with a
pluggable sound-speed function, and masked where it is 0. A fiducial-radius
extractor gives the surface density of each species in a spherical shell,
and a small helper turns a smoothing length into a grid resolution.

The project has six modules, one file each:

- `Results` (`results.dfy`): the `Option` and `Result` types.
- `Grids` (`grids.dfy`): numpy 2D float arrays. Values are `seq<seq<real>>`
  and arrays written in place are `array2<real>`. The module also holds the
  whole-array operations the core uses (`+=`, `a[a == 0] = x`, `*`, `+`,
  `/`) and `np.sum` as `Total`.
- `Preprocess` (`preprocess.dfy`): `bin_hydro`, `bin_nohydro`, `bin_data`,
  the `DataGridder` constructor without its file reading, and `mean_grid`.
- `Toomre` (`toomre.dfy`): `sound_speed` and `Q_gas`.
- `Helper` (`helper.dfy`): `get_res`, as written and corrected, and
  `get_toomre_Q`.
- `Fiducial` (`fiducial.dfy`): `surface_density` and `sd_per_type`.

The binning loops and `bin_data` are imperative methods over arrays. Each is
proved against reference functions:

- `CellCount` is the number of particles of a cell.
- `CellSum` is the sum of a per-particle value over a cell.
- `AcceptedCount` is the number of particles numpy does not reject.
- `Binning` is the dictionary `bin_data` returns, wrapped negative indices
  included; `BinningCorrected` is the one it is meant to return.

Numpy's indexing is modelled exactly: an index `b` with `-n <= b < n` is
accepted and addresses `b mod n`, and any other index raises `IndexError`
before anything is written. `zip` stops at its shortest argument. Floats
are modelled as exact reals.

Where the docs and the code disagree, the model follows the code:

- Masking of the Toomre map. The docstring of `get_toomre_Q`
  (survis/helper.py:21-22) says it masks the regions with no particles. The
  code masks wherever Q is 0 (survis/helper.py:34). So it also masks cells
  whose gas speed is 0, which includes every cell without gas, and cells
  whose sound speed is 0 (`Helper.GetToomreQ`).
- The fiducial shell. The docstring of `surface_density`
  (survis/fiducial.py:6-7) says it finds the particles between `R - dR/2`
  and `R + dR/2`. The code counts the closed band `[R - dR, R + dR]`
  (survis/fiducial.py:13-17) and divides by `4 pi R dR`, which is the
  area of that band's annulus (`Fiducial.AreaIsAnnulus`).
- Out-of-range particles. The comment at survis/preprocess.py:78 says a
  particle out of range is ignored. numpy accepts negative indices, so a
  particle up to one box width below `xmin` or `ymin` is wrapped to the far
  edge and counted (see "## Findings").

## Model

| member | source | states |
|---|---|---|
| Preprocess.ConfigError | survis/preprocess.py:106-122 | bin_data fails exactly for a negative shape (np.zeros) or a zero bin count (division by zero); the model also fails for a zero-width box axis, where numpy casts inf or nan to int instead of raising; otherwise the configuration is usable |
| Preprocess.Wrap | survis/preprocess.py:73-79 | an index numpy accepts addresses position `b mod n`, inside the axis |
| Preprocess.ParticleStep | survis/preprocess.py:72-79 | a rejected particle changes no cell; an accepted one adds 1 to the count and its value to the sum of the cell `(bx mod nbx, by mod nby)` and of no other cell |
| Preprocess.EmptyCellSumsToZero | survis/preprocess.py:72-79 | a cell with no particles has a zero sum |
| Preprocess.CountConservation | survis/preprocess.py:72-81 | the counts of all cells add up to the number of accepted particles, which is at most the number of particles |
| Preprocess.BinHydro | survis/preprocess.py:67-81 | fresh zeroed arrays end with, per cell, the sum of speeds, the count and the sum of densities over the accepted particles of the zip; the counts total the accepted particles, at most the zip length |
| Preprocess.BinNoHydro | survis/preprocess.py:84-96 | the same without densities |
| Preprocess.BinIndexInRange | survis/preprocess.py:117-122 | for a positive bin count and `min < max`, `floor((c - min)/binsize)` lies in `[0, bins)` exactly when the coordinate lies in `[min, max)` |
| Preprocess.BinnedX | survis/preprocess.py:118-122 | one x cell index per particle; for `xmin < xmax` it lies in `[0, binsx)` exactly for the particles with `xmin <= x < xmax` |
| Preprocess.BinnedY | survis/preprocess.py:118-122 | one y cell index per particle; for `ymin < ymax` it lies in `[0, binsy)` exactly for the particles with `ymin <= y < ymax` |
| Preprocess.CellMasses | survis/preprocess.py:144 | every cell mass is the cell's count times the particle mass |
| Preprocess.CellMeans | survis/preprocess.py:147-151 | every cell holds the mean of its particles' values, and 0 for an empty cell |
| Preprocess.GuardedMeans | survis/preprocess.py:146-151 | dividing the sums by the counts after zero counts were replaced by 1 gives exactly the cell means, 0 for empty cells |
| Preprocess.GuardedDivide | survis/preprocess.py:148-151 | `sums / n_arr` on the guarded counts returns the cell means |
| Preprocess.Accumulate | survis/preprocess.py:132-141 | after the `+=` of the binning arrays into the zeroed arrays, every cell holds its speed sum, count and (hydro) density sum; without hydro the density array is untouched |
| Preprocess.Summarize | survis/preprocess.py:143-157 | from the summed arrays, masses taken before the zero guard and guarded means give the reference dictionary; afterwards `n_arr` holds each cell's count, with 1 in place of a zero count |
| Preprocess.BinData | survis/preprocess.py:99-162 | fails exactly when the configuration is unusable, with that error; otherwise returns the reference binning of the species |
| Preprocess.BinningEntries | survis/preprocess.py:143-157 | the dictionary's masses, velocities and (hydro) densities are the reference cell masses and means |
| Preprocess.BinningKeys | survis/preprocess.py:153-157 | the keys are 'masses' and 'velocities', plus 'densities' exactly for the hydro species, and every entry has shape `(binsx, binsy)` |
| Preprocess.MassConservation | survis/preprocess.py:144 | the masses total the particle mass times the number of accepted particles |
| Preprocess.BinnedMassConservation | survis/preprocess.py:117-144 | the total binned mass of a species is the particle mass times the number of its particles whose cell indices numpy accepts (inside the box, or up to one box width below `xmin`/`ymin` and wrapped), which is at most the number of particles |
| Preprocess.InBoxIndices | survis/preprocess.py:117-122 | for a box with `xmin < xmax` and `ymin < ymax`, both cell indices of a particle lie in `[0, bins)` exactly when the particle lies in the half-open box |
| Preprocess.InBoxAccepted | survis/preprocess.py:72-79 | as written, every particle inside the box is accepted, so the accepted particles are at least those in the box |
| Preprocess.InRangeOnly | survis/preprocess.py:78 | corrected indices: numpy accepts an index exactly when the original lies in `[0, n)`, and such an index is kept as it is |
| Preprocess.BinningCorrected | survis/preprocess.py:72-79 | the intended dictionary has the same keys as the one the code returns, and equals it whenever no particle's index is out of `[0, bins)` |
| Preprocess.CorrectedAcceptsInBox | survis/preprocess.py:72-79 | with the corrected indices, the accepted particles are exactly the particles inside the box |
| Preprocess.BinningOfMassTotal | survis/preprocess.py:143-144 | the 'masses' entry of a binning totals the particle mass times the number of accepted particles |
| Preprocess.CorrectedMassConservation | survis/preprocess.py:72-144 | corrected, the total binned mass is the particle mass times the number of particles inside the box |
| Preprocess.WrapCounterexample | survis/preprocess.py:72-79 | on a 1 x 1 grid over the unit box, a particle at x = -0.5 gets index -1 and adds its mass 2.0 to the total as written; corrected the total is 0 |
| Preprocess.EmptyCellIsZero | survis/preprocess.py:144-151 | a cell mass is a whole multiple of the particle mass; an empty cell has zero mass, speed and (hydro) density; with a positive particle mass, zero mass means an empty cell |
| Preprocess.NewDataGrid | survis/preprocess.py:13-31 | the constructor fails exactly for an unusable configuration; otherwise gas is binned with densities and stars without, and all four grids the Toomre map reads exist with the grid's shape |
| Preprocess.MeanGrid | survis/preprocess.py:61-64 | one entry per list; entry i times the length of list i is its sum, and an empty list gives 0 |
| Preprocess.SumBounds | survis/preprocess.py:64 | a list of values in `[lo, hi]` sums to between `lo` and `hi` times its length |
| Preprocess.MeanGridWithinBounds | survis/preprocess.py:61-64 | the mean of a non-empty list lies between any lower and upper bound of its values |
| Grids.Zeros | survis/preprocess.py:68-70 | `np.zeros((rows, cols))`, as also at lines 85-86, 107-108 and 114: a fresh array of shape (rows, cols) with 0 in every cell |
| Preprocess.DepositHydro | survis/preprocess.py:73-79 | arrays holding the per-cell speed sum, count and density sum of the first k particles end holding those of the first k+1; a particle whose index pair numpy rejects writes nothing |
| Preprocess.Deposit | survis/preprocess.py:89-94 | arrays holding the per-cell speed sum and count of the first k particles end holding those of the first k+1; a particle whose index pair numpy rejects writes nothing |
| Grids.AddInto | survis/preprocess.py:135-141 | `a += b`: every cell gains the matching cell of `b` |
| Grids.ReplaceZeros | survis/preprocess.py:147 | `n_arr[n_arr == 0] = 1`: zero cells become 1, the others keep their value |
| Toomre.IsothermalSpeed | survis/toomre.py:7-12 | the isothermal sound speed is positive and its square is `gamma R T / M` in (km/s)^2, to within 1e-13 |
| Toomre.SoundSpeed | survis/toomre.py:4-12 | an array shaped like the density with the isothermal speed in every cell |
| Toomre.SoundSpeedIndependent | survis/toomre.py:11-12 | the sound speed depends only on the shape of the density, not on its values |
| Toomre.QValue | survis/toomre.py:30 | the cell value `c_s kappa / (pi G sd)` satisfies `Q pi G sd = c_s kappa` |
| Toomre.QCell | survis/toomre.py:24-30 | a cell of zero surface density gets Q = 0 whatever the sound speed and kappa; elsewhere Q pi G Sigma = c_s kappa |
| Toomre.QCellZeroIff | survis/toomre.py:27-30 | Q is 0 exactly when the surface density, the sound speed or kappa is 0 |
| Toomre.QCellAntitone | survis/toomre.py:30 | for positive c_s, kappa and G, Q is positive and does not grow with the surface density |
| Toomre.SdMasked | survis/toomre.py:28 | the masked surface density is never 0: it is 1 where the surface density is 0 and the surface density elsewhere |
| Toomre.QFormula | survis/toomre.py:30 | the elementwise quotient is defined because the divisor never has a zero cell |
| Toomre.MaskedCell | survis/toomre.py:26-30 | the formula on the zeroed sound speed and the masked surface density gives QCell of the original inputs |
| Toomre.QGas | survis/toomre.py:24-30 | for any sound-speed function that keeps the shape, every output cell is QCell of its sound speed, kappa and surface density, so zero-surface-density cells are 0 whichever function is passed |
| Helper.Trunc | survis/helper.py:13 | `int()` truncates toward zero: the result has the sign of its argument and is within 1 of it |
| Helper.GetRes | survis/helper.py:9-15 | as written: fails exactly for a zero smoothing length, and otherwise returns two entries that are always equal, both the x extent over the smoothing length truncated toward zero |
| Helper.GetResIgnoresY | survis/helper.py:12-15 | as written, the result does not depend on the y extent of the box |
| Helper.CellsFit | survis/helper.py:13 | for a positive smoothing length and a non-empty axis, the truncated quotient is the largest number of whole cells that fit on the axis |
| Helper.GetResCorrected | survis/helper.py:9-15 | corrected: fails exactly for a zero smoothing length; for a positive smoothing length, each entry whose axis has `min <= max` is the number of whole cells of that width that fit on its own axis |
| Helper.GetResAgreesOnX | survis/helper.py:12-15 | as written and corrected agree on the x entry, and agree in full exactly when both axes give the same count |
| Helper.GetResCounterexample | survis/helper.py:12-15 | a 10 x 20 box with unit smoothing gives `[10, 10]` as written and `[10, 20]` corrected |
| Helper.SurfaceDensityGrid | survis/helper.py:24-30 | the surface density passed to Q_gas is, per cell, the gas mass plus the stellar mass |
| Helper.GetToomreQ | survis/helper.py:18-34 | Q is QCell of the gas sound speed, gas speed and summed mass; a cell is masked exactly where Q is 0, which is exactly where the summed mass, the sound speed or the gas speed is 0; on a built grid, every cell without gas is masked |
| Fiducial.SqRadius | survis/fiducial.py:13 | the squared 3D radius is non-negative |
| Fiducial.InShell | survis/fiducial.py:13-15 | a particle the mask keeps needs `R + dR >= 0`, and a negative dR masks every particle |
| Fiducial.InShellIffBand | survis/fiducial.py:13-16 | with r the particle's radius, it is counted exactly when `R - dR <= r <= R + dR`, a closed band |
| Fiducial.InShellMonotone | survis/fiducial.py:14 | a particle counted at dR1 is counted at any dR2 >= dR1 |
| Fiducial.ShellCount | survis/fiducial.py:15-17 | the shell count is at most the number of particles of the species |
| Fiducial.ShellCountMonotone | survis/fiducial.py:14-17 | the shell count does not decrease as dR grows |
| Fiducial.AreaEnclosed | survis/fiducial.py:20 | the area `4 pi R dR` is 0 exactly when R or dR is 0 |
| Fiducial.AreaIsAnnulus | survis/fiducial.py:14-20 | `4 pi R dR` is the area of the annulus between `R - dR` and `R + dR`, the band the count uses |
| Fiducial.SdPerType | survis/fiducial.py:9-22 | undefined exactly for a zero area; otherwise the surface density times the area is the count times the particle mass, and an empty shell gives 0 |
| Fiducial.SdPerTypeNonNegative | survis/fiducial.py:17-22 | for positive R, dR and particle mass the surface density is defined and non-negative |
| Fiducial.SurfaceDensity | survis/fiducial.py:5-27 | a two-element list `[gas, star]`: entry 0 is the gas shell density with the gas particle mass, entry 1 the stellar one with the stellar mass; undefined exactly for a zero area |

## Left out

- Reading the HDF5 snapshot (`read_data`) and its header (`extract_header`): these are file I/O. The particles and particle masses are inputs to `Preprocess.NewDataGrid`, and the file name, time and box size are not modelled.
- The per-particle speed, from the velocities and coordinates and divided by 3e16, along with `radii` and `rms`: these use square roots and float means. Each particle's speed is an input field.
- `sound_speed_sne`: it uses fractional float powers. `Toomre.QGas` takes any sound-speed function as a parameter, so it covers this one.
- `Toomre.IsothermalSpeed`: the square root is not computed. The constant is the double the source evaluates, `11.771434350437787`, and it is proved to square to `gamma R T / M` in (km/s)^2 to within 1e-13.
- Float rounding: every float operation is exact real arithmetic. numpy's conversion of cell indices to int64 is unbounded here, so its overflow is not modelled.
- The `ids` branch of `bin_data`: it is unimplemented and only prints a warning.
- `Preprocess.BinData`: a zero-width box axis makes the cell indices of numpy not numbers (inf or nan cast to int). The model reports this as the error `ZeroWidthBin`.
- `Preprocess.BinData`: `d_arr` is allocated for both species, not only for the hydro one. It is read only when `hydro`.
- `Fiducial.SdPerType` and `Fiducial.SurfaceDensity`: a zero area gives inf or nan in the source, and None in the model.
- `Helper.GetRes` and `Helper.GetResCorrected`: a zero smoothing length raises in the source, and gives None in the model.
- `Toomre.QGas`: a gravitational constant of 0 is excluded by `requires`. The source's only caller passes the fixed default.
- `Toomre.QGas` and `Helper.GetToomreQ`: the sound-speed function must return an array of the density's shape, since numpy's broadcasting of other shapes is not modelled. The source's `c_s[...] = 0` writes into whatever array that function returns. The model copies it first, so the aliasing is not modelled.
- `toomre.Q_star`, `fiducial.toomre_Q` and `survis/profiles.py`: these are stubs with nothing to model.
- The arity of `get_toomre_Q`: the function takes two arguments, while some of its callers pass three. The model follows the two-argument definition; the callers are not part of this model.
- `Helper.GetToomreQ` and `Toomre.QGas` are methods although `get_toomre_Q` reads as a pure expression: `Q_gas` writes into the sound-speed array it is given.
- `common.py`, `survis/analysis.py` and `tests.py`: plotting, the driver, multiprocessing, pickling and argument handling are not part of this model.

## Findings

| source | as written | input that shows it | evidently intended | confidence | as-written member | corrected member |
|---|---|---|---|---|---|---|
| survis/helper.py:12-15 | the inner `res` ignores its `bbox` argument and always reads `bbox_x`, so the y resolution is computed from the x extent | smoothing 1.0, bbox_x [0, 10], bbox_y [0, 20] gives [10, 10] | the y entry from the y extent, giving [10, 20] | high; not executed | Helper.GetRes, Helper.GetResCounterexample | Helper.GetResCorrected |
| survis/preprocess.py:72-79 | a negative cell index is not out of range for numpy, so a particle up to one box width below `xmin` or `ymin` is wrapped into the last row or column and counted, although the comment at line 78 says out-of-range particles are ignored | a 1 x 1 grid over the unit box and a particle of mass 2.0 at x = -0.5, y = 0.5: the total binned mass is 2.0 | particles outside the box are ignored, so the total is 0 and, in general, the particle mass times the number of particles inside the box | medium; not executed | Preprocess.BinnedMassConservation, Preprocess.WrapCounterexample | Preprocess.BinningCorrected, Preprocess.CorrectedMassConservation |

`Preprocess.BinData` and the `DataGridder` built from it keep the code's
behaviour, wrap-around included, so that the Toomre map is the one the code
computes. `Preprocess.BinningCorrected` is the intended binning, stated
beside them: it is `Preprocess.BinningOf` on indices from which every index
outside `[0, bins)` has been removed.
