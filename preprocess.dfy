/** The DataGridder of survis/preprocess.py: particles of one species are
    binned into a `binsx` x `binsy` grid of counts, masses, mean speeds and
    (gas only) mean densities. */
module Preprocess {
  import opened Results
  import opened Grids

  /** One particle as bin_data sees it: its position, the per-particle speed
      value computed from the snapshot's velocities and coordinates (taken
      as given), and its density (read for the hydro species only). */
  datatype Particle = Particle(x: real, y: real, z: real, speed: real, density: real)

  /** The grid resolution and bounding box a DataGridder is built with. */
  datatype GridConfig = GridConfig(binsx: int, binsy: int, xmin: real, xmax: real, ymin: real, ymax: real)

  datatype GridError =
    | NegativeDimensions   // np.zeros with a negative shape raises ValueError
    | ZeroDivision         // (xmax - xmin)/binsx with binsx == 0
    | ZeroWidthBin         // a zero bin width, so the cell index of a particle is not a number

  /** The first failure bin_data runs into for this configuration, if any. */
  function ConfigError(cfg: GridConfig): (e: Option<GridError>)
    ensures e.None? <==> cfg.binsx > 0 && cfg.binsy > 0 && cfg.xmax != cfg.xmin && cfg.ymax != cfg.ymin
  {
    if cfg.binsx < 0 || cfg.binsy < 0 then Some(NegativeDimensions)
    else if cfg.binsx == 0 || cfg.binsy == 0 then Some(ZeroDivision)
    else if cfg.xmax == cfg.xmin || cfg.ymax == cfg.ymin then Some(ZeroWidthBin)
    else None
  }

  // ---------------------------------------------------------------------
  // Numpy indexing: `arr[b]` on an axis of length n

  /** The index does not raise IndexError: numpy accepts -n <= b < n. */
  predicate InAxis(b: int, n: nat)
  {
    -(n as int) <= b < n
  }

  /** The position numpy addresses for an accepted index: negative indices
      count from the end. */
  function Wrap(b: int, n: nat): (k: int)
    requires InAxis(b, n)
    ensures 0 <= k < n
    ensures k == b % n
  {
    if b < 0 then b + n else b
  }

  /** Particle index pair (xb, yb) (the source's bx, by) is accepted and lands in cell (i, j). */
  predicate Lands(xb: int, yb: int, nbx: nat, nby: nat, i: int, j: int)
  {
    InAxis(xb, nbx) && InAxis(yb, nby) && Wrap(xb, nbx) == i && Wrap(yb, nby) == j
  }

  // ---------------------------------------------------------------------
  // What the binning loops compute: per cell, over the first k particles

  /** Number of the first k particles that land in cell (i, j). */
  function CellCount(bxs: seq<int>, bys: seq<int>, nbx: nat, nby: nat, k: nat, i: int, j: int): nat
    requires k <= |bxs| && k <= |bys|
  {
    if k == 0 then 0
    else CellCount(bxs, bys, nbx, nby, k - 1, i, j) + (if Lands(bxs[k - 1], bys[k - 1], nbx, nby, i, j) then 1 else 0)
  }

  /** Sum of `vals` over the first k particles that land in cell (i, j). */
  function CellSum(vals: seq<real>, bxs: seq<int>, bys: seq<int>, nbx: nat, nby: nat, k: nat, i: int, j: int): real
    requires k <= |vals| && k <= |bxs| && k <= |bys|
  {
    if k == 0 then 0.0
    else CellSum(vals, bxs, bys, nbx, nby, k - 1, i, j) + (if Lands(bxs[k - 1], bys[k - 1], nbx, nby, i, j) then vals[k - 1] else 0.0)
  }

  /** Number of the first k particles whose index pair numpy accepts. */
  function AcceptedCount(bxs: seq<int>, bys: seq<int>, nbx: nat, nby: nat, k: nat): nat
    requires k <= |bxs| && k <= |bys|
  {
    if k == 0 then 0
    else AcceptedCount(bxs, bys, nbx, nby, k - 1) + (if InAxis(bxs[k - 1], nbx) && InAxis(bys[k - 1], nby) then 1 else 0)
  }

  /** The count array as a grid. */
  function CountGrid(bxs: seq<int>, bys: seq<int>, nbx: nat, nby: nat, k: nat): (g: Grid)
    requires k <= |bxs| && k <= |bys|
    ensures IsGrid(g, nbx, nby)
    ensures forall i, j :: 0 <= i < nbx && 0 <= j < nby ==> g[i][j] == CellCount(bxs, bys, nbx, nby, k, i, j) as real
  {
    seq(nbx, i => seq(nby, j => CellCount(bxs, bys, nbx, nby, k, i, j) as real))
  }

  /** A cell no particle landed in has a zero sum. */
  lemma {:induction false} EmptyCellSumsToZero(vals: seq<real>, bxs: seq<int>, bys: seq<int>, nbx: nat, nby: nat, k: nat, i: int, j: int)
    requires k <= |vals| && k <= |bxs| && k <= |bys|
    requires CellCount(bxs, bys, nbx, nby, k, i, j) == 0
    ensures CellSum(vals, bxs, bys, nbx, nby, k, i, j) == 0.0
  {
    if k > 0 {
      EmptyCellSumsToZero(vals, bxs, bys, nbx, nby, k - 1, i, j);
    }
  }

  /** One step of the binning loop: a particle whose index pair numpy
      rejects changes no cell; an accepted one adds 1 to the count and its
      value to the sum of the cell (bx mod nbx, by mod nby) and to no other. */
  lemma ParticleStep(vals: seq<real>, bxs: seq<int>, bys: seq<int>, nbx: nat, nby: nat, k: nat, i: int, j: int)
    requires k < |vals| && k < |bxs| && k < |bys|
    ensures !(InAxis(bxs[k], nbx) && InAxis(bys[k], nby)) ==>
      && CellCount(bxs, bys, nbx, nby, k + 1, i, j) == CellCount(bxs, bys, nbx, nby, k, i, j)
      && CellSum(vals, bxs, bys, nbx, nby, k + 1, i, j) == CellSum(vals, bxs, bys, nbx, nby, k, i, j)
    ensures InAxis(bxs[k], nbx) && InAxis(bys[k], nby) ==>
      var hit := i == bxs[k] % nbx && j == bys[k] % nby;
      && CellCount(bxs, bys, nbx, nby, k + 1, i, j) == CellCount(bxs, bys, nbx, nby, k, i, j) + (if hit then 1 else 0)
      && CellSum(vals, bxs, bys, nbx, nby, k + 1, i, j) == CellSum(vals, bxs, bys, nbx, nby, k, i, j) + (if hit then vals[k] else 0.0)
  {
  }

  /** Count conservation: the counts of all cells add up to the number of
      accepted particles, which is at most the number of particles seen. */
  lemma {:induction false} CountConservation(bxs: seq<int>, bys: seq<int>, nbx: nat, nby: nat, k: nat)
    requires k <= |bxs| && k <= |bys|
    ensures Total(CountGrid(bxs, bys, nbx, nby, k)) == AcceptedCount(bxs, bys, nbx, nby, k) as real
    ensures AcceptedCount(bxs, bys, nbx, nby, k) <= k
  {
    var cur := CountGrid(bxs, bys, nbx, nby, k);
    if k == 0 {
      TotalZeros(cur);
    } else {
      CountConservation(bxs, bys, nbx, nby, k - 1);
      var prev := CountGrid(bxs, bys, nbx, nby, k - 1);
      var xb, yb := bxs[k - 1], bys[k - 1];
      if InAxis(xb, nbx) && InAxis(yb, nby) {
        var a, b := Wrap(xb, nbx), Wrap(yb, nby);
        var next := prev[a := prev[a][b := prev[a][b] + 1.0]];
        assert IsGrid(next, nbx, nby);
        GridExtensionality(cur, next, nbx, nby);
        TotalPointAdd(prev, a, b, 1.0);
      } else {
        GridExtensionality(cur, prev, nbx, nby);
      }
    }
  }

  // ---------------------------------------------------------------------
  // bin_hydro and bin_nohydro

  /** Any grid holding the cell counts totals the accepted particles. */
  lemma CountTotal(g: Grid, bxs: seq<int>, bys: seq<int>, nbx: nat, nby: nat, k: nat)
    requires k <= |bxs| && k <= |bys|
    requires IsGrid(g, nbx, nby)
    requires forall i, j :: 0 <= i < nbx && 0 <= j < nby ==> g[i][j] == CellCount(bxs, bys, nbx, nby, k, i, j) as real
    ensures Total(g) == AcceptedCount(bxs, bys, nbx, nby, k) as real <= k as real
  {
    GridExtensionality(g, CountGrid(bxs, bys, nbx, nby, k), nbx, nby);
    CountConservation(bxs, bys, nbx, nby, k);
  }


  function Min(a: nat, b: nat): nat
  {
    if a <= b then a else b
  }

  /** The body of bin_hydro's loop for particle k: its speed, density and 1
      are added to its cell when numpy accepts its index pair; otherwise the
      IndexError is caught before any array is written. */
  method DepositHydro(velArr: array2<real>, nArr: array2<real>, dArr: array2<real>, nbx: nat, nby: nat,
                      vels: seq<real>, bxs: seq<int>, bys: seq<int>, density: seq<real>, k: nat)
    requires k < |vels| && k < |bxs| && k < |bys| && k < |density|
    requires velArr != nArr && velArr != dArr && nArr != dArr
    requires velArr.Length0 == nArr.Length0 == dArr.Length0 == nbx
    requires velArr.Length1 == nArr.Length1 == dArr.Length1 == nby
    requires forall i, j :: 0 <= i < nbx && 0 <= j < nby ==>
      && velArr[i, j] == CellSum(vels, bxs, bys, nbx, nby, k, i, j)
      && nArr[i, j] == CellCount(bxs, bys, nbx, nby, k, i, j) as real
      && dArr[i, j] == CellSum(density, bxs, bys, nbx, nby, k, i, j)
    modifies velArr, nArr, dArr
    ensures forall i, j :: 0 <= i < nbx && 0 <= j < nby ==>
      && velArr[i, j] == CellSum(vels, bxs, bys, nbx, nby, k + 1, i, j)
      && nArr[i, j] == CellCount(bxs, bys, nbx, nby, k + 1, i, j) as real
      && dArr[i, j] == CellSum(density, bxs, bys, nbx, nby, k + 1, i, j)
  {
    var v, xb, yb, rho := vels[k], bxs[k], bys[k], density[k];
    if InAxis(xb, nbx) && InAxis(yb, nby) {
      var a, b := Wrap(xb, nbx), Wrap(yb, nby);
      velArr[a, b] := velArr[a, b] + v;
      dArr[a, b] := dArr[a, b] + rho;
      nArr[a, b] := nArr[a, b] + 1.0;
    }
  }

  /** bin_hydro: one pass over zip(vels, binsx, binsy, density), adding each
      accepted particle's speed, density and 1 to its cell; a particle whose
      index raises IndexError is skipped before any array is written. */
  method BinHydro(nbx: nat, nby: nat, vels: seq<real>, bxs: seq<int>, bys: seq<int>, density: seq<real>)
    returns (velArr: array2<real>, nArr: array2<real>, dArr: array2<real>)
    ensures fresh(velArr) && fresh(nArr) && fresh(dArr)
    ensures velArr.Length0 == nArr.Length0 == dArr.Length0 == nbx
    ensures velArr.Length1 == nArr.Length1 == dArr.Length1 == nby
    ensures var n := Min(Min(|vels|, |bxs|), Min(|bys|, |density|));
      forall i, j :: 0 <= i < nbx && 0 <= j < nby ==>
        && velArr[i, j] == CellSum(vels, bxs, bys, nbx, nby, n, i, j)
        && nArr[i, j] == CellCount(bxs, bys, nbx, nby, n, i, j) as real
        && dArr[i, j] == CellSum(density, bxs, bys, nbx, nby, n, i, j)
    ensures var n := Min(Min(|vels|, |bxs|), Min(|bys|, |density|));
      Total(ToGrid(nArr)) == AcceptedCount(bxs, bys, nbx, nby, n) as real <= n as real
  {
    velArr := Zeros(nbx, nby);
    dArr := Zeros(nbx, nby);
    nArr := Zeros(nbx, nby);
    var n := Min(Min(|vels|, |bxs|), Min(|bys|, |density|));
    var k := 0;
    while k < n
      invariant 0 <= k <= n
      invariant forall i, j :: 0 <= i < nbx && 0 <= j < nby ==>
        && velArr[i, j] == CellSum(vels, bxs, bys, nbx, nby, k, i, j)
        && nArr[i, j] == CellCount(bxs, bys, nbx, nby, k, i, j) as real
        && dArr[i, j] == CellSum(density, bxs, bys, nbx, nby, k, i, j)
    {
      DepositHydro(velArr, nArr, dArr, nbx, nby, vels, bxs, bys, density, k);
      k := k + 1;
    }
    CountTotal(ToGrid(nArr), bxs, bys, nbx, nby, n);
  }

  /** The body of bin_nohydro's loop for particle k: as DepositHydro,
      without the density. */
  method Deposit(velArr: array2<real>, nArr: array2<real>, nbx: nat, nby: nat,
                 vels: seq<real>, bxs: seq<int>, bys: seq<int>, k: nat)
    requires k < |vels| && k < |bxs| && k < |bys|
    requires velArr != nArr
    requires velArr.Length0 == nArr.Length0 == nbx && velArr.Length1 == nArr.Length1 == nby
    requires forall i, j :: 0 <= i < nbx && 0 <= j < nby ==>
      && velArr[i, j] == CellSum(vels, bxs, bys, nbx, nby, k, i, j)
      && nArr[i, j] == CellCount(bxs, bys, nbx, nby, k, i, j) as real
    modifies velArr, nArr
    ensures forall i, j :: 0 <= i < nbx && 0 <= j < nby ==>
      && velArr[i, j] == CellSum(vels, bxs, bys, nbx, nby, k + 1, i, j)
      && nArr[i, j] == CellCount(bxs, bys, nbx, nby, k + 1, i, j) as real
  {
    var v, xb, yb := vels[k], bxs[k], bys[k];
    if InAxis(xb, nbx) && InAxis(yb, nby) {
      var a, b := Wrap(xb, nbx), Wrap(yb, nby);
      velArr[a, b] := velArr[a, b] + v;
      nArr[a, b] := nArr[a, b] + 1.0;
    }
  }

  /** bin_nohydro: as bin_hydro, without the density array. */
  method BinNoHydro(nbx: nat, nby: nat, vels: seq<real>, bxs: seq<int>, bys: seq<int>)
    returns (velArr: array2<real>, nArr: array2<real>)
    ensures fresh(velArr) && fresh(nArr)
    ensures velArr.Length0 == nArr.Length0 == nbx && velArr.Length1 == nArr.Length1 == nby
    ensures var n := Min(|vels|, Min(|bxs|, |bys|));
      forall i, j :: 0 <= i < nbx && 0 <= j < nby ==>
        && velArr[i, j] == CellSum(vels, bxs, bys, nbx, nby, n, i, j)
        && nArr[i, j] == CellCount(bxs, bys, nbx, nby, n, i, j) as real
    ensures var n := Min(|vels|, Min(|bxs|, |bys|));
      Total(ToGrid(nArr)) == AcceptedCount(bxs, bys, nbx, nby, n) as real <= n as real
  {
    velArr := Zeros(nbx, nby);
    nArr := Zeros(nbx, nby);
    var n := Min(|vels|, Min(|bxs|, |bys|));
    var k := 0;
    while k < n
      invariant 0 <= k <= n
      invariant forall i, j :: 0 <= i < nbx && 0 <= j < nby ==>
        && velArr[i, j] == CellSum(vels, bxs, bys, nbx, nby, k, i, j)
        && nArr[i, j] == CellCount(bxs, bys, nbx, nby, k, i, j) as real
    {
      Deposit(velArr, nArr, nbx, nby, vels, bxs, bys, k);
      k := k + 1;
    }
    CountTotal(ToGrid(nArr), bxs, bys, nbx, nby, n);
  }

  // ---------------------------------------------------------------------
  // bin_data

  /** Width of one cell along an axis. */
  function BinWidth(lo: real, hi: real, bins: int): real
    requires bins != 0
  {
    (hi - lo) / (bins as real)
  }

  /** `floor((c - lo)/width)`, the cell index of coordinate c. */
  function BinIndex(c: real, lo: real, width: real): int
    requires width != 0.0
  {
    ((c - lo) / width).Floor
  }

  /** On an axis with lo < hi, a coordinate gets an index inside [0, bins)
      exactly when it lies inside [lo, hi). */
  lemma BinIndexInRange(c: real, lo: real, hi: real, bins: int)
    requires bins > 0 && lo < hi
    ensures 0 <= BinIndex(c, lo, BinWidth(lo, hi, bins)) < bins <==> lo <= c < hi
  {
    var w := BinWidth(lo, hi, bins);
    var t := (c - lo) / w;
    var f := t.Floor;
    var nb := bins as real;
    assert w > 0.0;
    assert t * w == c - lo;
    assert nb * w == hi - lo;
    assert f as real <= t < f as real + 1.0;
    // the distance to the far edge, in cells and in length
    var d := nb - t;
    assert d * w == hi - c;
    if lo <= c < hi {
      assert t >= 0.0;
      assert d > 0.0;
    }
    if 0 <= f < bins {
      assert t * w >= 0.0;
      assert d > 0.0;
      assert d * w > 0.0;
    }
  }

  /** `binnedx`: the x cell index of every particle; on an axis with
      xmin < xmax, it lies in [0, binsx) exactly for a particle with
      xmin <= x < xmax. */
  function BinnedX(cfg: GridConfig, data: seq<Particle>): (bxs: seq<int>)
    requires ConfigError(cfg).None?
    ensures |bxs| == |data|
    ensures cfg.xmin < cfg.xmax ==> forall k :: 0 <= k < |data| ==>
      (0 <= bxs[k] < cfg.binsx <==> cfg.xmin <= data[k].x < cfg.xmax)
  {
    var idx := seq(|data|, k requires 0 <= k < |data| => BinIndex(data[k].x, cfg.xmin, BinWidth(cfg.xmin, cfg.xmax, cfg.binsx)));
    assert cfg.xmin < cfg.xmax ==> forall k :: 0 <= k < |data| ==>
      (0 <= idx[k] < cfg.binsx <==> cfg.xmin <= data[k].x < cfg.xmax) by {
      if cfg.xmin < cfg.xmax {
        forall k | 0 <= k < |data|
          ensures 0 <= idx[k] < cfg.binsx <==> cfg.xmin <= data[k].x < cfg.xmax
        {
          BinIndexInRange(data[k].x, cfg.xmin, cfg.xmax, cfg.binsx);
        }
      }
    }
    idx
  }

  /** `binnedy`: the y cell index of every particle; on an axis with
      ymin < ymax, it lies in [0, binsy) exactly for a particle with
      ymin <= y < ymax. */
  function BinnedY(cfg: GridConfig, data: seq<Particle>): (bys: seq<int>)
    requires ConfigError(cfg).None?
    ensures |bys| == |data|
    ensures cfg.ymin < cfg.ymax ==> forall k :: 0 <= k < |data| ==>
      (0 <= bys[k] < cfg.binsy <==> cfg.ymin <= data[k].y < cfg.ymax)
  {
    var idx := seq(|data|, k requires 0 <= k < |data| => BinIndex(data[k].y, cfg.ymin, BinWidth(cfg.ymin, cfg.ymax, cfg.binsy)));
    assert cfg.ymin < cfg.ymax ==> forall k :: 0 <= k < |data| ==>
      (0 <= idx[k] < cfg.binsy <==> cfg.ymin <= data[k].y < cfg.ymax) by {
      if cfg.ymin < cfg.ymax {
        forall k | 0 <= k < |data|
          ensures 0 <= idx[k] < cfg.binsy <==> cfg.ymin <= data[k].y < cfg.ymax
        {
          BinIndexInRange(data[k].y, cfg.ymin, cfg.ymax, cfg.binsy);
        }
      }
    }
    idx
  }

  function Speeds(data: seq<Particle>): (vs: seq<real>)
    ensures |vs| == |data| && forall k :: 0 <= k < |data| ==> vs[k] == data[k].speed
  {
    seq(|data|, k requires 0 <= k < |data| => data[k].speed)
  }

  function Densities(data: seq<Particle>): (ds: seq<real>)
    ensures |ds| == |data| && forall k :: 0 <= k < |data| ==> ds[k] == data[k].density
  {
    seq(|data|, k requires 0 <= k < |data| => data[k].density)
  }

  /** The mean of `count` values summing to `sum`, and 0 for no values. */
  function MeanOrZero(sum: real, count: nat): real
  {
    if count == 0 then 0.0 else sum / (count as real)
  }

  /** Per cell, count x part_mass over the first k particles. */
  function CellMasses(bxs: seq<int>, bys: seq<int>, nbx: nat, nby: nat, k: nat, partMass: real): (g: Grid)
    requires k <= |bxs| && k <= |bys|
    ensures IsGrid(g, nbx, nby)
    ensures forall i, j :: 0 <= i < nbx && 0 <= j < nby ==>
      g[i][j] == CellCount(bxs, bys, nbx, nby, k, i, j) as real * partMass
  {
    Scale(CountGrid(bxs, bys, nbx, nby, k), partMass)
  }

  /** Per cell, the mean of `vals` over the first k particles that land in
      the cell, and 0 if none does. */
  function CellMeans(vals: seq<real>, bxs: seq<int>, bys: seq<int>, nbx: nat, nby: nat, k: nat): (g: Grid)
    requires k <= |vals| && k <= |bxs| && k <= |bys|
    ensures IsGrid(g, nbx, nby)
    ensures forall i, j :: 0 <= i < nbx && 0 <= j < nby ==>
      g[i][j] == MeanOrZero(CellSum(vals, bxs, bys, nbx, nby, k, i, j), CellCount(bxs, bys, nbx, nby, k, i, j))
  {
    seq(nbx, i => seq(nby, j =>
      MeanOrZero(CellSum(vals, bxs, bys, nbx, nby, k, i, j), CellCount(bxs, bys, nbx, nby, k, i, j))))
  }

  /** The dictionary bin_data returns for particles with cell indices
      bxs, bys: masses, mean speeds and, for the hydro species, mean
      densities, cell by cell. */
  function BinningOf(bxs: seq<int>, bys: seq<int>, nbx: nat, nby: nat, k: nat,
                     vels: seq<real>, density: seq<real>, partMass: real, hydro: bool): map<string, Grid>
    requires k <= |bxs| && k <= |bys| && k <= |vels| && k <= |density|
  {
    var ret := map[
      "masses" := CellMasses(bxs, bys, nbx, nby, k, partMass),
      "velocities" := CellMeans(vels, bxs, bys, nbx, nby, k)];
    if hydro then ret["densities" := CellMeans(density, bxs, bys, nbx, nby, k)] else ret
  }

  /** The same for one species' particles binned with a configuration. */
  function Binning(cfg: GridConfig, data: seq<Particle>, partMass: real, hydro: bool): map<string, Grid>
    requires ConfigError(cfg).None?
  {
    BinningOf(BinnedX(cfg, data), BinnedY(cfg, data), cfg.binsx, cfg.binsy, |data|, Speeds(data), Densities(data), partMass, hydro)
  }

  /** The means bin_data reports: each cell's sum divided by its count
      after a zero count was replaced by 1, which gives 0 for an empty cell. */
  lemma GuardedMeans(vals: seq<real>, bxs: seq<int>, bys: seq<int>, nbx: nat, nby: nat, k: nat, sums: Grid, guarded: Grid, means: Grid)
    requires k <= |vals| && k <= |bxs| && k <= |bys|
    requires IsGrid(sums, nbx, nby) && IsGrid(guarded, nbx, nby) && IsGrid(means, nbx, nby)
    requires forall i, j :: 0 <= i < nbx && 0 <= j < nby ==>
      && sums[i][j] == CellSum(vals, bxs, bys, nbx, nby, k, i, j)
      && guarded[i][j] == (if CellCount(bxs, bys, nbx, nby, k, i, j) == 0 then 1.0 else CellCount(bxs, bys, nbx, nby, k, i, j) as real)
      && means[i][j] * guarded[i][j] == sums[i][j]
    ensures means == CellMeans(vals, bxs, bys, nbx, nby, k)
  {
    forall i, j | 0 <= i < nbx && 0 <= j < nby
      ensures means[i][j] == CellMeans(vals, bxs, bys, nbx, nby, k)[i][j]
    {
      if CellCount(bxs, bys, nbx, nby, k, i, j) == 0 {
        EmptyCellSumsToZero(vals, bxs, bys, nbx, nby, k, i, j);
      }
    }
    GridExtensionality(means, CellMeans(vals, bxs, bys, nbx, nby, k), nbx, nby);
  }

  /** `sums / n_arr` once the zero counts of n_arr were replaced by 1: the
      mean of each cell, and 0 for an empty cell. */
  method GuardedDivide(vals: seq<real>, bxs: seq<int>, bys: seq<int>, nbx: nat, nby: nat, k: nat,
                       sums: array2<real>, guarded: array2<real>)
    returns (means: Grid)
    requires k <= |vals| && k <= |bxs| && k <= |bys|
    requires sums.Length0 == guarded.Length0 == nbx && sums.Length1 == guarded.Length1 == nby
    requires forall i, j :: 0 <= i < nbx && 0 <= j < nby ==>
      && sums[i, j] == CellSum(vals, bxs, bys, nbx, nby, k, i, j)
      && guarded[i, j] == (if CellCount(bxs, bys, nbx, nby, k, i, j) == 0 then 1.0 else CellCount(bxs, bys, nbx, nby, k, i, j) as real)
    ensures means == CellMeans(vals, bxs, bys, nbx, nby, k)
  {
    means := Divide(ToGrid(sums), ToGrid(guarded));
    GuardedMeans(vals, bxs, bys, nbx, nby, k, ToGrid(sums), ToGrid(guarded), means);
  }

  /** The first half of bin_data: the zeroed arrays receive, by `+=`, the
      per-cell sums that bin_hydro or bin_nohydro return. */
  method Accumulate(bxs: seq<int>, bys: seq<int>, nbx: nat, nby: nat, vels: seq<real>, density: seq<real>,
                    velArr: array2<real>, nArr: array2<real>, dArr: array2<real>, hydro: bool)
    requires |bxs| == |bys| == |vels| == |density|
    requires velArr != nArr && dArr != nArr && velArr != dArr
    requires velArr.Length0 == nArr.Length0 == dArr.Length0 == nbx
    requires velArr.Length1 == nArr.Length1 == dArr.Length1 == nby
    requires forall i, j :: 0 <= i < nbx && 0 <= j < nby ==> velArr[i, j] == nArr[i, j] == dArr[i, j] == 0.0
    modifies velArr, nArr, dArr
    ensures forall i, j :: 0 <= i < nbx && 0 <= j < nby ==>
      && velArr[i, j] == CellSum(vels, bxs, bys, nbx, nby, |bxs|, i, j)
      && nArr[i, j] == CellCount(bxs, bys, nbx, nby, |bxs|, i, j) as real
      && (hydro ==> dArr[i, j] == CellSum(density, bxs, bys, nbx, nby, |bxs|, i, j))
    ensures !hydro ==> unchanged(dArr)
  {
    if hydro {
      var v, n, d := BinHydro(nbx, nby, vels, bxs, bys, density);
      AddInto(velArr, v);
      AddInto(dArr, d);
      AddInto(nArr, n);
    } else {
      var v, n := BinNoHydro(nbx, nby, vels, bxs, bys);
      AddInto(velArr, v);
      AddInto(nArr, n);
    }
  }

  /** The second half of bin_data: from the summed arrays to the masses
      and the guarded means. */
  method Summarize(bxs: seq<int>, bys: seq<int>, nbx: nat, nby: nat, k: nat, vels: seq<real>, density: seq<real>,
                   velArr: array2<real>, nArr: array2<real>, dArr: array2<real>, partMass: real, hydro: bool)
    returns (ret: map<string, Grid>)
    requires k <= |bxs| && k <= |bys| && k <= |vels| && k <= |density|
    requires velArr != nArr && dArr != nArr
    requires velArr.Length0 == nArr.Length0 == dArr.Length0 == nbx
    requires velArr.Length1 == nArr.Length1 == dArr.Length1 == nby
    requires forall i, j :: 0 <= i < nbx && 0 <= j < nby ==>
      && velArr[i, j] == CellSum(vels, bxs, bys, nbx, nby, k, i, j)
      && nArr[i, j] == CellCount(bxs, bys, nbx, nby, k, i, j) as real
      && (hydro ==> dArr[i, j] == CellSum(density, bxs, bys, nbx, nby, k, i, j))
    modifies nArr
    ensures ret == BinningOf(bxs, bys, nbx, nby, k, vels, density, partMass, hydro)
    // the zero guard is left in n_arr
    ensures forall i, j :: 0 <= i < nbx && 0 <= j < nby ==>
      nArr[i, j] == (if CellCount(bxs, bys, nbx, nby, k, i, j) == 0 then 1.0 else CellCount(bxs, bys, nbx, nby, k, i, j) as real)
  {
    var mArr := Scale(ToGrid(nArr), partMass);
    GridExtensionality(mArr, CellMasses(bxs, bys, nbx, nby, k, partMass), nbx, nby);

    // a zero count becomes 1 so that the means divide by a nonzero number
    ReplaceZeros(nArr, 1.0);
    var velocities := GuardedDivide(vels, bxs, bys, nbx, nby, k, velArr, nArr);

    ret := map["masses" := mArr, "velocities" := velocities];
    if hydro {
      var densities := GuardedDivide(density, bxs, bys, nbx, nby, k, dArr, nArr);
      ret := ret["densities" := densities];
    }
  }

  /** bin_data: bin one species with the DataGridder's resolution and
      bounding box. */
  method BinData(cfg: GridConfig, data: seq<Particle>, partMass: real, hydro: bool)
    returns (res: Result<map<string, Grid>, GridError>)
    ensures res.Failure? <==> ConfigError(cfg).Some?
    ensures res.Failure? ==> res.error == ConfigError(cfg).value
    ensures res.Success? ==> res.value == Binning(cfg, data, partMass, hydro)
  {
    if cfg.binsx < 0 || cfg.binsy < 0 {
      return Failure(NegativeDimensions);
    }
    var nbx, nby := cfg.binsx as nat, cfg.binsy as nat;
    var velArr := Zeros(nbx, nby);
    var nArr := Zeros(nbx, nby);
    // the source allocates d_arr for the hydro species only; here it is
    // allocated for both and read only when hydro
    var dArr := Zeros(nbx, nby);
    if nbx == 0 || nby == 0 {
      return Failure(ZeroDivision);
    }
    var binsizeX, binsizeY := BinWidth(cfg.xmin, cfg.xmax, nbx), BinWidth(cfg.ymin, cfg.ymax, nby);
    if binsizeX == 0.0 || binsizeY == 0.0 {
      return Failure(ZeroWidthBin);
    }
    var binnedx, binnedy := BinnedX(cfg, data), BinnedY(cfg, data);
    var vels := Speeds(data);
    var density := Densities(data);

    Accumulate(binnedx, binnedy, nbx, nby, vels, density, velArr, nArr, dArr, hydro);
    var ret := Summarize(binnedx, binnedy, nbx, nby, |data|, vels, density, velArr, nArr, dArr, partMass, hydro);
    res := Success(ret);
  }

  // ---------------------------------------------------------------------
  // Properties of a binning

  /** Which reference grid each key of the result holds. */
  lemma BinningEntries(cfg: GridConfig, data: seq<Particle>, partMass: real, hydro: bool)
    requires ConfigError(cfg).None?
    ensures var ret, bxs, bys := Binning(cfg, data, partMass, hydro), BinnedX(cfg, data), BinnedY(cfg, data);
      && ret["masses"] == CellMasses(bxs, bys, cfg.binsx, cfg.binsy, |data|, partMass)
      && ret["velocities"] == CellMeans(Speeds(data), bxs, bys, cfg.binsx, cfg.binsy, |data|)
      && (hydro ==> ret["densities"] == CellMeans(Densities(data), bxs, bys, cfg.binsx, cfg.binsy, |data|))
  {
  }

  /** The result has 'masses' and 'velocities', and 'densities' exactly for
      the hydro species; every entry has the grid's shape. */
  lemma BinningKeys(cfg: GridConfig, data: seq<Particle>, partMass: real, hydro: bool)
    requires ConfigError(cfg).None?
    ensures var ret := Binning(cfg, data, partMass, hydro);
      && ret.Keys == (if hydro then {"masses", "velocities", "densities"} else {"masses", "velocities"})
      && forall key :: key in ret ==> IsGrid(ret[key], cfg.binsx, cfg.binsy)
  {
  }

  /** Count conservation carried to masses: the mass grid totals part_mass
      times the number of accepted particles. */
  lemma {:induction false} MassConservation(bxs: seq<int>, bys: seq<int>, nbx: nat, nby: nat, k: nat, partMass: real)
    requires k <= |bxs| && k <= |bys|
    ensures Total(CellMasses(bxs, bys, nbx, nby, k, partMass)) == AcceptedCount(bxs, bys, nbx, nby, k) as real * partMass
    ensures AcceptedCount(bxs, bys, nbx, nby, k) <= k
  {
    var counts, masses := CountGrid(bxs, bys, nbx, nby, k), CellMasses(bxs, bys, nbx, nby, k, partMass);
    var accepted := AcceptedCount(bxs, bys, nbx, nby, k);
    assert masses == Scale(counts, partMass);
    TotalScale(counts, partMass);
    CountConservation(bxs, bys, nbx, nby, k);
  }

  /** The total mass bin_data reports is part_mass times the number of
      particles whose cell indices numpy accepts, and so at most part_mass
      times the number of particles. Accepted are the particles inside the
      box and also those up to one box width below xmin or ymin, whose
      negative indices wrap to the far edge (see InBoxAccepted and
      WrapCounterexample). */
  lemma BinnedMassConservation(cfg: GridConfig, data: seq<Particle>, partMass: real, hydro: bool) returns (accepted: nat)
    requires ConfigError(cfg).None?
    ensures accepted == AcceptedCount(BinnedX(cfg, data), BinnedY(cfg, data), cfg.binsx, cfg.binsy, |data|)
    ensures accepted <= |data|
    ensures Total(Binning(cfg, data, partMass, hydro)["masses"]) == accepted as real * partMass
  {
    var bxs, bys := BinnedX(cfg, data), BinnedY(cfg, data);
    accepted := AcceptedCount(bxs, bys, cfg.binsx, cfg.binsy, |data|);
    MassConservation(bxs, bys, cfg.binsx, cfg.binsy, |data|, partMass);
    BinningEntries(cfg, data, partMass, hydro);
  }

  // ---------------------------------------------------------------------
  // Particles below the box: as written and as intended

  /** The particle lies inside the half-open box [xmin, xmax) x [ymin, ymax). */
  predicate InBox(cfg: GridConfig, p: Particle)
  {
    cfg.xmin <= p.x < cfg.xmax && cfg.ymin <= p.y < cfg.ymax
  }

  /** Number of the first k particles inside the box. */
  function InBoxCount(cfg: GridConfig, data: seq<Particle>, k: nat): (n: nat)
    requires k <= |data|
    ensures n <= k
  {
    if k == 0 then 0 else InBoxCount(cfg, data, k - 1) + (if InBox(cfg, data[k - 1]) then 1 else 0)
  }

  /** For a box with xmin < xmax and ymin < ymax, both cell indices of a
      particle lie inside [0, bins) exactly when the particle is in the box. */
  lemma InBoxIndices(cfg: GridConfig, p: Particle)
    requires ConfigError(cfg).None? && cfg.xmin < cfg.xmax && cfg.ymin < cfg.ymax
    ensures var ix := BinIndex(p.x, cfg.xmin, BinWidth(cfg.xmin, cfg.xmax, cfg.binsx));
      var iy := BinIndex(p.y, cfg.ymin, BinWidth(cfg.ymin, cfg.ymax, cfg.binsy));
      0 <= ix < cfg.binsx && 0 <= iy < cfg.binsy <==> InBox(cfg, p)
  {
    BinIndexInRange(p.x, cfg.xmin, cfg.xmax, cfg.binsx);
    BinIndexInRange(p.y, cfg.ymin, cfg.ymax, cfg.binsy);
  }

  /** As written, every particle inside the box is accepted, so the accepted
      particles are at least those in the box. */
  lemma {:induction false} InBoxAccepted(cfg: GridConfig, data: seq<Particle>, k: nat)
    requires ConfigError(cfg).None? && cfg.xmin < cfg.xmax && cfg.ymin < cfg.ymax
    requires k <= |data|
    ensures InBoxCount(cfg, data, k) <= AcceptedCount(BinnedX(cfg, data), BinnedY(cfg, data), cfg.binsx, cfg.binsy, k)
  {
    if k > 0 {
      InBoxAccepted(cfg, data, k - 1);
      InBoxIndices(cfg, data[k - 1]);
    }
  }

  /** The indices bin_data evidently means to pass on: an index outside
      [0, n) becomes n, which numpy rejects, so the particle is ignored. */
  function InRangeOnly(bs: seq<int>, n: nat): (gs: seq<int>)
    ensures |gs| == |bs|
    ensures forall k :: 0 <= k < |bs| ==> (InAxis(gs[k], n) <==> 0 <= bs[k] < n)
    ensures forall k :: 0 <= k < |bs| && 0 <= bs[k] < n ==> gs[k] == bs[k]
  {
    seq(|bs|, k requires 0 <= k < |bs| => if 0 <= bs[k] < n then bs[k] else n)
  }

  /** bin_data as evidently intended: a particle out of range on either axis,
      below the box included, is ignored. */
  function BinningCorrected(cfg: GridConfig, data: seq<Particle>, partMass: real, hydro: bool): (r: map<string, Grid>)
    requires ConfigError(cfg).None?
    ensures r.Keys == Binning(cfg, data, partMass, hydro).Keys
    // when no particle is out of range, the correction changes nothing
    ensures (forall k :: 0 <= k < |data| ==> 0 <= BinnedX(cfg, data)[k] < cfg.binsx && 0 <= BinnedY(cfg, data)[k] < cfg.binsy)
      ==> r == Binning(cfg, data, partMass, hydro)
  {
    var bxs, bys := BinnedX(cfg, data), BinnedY(cfg, data);
    var gx, gy := InRangeOnly(bxs, cfg.binsx), InRangeOnly(bys, cfg.binsy);
    assert (forall k :: 0 <= k < |data| ==> 0 <= bxs[k] < cfg.binsx && 0 <= bys[k] < cfg.binsy)
      ==> gx == bxs && gy == bys;
    BinningOf(gx, gy, cfg.binsx, cfg.binsy, |data|, Speeds(data), Densities(data), partMass, hydro)
  }

  /** Corrected, the accepted particles are exactly those inside the box. */
  lemma {:induction false} CorrectedAcceptsInBox(cfg: GridConfig, data: seq<Particle>, k: nat)
    requires ConfigError(cfg).None? && cfg.xmin < cfg.xmax && cfg.ymin < cfg.ymax
    requires k <= |data|
    ensures AcceptedCount(InRangeOnly(BinnedX(cfg, data), cfg.binsx), InRangeOnly(BinnedY(cfg, data), cfg.binsy),
                          cfg.binsx, cfg.binsy, k) == InBoxCount(cfg, data, k)
  {
    if k > 0 {
      CorrectedAcceptsInBox(cfg, data, k - 1);
      InBoxIndices(cfg, data[k - 1]);
    }
  }

  /** The 'masses' entry of a binning totals part_mass times the number of
      accepted particles. */
  lemma BinningOfMassTotal(bxs: seq<int>, bys: seq<int>, nbx: nat, nby: nat, k: nat,
                           vels: seq<real>, density: seq<real>, partMass: real, hydro: bool, accepted: nat)
    requires k <= |bxs| && k <= |bys| && k <= |vels| && k <= |density|
    requires accepted == AcceptedCount(bxs, bys, nbx, nby, k)
    ensures Total(BinningOf(bxs, bys, nbx, nby, k, vels, density, partMass, hydro)["masses"]) == accepted as real * partMass
  {
    var masses := CellMasses(bxs, bys, nbx, nby, k, partMass);
    var ret := BinningOf(bxs, bys, nbx, nby, k, vels, density, partMass, hydro);
    var plain := map["masses" := masses, "velocities" := CellMeans(vels, bxs, bys, nbx, nby, k)];
    if hydro {
      assert ret == plain["densities" := CellMeans(density, bxs, bys, nbx, nby, k)];
    } else {
      assert ret == plain;
    }
    assert ret["masses"] == masses;
    MassConservation(bxs, bys, nbx, nby, k, partMass);
  }

  /** Corrected, the total mass is part_mass times the number of particles
      inside the box. */
  lemma CorrectedMassConservation(cfg: GridConfig, data: seq<Particle>, partMass: real, hydro: bool) returns (inBox: nat)
    requires ConfigError(cfg).None? && cfg.xmin < cfg.xmax && cfg.ymin < cfg.ymax
    ensures inBox == InBoxCount(cfg, data, |data|)
    ensures Total(BinningCorrected(cfg, data, partMass, hydro)["masses"]) == inBox as real * partMass
  {
    var bxs, bys := InRangeOnly(BinnedX(cfg, data), cfg.binsx), InRangeOnly(BinnedY(cfg, data), cfg.binsy);
    inBox := InBoxCount(cfg, data, |data|);
    CorrectedAcceptsInBox(cfg, data, |data|);
    BinningOfMassTotal(bxs, bys, cfg.binsx, cfg.binsy, |data|, Speeds(data), Densities(data), partMass, hydro, inBox);
  }

  /** A 1 x 1 grid over the unit box and one particle at x = -0.5, half a box
      width to the left: as written it gets index -1, wraps into the only
      cell and adds its mass; corrected it is ignored. */
  lemma WrapCounterexample()
    ensures var cfg, data := GridConfig(1, 1, 0.0, 1.0, 0.0, 1.0), [Particle(-0.5, 0.5, 0.0, 0.0, 0.0)];
      && InBoxCount(cfg, data, 1) == 0
      && BinnedX(cfg, data) == [-1]
      && Total(Binning(cfg, data, 2.0, false)["masses"]) == 2.0
      && Total(BinningCorrected(cfg, data, 2.0, false)["masses"]) == 0.0
  {
    var cfg, data := GridConfig(1, 1, 0.0, 1.0, 0.0, 1.0), [Particle(-0.5, 0.5, 0.0, 0.0, 0.0)];
    assert BinIndex(-0.5, 0.0, 1.0) == -1;
    assert BinIndex(0.5, 0.0, 1.0) == 0;
    assert BinnedX(cfg, data) == [-1];
    assert BinnedY(cfg, data) == [0];
    var accepted := BinnedMassConservation(cfg, data, 2.0, false);
    assert accepted == 1;
    var inBox := CorrectedMassConservation(cfg, data, 2.0, false);
    assert inBox == 0;
  }

  /** Every cell mass is a whole number of particle masses; an empty cell
      reports zero mass, zero speed and (hydro) zero density; with a positive
      particle mass, zero mass means an empty cell. */
  lemma EmptyCellIsZero(cfg: GridConfig, data: seq<Particle>, partMass: real, hydro: bool, i: nat, j: nat)
    requires ConfigError(cfg).None?
    requires i < cfg.binsx && j < cfg.binsy
    ensures var ret := Binning(cfg, data, partMass, hydro);
      var c := CellCount(BinnedX(cfg, data), BinnedY(cfg, data), cfg.binsx, cfg.binsy, |data|, i, j);
      && ret["masses"][i][j] == c as real * partMass
      && (c == 0 ==> ret["masses"][i][j] == 0.0 && ret["velocities"][i][j] == 0.0)
      && (c == 0 && hydro ==> ret["densities"][i][j] == 0.0)
      && (partMass > 0.0 ==> (ret["masses"][i][j] == 0.0 <==> c == 0))
  {
    var bxs, bys := BinnedX(cfg, data), BinnedY(cfg, data);
    var ret := Binning(cfg, data, partMass, hydro);
    var c := CellCount(bxs, bys, cfg.binsx, cfg.binsy, |data|, i, j);
    BinningEntries(cfg, data, partMass, hydro);
    var m := ret["masses"][i][j];
    assert m == c as real * partMass;
    assert ret["velocities"][i][j] == MeanOrZero(CellSum(Speeds(data), bxs, bys, cfg.binsx, cfg.binsy, |data|, i, j), c);
    if hydro {
      assert ret["densities"][i][j] == MeanOrZero(CellSum(Densities(data), bxs, bys, cfg.binsx, cfg.binsy, |data|, i, j), c);
    }
    if partMass > 0.0 && c > 0 {
      assert m > 0.0;
    }
  }

  // ---------------------------------------------------------------------
  // The DataGridder object

  /** A DataGridder after construction: its configuration, the particles
      and masses read from the snapshot header, and the two binnings. */
  datatype DataGrid = DataGrid(
    cfg: GridConfig,
    gas: seq<Particle>,
    star: seq<Particle>,
    gasMass: real,
    starMass: real,
    gasData: map<string, Grid>,
    starData: map<string, Grid>)

  /** The dictionary entries the Toomre map reads, all of the grid's shape. */
  predicate HasGrids(dg: DataGrid)
  {
    && dg.cfg.binsx >= 0 && dg.cfg.binsy >= 0
    && "masses" in dg.gasData && "velocities" in dg.gasData && "densities" in dg.gasData
    && "masses" in dg.starData
    && IsGrid(dg.gasData["masses"], dg.cfg.binsx, dg.cfg.binsy)
    && IsGrid(dg.gasData["velocities"], dg.cfg.binsx, dg.cfg.binsy)
    && IsGrid(dg.gasData["densities"], dg.cfg.binsx, dg.cfg.binsy)
    && IsGrid(dg.starData["masses"], dg.cfg.binsx, dg.cfg.binsy)
  }

  /** The grid was built by binning gas with hydro and stars without. */
  predicate Built(dg: DataGrid)
  {
    && ConfigError(dg.cfg).None?
    && dg.gasData == Binning(dg.cfg, dg.gas, dg.gasMass, true)
    && dg.starData == Binning(dg.cfg, dg.star, dg.starMass, false)
  }

  /** DataGridder.__init__ once the snapshot has been read: gas is binned
      with densities, stars without. */
  method NewDataGrid(cfg: GridConfig, gas: seq<Particle>, star: seq<Particle>, gasMass: real, starMass: real)
    returns (res: Result<DataGrid, GridError>)
    ensures res.Failure? <==> ConfigError(cfg).Some?
    ensures res.Failure? ==> res.error == ConfigError(cfg).value
    ensures res.Success? ==>
      && res.value.cfg == cfg && res.value.gas == gas && res.value.star == star
      && res.value.gasMass == gasMass && res.value.starMass == starMass
      && Built(res.value) && HasGrids(res.value)
  {
    var gasData := BinData(cfg, gas, gasMass, true);
    if gasData.Failure? {
      return Failure(gasData.error);
    }
    // the same configuration, so the second call cannot fail
    var starData := BinData(cfg, star, starMass, false);
    assert starData.Success?;
    res := Success(DataGrid(cfg, gas, star, gasMass, starMass, gasData.value, starData.value));
  }

  // ---------------------------------------------------------------------
  // mean_grid

  /** mean_grid: the mean of each list, or 0 for an empty list. */
  function MeanGrid(grid: seq<seq<real>>): (r: seq<real>)
    ensures |r| == |grid|
    ensures forall i :: 0 <= i < |grid| && |grid[i]| == 0 ==> r[i] == 0.0
    ensures forall i :: 0 <= i < |grid| ==> r[i] * (|grid[i]| as real) == RowSum(grid[i])
  {
    seq(|grid|, i requires 0 <= i < |grid| =>
      if |grid[i]| > 0 then RowSum(grid[i]) / (|grid[i]| as real) else 0.0)
  }

  lemma {:induction false} SumBounds(xs: seq<real>, lo: real, hi: real)
    requires forall k :: 0 <= k < |xs| ==> lo <= xs[k] <= hi
    ensures lo * (|xs| as real) <= RowSum(xs) <= hi * (|xs| as real)
  {
    if xs != [] {
      SumBounds(xs[1..], lo, hi);
    }
  }

  /** Each entry of mean_grid lies between the least and the greatest value
      of its list. */
  lemma MeanGridWithinBounds(grid: seq<seq<real>>, i: nat, lo: real, hi: real)
    requires i < |grid|
    requires forall k :: 0 <= k < |grid[i]| ==> lo <= grid[i][k] <= hi
    requires |grid[i]| > 0
    ensures lo <= MeanGrid(grid)[i] <= hi
  {
    var n := |grid[i]| as real;
    var m := MeanGrid(grid)[i];
    var sum := RowSum(grid[i]);
    SumBounds(grid[i], lo, hi);
    assert m == sum / n;
    QuotientBounds(sum, n, lo, hi);
  }

  /** Dividing by a positive n keeps bounds that hold times n. */
  lemma QuotientBounds(s: real, n: real, lo: real, hi: real)
    requires n > 0.0 && lo * n <= s <= hi * n
    ensures lo <= s / n <= hi
  {
  }
}
