/** survis/helper.py: the grid resolution for a smoothing length, and the
    masked Toomre map of a DataGridder. */
module Helper {
  import opened Results
  import opened Grids
  import opened Preprocess
  import opened Toomre

  // ---------------------------------------------------------------------
  // get_res

  /** `int(x)` of a float: truncation toward zero. */
  function Trunc(x: real): (n: int)
    ensures x >= 0.0 ==> 0 <= n && n as real <= x < n as real + 1.0
    ensures x < 0.0 ==> n <= 0 && n as real - 1.0 < x <= n as real
  {
    if x >= 0.0 then x.Floor else -((-x).Floor)
  }

  /** An axis of a bounding box, `[min, max]`. */
  datatype Interval = Interval(lo: real, hi: real)

  /** get_res as written: the inner `res` ignores its `bbox` argument and
      reads `bbox_x`, so both entries come from the x extent. A zero
      smoothing length raises, which is None here. */
  function GetRes(smoothing: real, bboxX: Interval, bboxY: Interval): (r: Option<seq<int>>)
    ensures r.None? <==> smoothing == 0.0
    ensures r.Some? ==> |r.value| == 2 && r.value[0] == r.value[1]
    ensures r.Some? ==> r.value[0] == Trunc((bboxX.hi - bboxX.lo) / smoothing)
  {
    if smoothing == 0.0 then None
    else
      var res := (bbox: Interval, sm: real) requires sm != 0.0 => Trunc((bboxX.hi - bboxX.lo) / sm);
      Some([res(bboxX, smoothing), res(bboxY, smoothing)])
  }

  /** Neither entry of get_res as written depends on the y extent. */
  lemma GetResIgnoresY(smoothing: real, bboxX: Interval, bboxY1: Interval, bboxY2: Interval)
    ensures GetRes(smoothing, bboxX, bboxY1) == GetRes(smoothing, bboxX, bboxY2)
  {
  }

  /** The number of whole cells of width `sm` an axis holds, truncated
      toward zero for a reversed axis or a negative width. */
  function Cells(axis: Interval, sm: real): int
    requires sm != 0.0
  {
    Trunc((axis.hi - axis.lo) / sm)
  }

  /** For a positive smoothing length and a non-empty axis, `Cells` is the
      largest number of cells of that width that fit on the axis. */
  lemma CellsFit(axis: Interval, sm: real)
    requires sm > 0.0 && axis.lo <= axis.hi
    ensures 0 <= Cells(axis, sm)
    ensures Cells(axis, sm) as real * sm <= axis.hi - axis.lo < (Cells(axis, sm) + 1) as real * sm
  {
    var w := axis.hi - axis.lo;
    var t := w / sm;
    var n := Cells(axis, sm);
    assert t * sm == w;
    assert t >= 0.0;
    assert n as real <= t < n as real + 1.0;
    assert n as real * sm <= t * sm;
    var m := (n + 1) as real;
    assert m == n as real + 1.0;
    assert t * sm < m * sm;
    assert w < m * sm;
  }

  /** get_res as evidently intended: the x entry from the x extent, the y
      entry from the y extent. */
  function GetResCorrected(smoothing: real, bboxX: Interval, bboxY: Interval): (r: Option<seq<int>>)
    ensures r.None? <==> smoothing == 0.0
    ensures r.Some? ==> |r.value| == 2
    ensures r.Some? && smoothing > 0.0 && bboxX.lo <= bboxX.hi ==>
      0 <= r.value[0] && r.value[0] as real * smoothing <= bboxX.hi - bboxX.lo < (r.value[0] + 1) as real * smoothing
    ensures r.Some? && smoothing > 0.0 && bboxY.lo <= bboxY.hi ==>
      0 <= r.value[1] && r.value[1] as real * smoothing <= bboxY.hi - bboxY.lo < (r.value[1] + 1) as real * smoothing
  {
    if smoothing == 0.0 then None
    else
      var x, y := Cells(bboxX, smoothing), Cells(bboxY, smoothing);
      assert smoothing > 0.0 && bboxX.lo <= bboxX.hi ==>
        0 <= x && x as real * smoothing <= bboxX.hi - bboxX.lo < (x + 1) as real * smoothing by {
        if smoothing > 0.0 && bboxX.lo <= bboxX.hi { CellsFit(bboxX, smoothing); }
      }
      assert smoothing > 0.0 && bboxY.lo <= bboxY.hi ==>
        0 <= y && y as real * smoothing <= bboxY.hi - bboxY.lo < (y + 1) as real * smoothing by {
        if smoothing > 0.0 && bboxY.lo <= bboxY.hi { CellsFit(bboxY, smoothing); }
      }
      Some([x, y])
  }

  /** The two agree exactly when the box's two axes give the same number of
      cells; they agree on the x entry always. */
  lemma GetResAgreesOnX(smoothing: real, bboxX: Interval, bboxY: Interval)
    requires smoothing != 0.0
    ensures GetRes(smoothing, bboxX, bboxY).value[0] == GetResCorrected(smoothing, bboxX, bboxY).value[0]
    ensures GetRes(smoothing, bboxX, bboxY) == GetResCorrected(smoothing, bboxX, bboxY)
      <==> Cells(bboxX, smoothing) == Cells(bboxY, smoothing)
  {
    assert GetRes(smoothing, bboxX, bboxY).value == [Cells(bboxX, smoothing), Cells(bboxX, smoothing)];
  }

  /** A 10 x 20 box with unit smoothing: the code as written reports 10 cells
      on the y axis instead of 20. */
  lemma GetResCounterexample()
    ensures GetRes(1.0, Interval(0.0, 10.0), Interval(0.0, 20.0)) == Some([10, 10])
    ensures GetResCorrected(1.0, Interval(0.0, 10.0), Interval(0.0, 20.0)) == Some([10, 20])
  {
    assert Trunc(10.0) == 10;
    assert Trunc(20.0) == 20;
  }

  // ---------------------------------------------------------------------
  // get_toomre_Q

  /** A numpy masked array: the values and, cell by cell, whether the cell
      is masked. */
  datatype MaskedGrid = MaskedGrid(data: Grid, mask: seq<seq<bool>>)

  /** The gas plus stellar mass of every cell, the surface density the
      Toomre map uses. */
  function SurfaceDensityGrid(dg: DataGrid): (sd: Grid)
    requires HasGrids(dg)
    ensures IsGrid(sd, dg.cfg.binsx, dg.cfg.binsy)
    ensures forall i, j :: 0 <= i < dg.cfg.binsx && 0 <= j < dg.cfg.binsy ==>
      sd[i][j] == dg.gasData["masses"][i][j] + dg.starData["masses"][i][j]
  {
    Add(dg.gasData["masses"], dg.starData["masses"])
  }

  /** get_toomre_Q: Q_gas with the gas speeds as kappa, the gas densities
      and the summed masses as surface density, masked where Q is 0. The
      masked cells are exactly those with no mass, zero sound speed or zero
      gas speed; on a built grid, every cell without gas is masked. */
  method GetToomreQ(dg: DataGrid, sound: Grid -> Grid) returns (q: MaskedGrid)
    requires HasGrids(dg)
    requires IsGrid(sound(dg.gasData["densities"]), dg.cfg.binsx, dg.cfg.binsy)
    ensures IsGrid(q.data, dg.cfg.binsx, dg.cfg.binsy)
    ensures |q.mask| == dg.cfg.binsx && forall i :: 0 <= i < dg.cfg.binsx ==> |q.mask[i]| == dg.cfg.binsy
    ensures forall i, j :: 0 <= i < dg.cfg.binsx && 0 <= j < dg.cfg.binsy ==>
      q.data[i][j] == QCell(sound(dg.gasData["densities"])[i][j], dg.gasData["velocities"][i][j],
                            SurfaceDensityGrid(dg)[i][j], GravConst)
    ensures forall i, j :: 0 <= i < dg.cfg.binsx && 0 <= j < dg.cfg.binsy ==>
      (q.mask[i][j] <==> q.data[i][j] == 0.0)
    ensures forall i, j :: 0 <= i < dg.cfg.binsx && 0 <= j < dg.cfg.binsy ==>
      (q.mask[i][j] <==> SurfaceDensityGrid(dg)[i][j] == 0.0
                         || sound(dg.gasData["densities"])[i][j] == 0.0
                         || dg.gasData["velocities"][i][j] == 0.0)
    ensures Built(dg) ==> forall i, j :: 0 <= i < dg.cfg.binsx && 0 <= j < dg.cfg.binsy ==>
      CellCount(BinnedX(dg.cfg, dg.gas), BinnedY(dg.cfg, dg.gas), dg.cfg.binsx, dg.cfg.binsy, |dg.gas|, i, j) == 0
      ==> q.mask[i][j]
  {
    var nbx, nby := dg.cfg.binsx as nat, dg.cfg.binsy as nat;
    var gasV, gasD := dg.gasData["velocities"], dg.gasData["densities"];
    var sd := SurfaceDensityGrid(dg);
    var data := QGas(sound, gasV, gasD, sd, GravConst, nbx, nby);
    var mask := seq(nbx, i requires 0 <= i < nbx => seq(nby, j requires 0 <= j < nby => data[i][j] == 0.0));
    forall i, j | 0 <= i < nbx && 0 <= j < nby
      ensures mask[i][j] <==> sd[i][j] == 0.0 || sound(gasD)[i][j] == 0.0 || gasV[i][j] == 0.0
    {
      QCellZeroIff(sound(gasD)[i][j], gasV[i][j], sd[i][j], GravConst);
    }
    if Built(dg) {
      forall i, j | 0 <= i < nbx && 0 <= j < nby
        ensures CellCount(BinnedX(dg.cfg, dg.gas), BinnedY(dg.cfg, dg.gas), nbx, nby, |dg.gas|, i, j) == 0 ==> mask[i][j]
      {
        EmptyCellIsZero(dg.cfg, dg.gas, dg.gasMass, true, i, j);
      }
    }
    q := MaskedGrid(data, mask);
  }
}
