/** Two-dimensional numpy arrays of floats, read as values (row i, column j),
    and the few whole-array numpy operations the core uses on them. */
module Grids {

  type Grid = seq<seq<real>>

  /** `g` has numpy shape `(rows, cols)`. */
  predicate IsGrid(g: Grid, rows: nat, cols: nat)
  {
    |g| == rows && forall i :: 0 <= i < rows ==> |g[i]| == cols
  }

  predicate SameShape(a: Grid, b: Grid)
  {
    |a| == |b| && forall i :: 0 <= i < |a| ==> |a[i]| == |b[i]|
  }

  /** The value of an array, cell by cell. */
  function ToGrid(a: array2<real>): (g: Grid)
    reads a
    ensures IsGrid(g, a.Length0, a.Length1)
    ensures forall i, j :: 0 <= i < a.Length0 && 0 <= j < a.Length1 ==> g[i][j] == a[i, j]
  {
    seq(a.Length0, i reads a => seq(a.Length1, j reads a =>
      if 0 <= i < a.Length0 && 0 <= j < a.Length1 then a[i, j] else 0.0))
  }

  /** `a * c` for an array `a` and a scalar `c`. */
  function Scale(g: Grid, c: real): (r: Grid)
    ensures SameShape(r, g)
    ensures forall i, j :: 0 <= i < |g| && 0 <= j < |g[i]| ==> r[i][j] == g[i][j] * c
  {
    seq(|g|, i requires 0 <= i < |g| => seq(|g[i]|, j requires 0 <= j < |g[i]| => g[i][j] * c))
  }

  /** `a + b` elementwise, for two arrays of one shape. */
  function Add(a: Grid, b: Grid): (r: Grid)
    requires SameShape(a, b)
    ensures SameShape(r, a)
    ensures forall i, j :: 0 <= i < |a| && 0 <= j < |a[i]| ==> r[i][j] == a[i][j] + b[i][j]
  {
    seq(|a|, i requires 0 <= i < |a| => seq(|a[i]|, j requires 0 <= j < |a[i]| => a[i][j] + b[i][j]))
  }

  /** `a / b` elementwise, for a divisor with no zero cell. */
  function Divide(a: Grid, b: Grid): (r: Grid)
    requires SameShape(a, b)
    requires forall i, j :: 0 <= i < |b| && 0 <= j < |b[i]| ==> b[i][j] != 0.0
    ensures SameShape(r, a)
    ensures forall i, j :: 0 <= i < |a| && 0 <= j < |a[i]| ==> r[i][j] * b[i][j] == a[i][j]
  {
    seq(|a|, i requires 0 <= i < |a| => seq(|a[i]|, j requires 0 <= j < |a[i]| => a[i][j] / b[i][j]))
  }

  /** Two grids of one shape that agree in every cell are equal. */
  lemma GridExtensionality(a: Grid, b: Grid, rows: nat, cols: nat)
    requires IsGrid(a, rows, cols) && IsGrid(b, rows, cols)
    requires forall i, j :: 0 <= i < rows && 0 <= j < cols ==> a[i][j] == b[i][j]
    ensures a == b
  {
    forall i | 0 <= i < rows
      ensures a[i] == b[i]
    {
      assert forall j :: 0 <= j < cols ==> a[i][j] == b[i][j];
    }
  }

  /** Sum of a row or a list, as Python's `sum` and numpy's row sums; in
      exact arithmetic the order of the additions does not matter. */
  function RowSum(r: seq<real>): real
  {
    if r == [] then 0.0 else r[0] + RowSum(r[1..])
  }

  /** Sum of every cell, as `np.sum` of a 2D array. */
  function Total(g: Grid): real
  {
    if g == [] then 0.0 else RowSum(g[0]) + Total(g[1..])
  }

  lemma {:induction false} RowSumUpdate(r: seq<real>, b: nat, x: real)
    requires b < |r|
    ensures RowSum(r[b := x]) == RowSum(r) - r[b] + x
  {
    if b == 0 {
      assert r[b := x][1..] == r[1..];
    } else {
      assert r[b := x][1..] == r[1..][b - 1 := x];
      RowSumUpdate(r[1..], b - 1, x);
    }
  }

  lemma {:induction false} TotalRowUpdate(g: Grid, a: nat, row: seq<real>)
    requires a < |g|
    ensures Total(g[a := row]) == Total(g) - RowSum(g[a]) + RowSum(row)
  {
    if a == 0 {
      assert g[a := row][1..] == g[1..];
    } else {
      assert g[a := row][1..] == g[1..][a - 1 := row];
      TotalRowUpdate(g[1..], a - 1, row);
    }
  }

  /** Adding `d` to one cell adds `d` to the total. */
  lemma TotalPointAdd(g: Grid, a: nat, b: nat, d: real)
    requires a < |g| && b < |g[a]|
    ensures Total(g[a := g[a][b := g[a][b] + d]]) == Total(g) + d
  {
    var row := g[a][b := g[a][b] + d];
    RowSumUpdate(g[a], b, g[a][b] + d);
    assert RowSum(row) == RowSum(g[a]) + d;
    TotalRowUpdate(g, a, row);
  }

  lemma {:induction false} RowSumZeros(r: seq<real>)
    requires forall j :: 0 <= j < |r| ==> r[j] == 0.0
    ensures RowSum(r) == 0.0
  {
    if r != [] {
      RowSumZeros(r[1..]);
    }
  }

  lemma {:induction false} TotalZeros(g: Grid)
    requires forall i, j :: 0 <= i < |g| && 0 <= j < |g[i]| ==> g[i][j] == 0.0
    ensures Total(g) == 0.0
  {
    if g != [] {
      RowSumZeros(g[0]);
      TotalZeros(g[1..]);
    }
  }

  lemma {:induction false} RowSumScaled(r: seq<real>, s: seq<real>, c: real)
    requires |s| == |r| && forall j :: 0 <= j < |r| ==> s[j] == r[j] * c
    ensures RowSum(s) == RowSum(r) * c
  {
    if r != [] {
      RowSumScaled(r[1..], s[1..], c);
      var x, rest := r[0], RowSum(r[1..]);
      assert (x + rest) * c == x * c + rest * c;
    }
  }

  /** A grid whose every cell is `c` times the matching cell of `g` has
      `c` times the total of `g`. */
  lemma {:induction false} TotalScaled(g: Grid, h: Grid, c: real)
    requires SameShape(h, g)
    requires forall i, j :: 0 <= i < |g| && 0 <= j < |g[i]| ==> h[i][j] == g[i][j] * c
    ensures Total(h) == Total(g) * c
  {
    if g != [] {
      assert forall j :: 0 <= j < |g[0]| ==> h[0][j] == g[0][j] * c;
      RowSumScaled(g[0], h[0], c);
      var g', h' := g[1..], h[1..];
      assert forall i :: 0 <= i < |g'| ==> g'[i] == g[i + 1] && h'[i] == h[i + 1];
      TotalScaled(g', h', c);
      var row, rest := RowSum(g[0]), Total(g');
      assert (row + rest) * c == row * c + rest * c;
    }
  }

  /** `np.sum(a * c) == np.sum(a) * c`. */
  lemma TotalScale(g: Grid, c: real)
    ensures Total(Scale(g, c)) == Total(g) * c
  {
    TotalScaled(g, Scale(g, c), c);
  }

  /** `np.zeros((rows, cols))`. */
  method Zeros(rows: nat, cols: nat) returns (a: array2<real>)
    ensures fresh(a) && a.Length0 == rows && a.Length1 == cols
    ensures forall i, j :: 0 <= i < rows && 0 <= j < cols ==> a[i, j] == 0.0
  {
    a := new real[rows, cols]((i, j) => 0.0);
  }

  /** `np.array(g)`: a fresh array holding the grid. */
  method ToArray(g: Grid, rows: nat, cols: nat) returns (a: array2<real>)
    requires IsGrid(g, rows, cols)
    ensures fresh(a) && a.Length0 == rows && a.Length1 == cols
    ensures forall i, j :: 0 <= i < rows && 0 <= j < cols ==> a[i, j] == g[i][j]
  {
    a := new real[rows, cols]((i, j) => if 0 <= i < |g| && 0 <= j < |g[i]| then g[i][j] else 0.0);
  }

  /** `a += b` for two arrays of one shape. */
  method AddInto(a: array2<real>, b: array2<real>)
    requires a != b && a.Length0 == b.Length0 && a.Length1 == b.Length1
    modifies a
    ensures forall i, j :: 0 <= i < a.Length0 && 0 <= j < a.Length1 ==> a[i, j] == old(a[i, j]) + b[i, j]
  {
    forall i, j | 0 <= i < a.Length0 && 0 <= j < a.Length1 {
      a[i, j] := a[i, j] + b[i, j];
    }
  }

  /** `a[a == 0] = x`: every zero cell becomes `x`, every other cell keeps its value. */
  method ReplaceZeros(a: array2<real>, x: real)
    modifies a
    ensures forall i, j :: 0 <= i < a.Length0 && 0 <= j < a.Length1 ==>
      a[i, j] == if old(a[i, j]) == 0.0 then x else old(a[i, j])
  {
    forall i, j | 0 <= i < a.Length0 && 0 <= j < a.Length1 && a[i, j] == 0.0 {
      a[i, j] := x;
    }
  }
}
