/** Dense real matrices and vectors, standing in for the `ndarray` operations the
    network engine uses (`dot`, `t`, broadcast `+`, elementwise `*` and `-`,
    `mean_axis(Axis(0))`).

    Every operation here is total: a dot product stops at the shorter operand and
    an entry read out of range is 0.0. ndarray panics on mismatched shapes
    instead; the methods of the engine rule those out by their preconditions, so
    the totalised entries are never reached from a well-shaped call. */
module Matrices {

  type Vector = seq<real>
  type Matrix = seq<Vector>

  /** `m` has `rows` rows of `cols` entries each. */
  predicate IsMatrix(m: Matrix, rows: nat, cols: nat) {
    |m| == rows && forall i :: 0 <= i < |m| ==> |m[i]| == cols
  }

  /** Two matrices have the same number of rows and the same row lengths. */
  predicate SameShape(a: Matrix, b: Matrix) {
    |a| == |b| && forall i :: 0 <= i < |a| ==> |a[i]| == |b[i]|
  }

  /** Entry `j` of `v`, or 0.0 when `j` is out of range. */
  function Get(v: Vector, j: int): real {
    if 0 <= j < |v| then v[j] else 0.0
  }

  /** Entry `(i, j)` of `m`, or 0.0 when it is out of range. */
  function At(m: Matrix, i: int, j: int): real {
    if 0 <= i < |m| then Get(m[i], j) else 0.0
  }

  /** Sum of the entries, left to right (`Iterator::sum`). */
  function Sum(v: Vector): real
    decreases |v|
  {
    if |v| == 0 then 0.0 else v[0] + Sum(v[1..])
  }

  /** Inner product over the common prefix of `u` and `v`. */
  function Dot(u: Vector, v: Vector): real
    decreases |u|
  {
    if |u| == 0 || |v| == 0 then 0.0 else u[0] * v[0] + Dot(u[1..], v[1..])
  }

  /** Column `j` of `m`: one entry per row. */
  function Column(m: Matrix, j: int): (c: Vector)
    ensures |c| == |m|
  {
    seq(|m|, i requires 0 <= i < |m| => Get(m[i], j))
  }

  /** Transpose of a matrix with `cols` columns (`m.t()`): `cols` rows of `|m|` entries. */
  function Transpose(m: Matrix, cols: nat): (t: Matrix)
    ensures IsMatrix(t, cols, |m|)
  {
    seq(cols, j => Column(m, j))
  }

  /** Transposing twice gives the rows back: column `j` of `mᵀ` is row `j` of `m`. */
  lemma ColumnOfTranspose(m: Matrix, cols: nat, j: nat)
    requires IsMatrix(m, |m|, cols) && j < |m|
    ensures Column(Transpose(m, cols), j) == m[j]
  {
    var c := Column(Transpose(m, cols), j);
    forall i | 0 <= i < cols
      ensures c[i] == m[j][i]
    {
      assert Transpose(m, cols)[i] == Column(m, i);
    }
  }

  /** Matrix product `a.dot(b)` where `b` has `cols` columns. */
  function MatMul(a: Matrix, b: Matrix, cols: nat): (p: Matrix)
    ensures IsMatrix(p, |a|, cols)
  {
    seq(|a|, i requires 0 <= i < |a| => seq(cols, j => Dot(a[i], Column(b, j))))
  }

  /** `m + v`: the vector `v` added to every row (ndarray broadcasting). */
  function AddRow(m: Matrix, v: Vector): (r: Matrix)
    ensures IsMatrix(r, |m|, |v|)
  {
    seq(|m|, i requires 0 <= i < |m| => seq(|v|, j requires 0 <= j < |v| => Get(m[i], j) + v[j]))
  }

  /** Elementwise product `a * b`, shaped like `a`. */
  function Hadamard(a: Matrix, b: Matrix): (r: Matrix)
    ensures SameShape(r, a)
  {
    seq(|a|, i requires 0 <= i < |a| => seq(|a[i]|, j requires 0 <= j < |a[i]| => a[i][j] * At(b, i, j)))
  }

  /** Elementwise difference `a - b`, shaped like `a`. */
  function Minus(a: Matrix, b: Matrix): (r: Matrix)
    ensures SameShape(r, a)
  {
    seq(|a|, i requires 0 <= i < |a| => seq(|a[i]|, j requires 0 <= j < |a[i]| => a[i][j] - At(b, i, j)))
  }

  /** Gradient-descent step on a matrix, `a - lr * g`, shaped like `a`. */
  function StepMatrix(a: Matrix, g: Matrix, lr: real): (r: Matrix)
    ensures SameShape(r, a)
  {
    seq(|a|, i requires 0 <= i < |a| => seq(|a[i]|, j requires 0 <= j < |a[i]| => a[i][j] - lr * At(g, i, j)))
  }

  /** Gradient-descent step on a vector, `v - lr * g`. */
  function StepVector(v: Vector, g: Vector, lr: real): (r: Vector)
    ensures |r| == |v|
  {
    seq(|v|, j requires 0 <= j < |v| => v[j] - lr * Get(g, j))
  }

  /** `m.mean_axis(Axis(0)).unwrap()` for a matrix with `cols` columns: the mean of
      each column. ndarray returns None on zero rows, and the unwrap panics. */
  function MeanRows(m: Matrix, cols: nat): (r: Vector)
    requires |m| > 0
    ensures |r| == cols
  {
    seq(cols, j => Sum(Column(m, j)) / (|m| as real))
  }

  /** Row-major flattening: the rows one after another (`iter()` on a standard-layout array). */
  function Flatten(m: Matrix): (r: Vector)
    decreases |m|
  {
    if |m| == 0 then [] else m[0] + Flatten(m[1..])
  }

  /** `v` with every entry divided by `d`. */
  function Divide(v: Vector, d: real): (r: Vector)
    requires d != 0.0
    ensures |r| == |v|
  {
    seq(|v|, i requires 0 <= i < |v| => v[i] / d)
  }

  /** Entry `(i, j)` of a product is the dot product of row `i` of `a` with column `j` of `b`. */
  lemma MatMulEntry(a: Matrix, b: Matrix, cols: nat, i: nat, j: nat)
    requires i < |a| && j < cols
    ensures MatMul(a, b, cols)[i][j] == Dot(a[i], Column(b, j))
  {
  }

  /** The weight gradient `hᵀ·g` sums, over the rows of the batch, the product of
      input column `i` with gradient column `j`. */
  lemma {:induction false} TransposeProductEntry(h: Matrix, g: Matrix, inCols: nat, outCols: nat, i: nat, j: nat)
    requires i < inCols && j < outCols
    ensures MatMul(Transpose(h, inCols), g, outCols)[i][j] == Dot(Column(h, i), Column(g, j))
  {
    assert Transpose(h, inCols)[i] == Column(h, i);
  }

  /** Dividing every entry by `d` divides the sum by `d`. */
  lemma {:induction false} SumDivide(v: Vector, d: real)
    requires d != 0.0
    ensures Sum(Divide(v, d)) == Sum(v) / d
    decreases |v|
  {
    if |v| > 0 {
      assert Divide(v, d)[1..] == Divide(v[1..], d);
      SumDivide(v[1..], d);
      DivideAdd(v[0], Sum(v[1..]), d);
    }
  }

  /** Division by a non-zero real distributes over addition. */
  lemma DivideAdd(a: real, b: real, d: real)
    requires d != 0.0
    ensures a / d + b / d == (a + b) / d
  {
  }

  /** A non-empty vector of positive entries has a positive sum. */
  lemma {:induction false} SumPositive(v: Vector)
    requires |v| > 0
    requires forall i :: 0 <= i < |v| ==> v[i] > 0.0
    ensures Sum(v) > 0.0
    decreases |v|
  {
    if |v| > 1 {
      SumPositive(v[1..]);
    }
  }

  /** Flattening a matrix with `cols` columns lists entry `(i, j)` at position `i * cols + j`. */
  lemma {:induction false} FlattenEntry(m: Matrix, rows: nat, cols: nat, i: nat, j: nat)
    requires IsMatrix(m, rows, cols) && i < rows && j < cols
    ensures |Flatten(m)| == rows * cols
    ensures i * cols + j < rows * cols && Flatten(m)[i * cols + j] == m[i][j]
    decreases rows
  {
    FlattenLength(m, rows, cols);
    RowMajorBound(rows, cols, i, j);
    var rest := Flatten(m[1..]);
    assert Flatten(m) == m[0] + rest;
    if i > 0 {
      assert IsMatrix(m[1..], rows - 1, cols);
      FlattenEntry(m[1..], rows - 1, cols, i - 1, j);
      RowMajorNext(cols, i, j);
    }
  }

  /** Position `i * cols + j` of a row-major layout lies inside `rows * cols`. */
  lemma RowMajorBound(rows: nat, cols: nat, i: nat, j: nat)
    requires i < rows && j < cols
    ensures i * cols + j < rows * cols
  {
    assert i * cols + j < (i + 1) * cols;
    assert (i + 1) * cols <= rows * cols;
  }

  /** Row `i` of a row-major layout starts one row after row `i - 1`. */
  lemma RowMajorNext(cols: nat, i: nat, j: nat)
    requires i > 0
    ensures i * cols + j == cols + ((i - 1) * cols + j)
  {
  }

  /** A `rows` × `cols` matrix flattens to `rows * cols` entries. */
  lemma {:induction false} FlattenLength(m: Matrix, rows: nat, cols: nat)
    requires IsMatrix(m, rows, cols)
    ensures |Flatten(m)| == rows * cols
    decreases rows
  {
    if rows > 0 {
      FlattenLength(m[1..], rows - 1, cols);
      assert rows * cols == cols + (rows - 1) * cols;
    }
  }
}
