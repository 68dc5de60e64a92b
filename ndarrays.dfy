/**
 * The part of numpy's n-dimensional array the visualiser relies on: a shape,
 * the elements in row-major order, element-wise application of a function,
 * `full` for broadcasting a scalar, and two-dimensional indexing.
 * A 0-dimensional array (shape []) holds exactly one element: it stands both
 * for a Python/numpy scalar and for an array with `ndim == 0`.
 */
module NdArrays {

  /** Number of elements of an array of the given shape: the product of the extents (1 for rank 0). */
  function Size(shape: seq<nat>): nat {
    if shape == [] then 1 else shape[0] * Size(shape[1..])
  }

  datatype NdArray<T> = NdArray(shape: seq<nat>, data: seq<T>)

  /** A well-formed array: exactly as many elements as its shape describes. */
  type Array<T> = a: NdArray<T> | |a.data| == Size(a.shape) witness NdArray([0], [])

  lemma SizeOfVector(n: nat)
    ensures Size([n]) == n
  {
    assert [n][1..] == [];
  }

  lemma SizeOfMatrix(shape: seq<nat>)
    requires |shape| == 2
    ensures Size(shape) == shape[0] * shape[1]
  {
    assert shape[1..][1..] == [];
    assert Size(shape[1..]) == shape[1];
  }

  /** A scalar, i.e. an array of rank 0. */
  function Scalar<T>(v: T): (r: Array<T>)
    ensures r.shape == [] && r.data == [v]
  {
    NdArray([], [v])
  }

  /** numpy's `full(shape, v)`: an array of the given shape in which every element is v. */
  function Full<T>(shape: seq<nat>, v: T): (r: Array<T>)
    ensures r.shape == shape && |r.data| == Size(shape)
    ensures forall i | 0 <= i < |r.data| :: r.data[i] == v
  {
    NdArray(shape, seq(Size(shape), _ => v))
  }

  /**
   * A numpy element-wise operation (a ufunc such as `abs` or `angle`, or
   * arithmetic with scalars): same shape, g applied to every element.
   */
  function MapElements<T, U>(a: Array<T>, g: T --> U): (r: Array<U>)
    requires forall i | 0 <= i < |a.data| :: g.requires(a.data[i])
    ensures r.shape == a.shape
    ensures forall i | 0 <= i < |a.data| :: r.data[i] == g(a.data[i])
  {
    NdArray(a.shape, seq(|a.data|, i requires 0 <= i < |a.data| && g.requires(a.data[i]) => g(a.data[i])))
  }

  /** Element (i, j) of a two-dimensional array, stored at offset i * columns + j. */
  function At<T>(a: Array<T>, i: nat, j: nat): T
    requires |a.shape| == 2 && i < a.shape[0] && j < a.shape[1]
  {
    SizeOfMatrix(a.shape);
    OffsetInRange(i, j, a.shape[0], a.shape[1]);
    a.data[i * a.shape[1] + j]
  }

  /** Two arrays of one 2-D shape store element (i, j) at the same offset. */
  lemma AtOffset<T, U>(a: Array<T>, b: Array<U>, i: nat, j: nat) returns (k: nat)
    requires |a.shape| == 2 && a.shape == b.shape && i < a.shape[0] && j < a.shape[1]
    ensures k < |a.data| && k < |b.data| && At(a, i, j) == a.data[k] && At(b, i, j) == b.data[k]
  {
    SizeOfMatrix(a.shape);
    OffsetInRange(i, j, a.shape[0], a.shape[1]);
    k := i * a.shape[1] + j;
  }

  lemma {:induction false} OffsetInRange(i: nat, j: nat, rows: nat, cols: nat)
    requires i < rows && j < cols
    ensures i * cols + j < rows * cols
  {
    if i + 1 < rows {
      OffsetInRange(i, j, rows - 1, cols);
      assert (rows - 1) * cols + cols == rows * cols;
    } else {
      assert i * cols + cols == rows * cols;
    }
  }

  /** An offset into an m x m matrix is row i, column j for some i, j < m. */
  lemma RowMajorIndex(k: nat, m: nat) returns (i: nat, j: nat)
    requires k < m * m
    ensures i < m && j < m && k == i * m + j
  {
    assert m != 0;
    i, j := k / m, k % m;
    assert i * m <= k;
    FactorBelow(i, m);
  }

  lemma FactorBelow(x: nat, m: nat)
    requires x * m < m * m
    ensures x < m
  {
  }

  /** The rows laid end to end, which is how numpy stores a C-ordered matrix. */
  function Flatten<T>(rows: seq<seq<T>>): seq<T> {
    if rows == [] then [] else rows[0] + Flatten(rows[1..])
  }

  lemma {:induction false} FlattenLength<T>(rows: seq<seq<T>>, cols: nat)
    requires forall i | 0 <= i < |rows| :: |rows[i]| == cols
    ensures |Flatten(rows)| == |rows| * cols
  {
    if rows != [] {
      FlattenLength(rows[1..], cols);
      assert (|rows| - 1) * cols + cols == |rows| * cols;
    }
  }

  lemma {:induction false} FlattenAt<T>(rows: seq<seq<T>>, cols: nat, i: nat, j: nat)
    requires forall k | 0 <= k < |rows| :: |rows[k]| == cols
    requires i < |rows| && j < cols
    ensures i * cols + j < |Flatten(rows)|
    ensures Flatten(rows)[i * cols + j] == rows[i][j]
  {
    FlattenLength(rows, cols);
    OffsetInRange(i, j, |rows|, cols);
    if i > 0 {
      FlattenAt(rows[1..], cols, i - 1, j);
      assert (i - 1) * cols + j + cols == i * cols + j;
    }
  }

  /**
   * A two-dimensional array of shape [|rows|, cols] built from equally long
   * rows; element (i, j) is rows[i][j].
   */
  function FromRows<T>(rows: seq<seq<T>>, cols: nat): (r: Array<T>)
    requires forall i | 0 <= i < |rows| :: |rows[i]| == cols
    ensures r.shape == [|rows|, cols]
    ensures forall i, j | 0 <= i < |rows| && 0 <= j < cols :: At(r, i, j) == rows[i][j]
  {
    FlattenLength(rows, cols);
    SizeOfMatrix([|rows|, cols]);
    var r: Array<T> := NdArray([|rows|, cols], Flatten(rows));
    assert forall i, j | 0 <= i < |rows| && 0 <= j < cols :: At(r, i, j) == rows[i][j] by {
      forall i, j | 0 <= i < |rows| && 0 <= j < cols {
        FlattenAt(rows, cols, i, j);
      }
    }
    r
  }
}
