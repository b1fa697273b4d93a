/** Tensors as the pipeline sees them: real-valued vectors, the per-channel
    maximum of absolute values, the lower clamp, and the row view of a weight
    matrix. Floating point is modelled by `real`. */
module Tensors {

  type Vec = seq<real>

  /** The lower bound both statistics are clamped to before smoothing. */
  const Eps: real := 0.00001

  function Abs(x: real): real { if x < 0.0 then -x else x }

  predicate HasWidth(rows: seq<Vec>, width: nat)
  {
    forall r :: 0 <= r < |rows| ==> |rows[r]| == width
  }

  function Product(dims: seq<nat>): nat
  {
    if dims == [] then 1 else dims[0] * Product(dims[1..])
  }

  /** A tensor's shape, and its elements viewed as `(-1, shape[-1])`: one row
      per index of the leading dimensions, `shape[-1]` entries each. */
  datatype TensorRep = TensorRep(shape: seq<nat>, rows: seq<Vec>)

  predicate Rectangular(t: TensorRep)
  {
    |t.shape| == 0 ||
    (|t.rows| == Product(t.shape[..|t.shape| - 1]) && HasWidth(t.rows, t.shape[|t.shape| - 1]))
  }

  type Tensor = t: TensorRep | Rectangular(t) witness TensorRep([], [])

  /** A row holding the largest |rows[r][c]| in column `c` (the first such). */
  function ArgMaxAbs(rows: seq<Vec>, c: nat): (r: nat)
    requires |rows| > 0
    requires forall r :: 0 <= r < |rows| ==> c < |rows[r]|
    ensures r < |rows|
    ensures forall q :: 0 <= q < |rows| ==> Abs(rows[q][c]) <= Abs(rows[r][c])
    decreases |rows|
  {
    if |rows| == 1 then 0
    else
      var rest := ArgMaxAbs(rows[1..], c) + 1;
      assert forall q :: 1 <= q < |rows| ==> rows[q] == rows[1..][q - 1];
      if Abs(rows[0][c]) >= Abs(rows[rest][c]) then 0 else rest
  }

  /** `x.abs().max(dim=0)[0]` for rows of equal width: per channel, the largest
      absolute value found in that channel, attained at row `ArgMaxAbs`. */
  function ChannelMaxAbs(rows: seq<Vec>, width: nat): (m: Vec)
    requires |rows| > 0 && HasWidth(rows, width)
    ensures |m| == width
    ensures forall r, c :: 0 <= r < |rows| && 0 <= c < width ==> Abs(rows[r][c]) <= m[c]
    ensures forall c :: 0 <= c < width ==> m[c] == Abs(rows[ArgMaxAbs(rows, c)][c])
  {
    seq(width, c requires 0 <= c < width => Abs(rows[ArgMaxAbs(rows, c)][c]))
  }

  /** `torch.clamp(v, min=lo)`: every entry at least `lo`, entries already
      at least `lo` untouched, the others raised to exactly `lo`. */
  function ClampMin(v: Vec, lo: real): (r: Vec)
    ensures |r| == |v|
    ensures forall i :: 0 <= i < |v| ==> lo <= r[i]
    ensures forall i :: 0 <= i < |v| && lo <= v[i] ==> r[i] == v[i]
    ensures forall i :: 0 <= i < |v| && v[i] < lo ==> r[i] == lo
  {
    seq(|v|, i requires 0 <= i < |v| => if v[i] < lo then lo else v[i])
  }

  /** The rows of a matrix `[out_features, in_features]`. */
  function Rows(w: array2<real>): (rows: seq<Vec>)
    reads w
    ensures |rows| == w.Length0 && HasWidth(rows, w.Length1)
    ensures forall o, i :: 0 <= o < w.Length0 && 0 <= i < w.Length1 ==> rows[o][i] == w[o, i]
  {
    seq(w.Length0, o requires 0 <= o < w.Length0 reads w =>
      seq(w.Length1, i requires 0 <= i < w.Length1 reads w => w[o, i]))
  }
}
