/** apply_smoothquant: derive a smoothing vector per calibrated linear layer
    from its activation and weight statistics, and divide the layer's weight
    matrix column-wise by it, in place. */
module Smoothing {
  import opened Support
  import opened Tensors
  import opened Network

  /** Floating-point `**`, left uninterpreted. */
  type Pow = (real, real) -> real

  /** The one fact about `**` the model relies on: a positive base has a
      positive power. */
  ghost predicate PositivePowers(pow: Pow)
  {
    forall b, e :: 0.0 < b ==> 0.0 < pow(b, e)
  }

  /** `b ** 0 == 1` and `b ** 1 == b`, used only for the two extreme values
      of alpha. */
  ghost predicate UnitExponents(pow: Pow)
  {
    forall b :: 0.0 < b ==> pow(b, 0.0) == 1.0 && pow(b, 1.0) == b
  }

  predicate Positive(s: Vec)
  {
    forall i :: 0 <= i < |s| ==> 0.0 < s[i]
  }

  /** `s = clamp(act, 1e-5) ** alpha / clamp(wmax, 1e-5) ** (1 - alpha)`,
      channel by channel: one strictly positive entry per channel. With
      alpha = 0 a channel's scale is the reciprocal of its clamped weight
      statistic, with alpha = 1 its clamped activation statistic. */
  function SmoothingScales(act: Vec, wmax: Vec, alpha: real, pow: Pow): (s: Vec)
    requires |act| == |wmax|
    requires PositivePowers(pow)
    ensures |s| == |act|
    ensures Positive(s)
    ensures UnitExponents(pow) && alpha == 0.0 ==>
      forall c :: 0 <= c < |act| ==> s[c] == 1.0 / ClampMin(wmax, Eps)[c]
    ensures UnitExponents(pow) && alpha == 1.0 ==>
      forall c :: 0 <= c < |act| ==> s[c] == ClampMin(act, Eps)[c]
  {
    var a := ClampMin(act, Eps);
    var w := ClampMin(wmax, Eps);
    seq(|act|, c requires 0 <= c < |act| => pow(a[c], alpha) / pow(w[c], 1.0 - alpha))
  }

  /** The value written back: `.half()` on the fp16 path, as computed otherwise. */
  function Store(dtype: DType, x: real, toHalf: real -> real): real
  {
    if dtype == Float16 then toHalf(x) else x
  }

  function RescaleRow(row: Vec, s: Vec, dtype: DType, toHalf: real -> real): (r: Vec)
    requires |row| == |s| && Positive(s)
    ensures |r| == |row|
  {
    seq(|row|, i requires 0 <= i < |row| => Store(dtype, row[i] / s[i], toHalf))
  }

  /** `weight / s.unsqueeze(0)`: every row divided entrywise by `s`. In full
      precision, multiplying an entry back by its channel's scale gives the
      original entry; in half precision the entry is the rounding of the
      full-precision quotient; with no channels nothing changes. */
  function Rescaled(rows: seq<Vec>, s: Vec, dtype: DType, toHalf: real -> real): (r: seq<Vec>)
    requires HasWidth(rows, |s|) && Positive(s)
    ensures |r| == |rows| && HasWidth(r, |s|)
    ensures forall o, i :: 0 <= o < |rows| && 0 <= i < |s| ==>
      (dtype == Float32 ==> r[o][i] * s[i] == rows[o][i]) &&
      (dtype == Float16 ==> r[o][i] == toHalf(rows[o][i] / s[i]))
    ensures |s| == 0 ==> r == rows
  {
    var r := seq(|rows|, o requires 0 <= o < |rows| => RescaleRow(rows[o], s, dtype, toHalf));
    assert |s| == 0 ==> forall o :: 0 <= o < |rows| ==> r[o] == [] == rows[o];
    r
  }

  function Dot(x: Vec, y: Vec): real
    requires |x| == |y|
    decreases |x|
  {
    if x == [] then 0.0 else x[0] * y[0] + Dot(x[1..], y[1..])
  }

  function Times(x: Vec, s: Vec): (r: Vec)
    requires |x| == |s|
    ensures |r| == |x|
  {
    seq(|x|, i requires 0 <= i < |x| => x[i] * s[i])
  }

  /** Dividing a weight row by `s` and multiplying the activation by `s`
      leaves the row's output unchanged. */
  lemma {:induction false} MigrationPreservesOutput(x: Vec, row: Vec, s: Vec, toHalf: real -> real)
    requires |x| == |row| == |s| && Positive(s)
    ensures Dot(Times(x, s), RescaleRow(row, s, Float32, toHalf)) == Dot(x, row)
    decreases |x|
  {
    if x != [] {
      var xs, rs := Times(x, s), RescaleRow(row, s, Float32, toHalf);
      assert Positive(s[1..]);
      assert forall i :: 0 <= i < |x| - 1 ==> xs[1..][i] == Times(x[1..], s[1..])[i];
      assert xs[1..] == Times(x[1..], s[1..]);
      assert rs[1..] == RescaleRow(row[1..], s[1..], Float32, toHalf);
      MigrationPreservesOutput(x[1..], row[1..], s[1..], toHalf);
      assert xs[0] * rs[0] == x[0] * row[0] by {
        assert rs[0] == row[0] / s[0];
        assert (x[0] * s[0]) * (row[0] / s[0]) == x[0] * (s[0] * (row[0] / s[0]));
      }
    }
  }

  /** For the whole layer: every output channel of the rescaled full-precision
      matrix, fed the activation multiplied by `s`, equals the original one. */
  lemma LayerOutputPreserved(x: Vec, rows: seq<Vec>, s: Vec, toHalf: real -> real)
    requires |x| == |s| && HasWidth(rows, |s|) && Positive(s)
    ensures forall o :: 0 <= o < |rows| ==>
      Dot(Times(x, s), Rescaled(rows, s, Float32, toHalf)[o]) == Dot(x, rows[o])
  {
    forall o | 0 <= o < |rows|
      ensures Dot(Times(x, s), Rescaled(rows, s, Float32, toHalf)[o]) == Dot(x, rows[o])
    {
      MigrationPreservesOutput(x, rows[o], s, toHalf);
    }
  }

  /** Divides each column `i` of `w` by `s[i]` in place, rounding to half
      precision when the weights are fp16. */
  method RescaleInPlace(w: array2<real>, s: Vec, dtype: DType, toHalf: real -> real)
    requires |s| == w.Length1 && Positive(s)
    modifies w
    ensures Rows(w) == Rescaled(old(Rows(w)), s, dtype, toHalf)
  {
    var o := 0;
    while o < w.Length0
      invariant 0 <= o <= w.Length0
      invariant forall p, i :: 0 <= p < o && 0 <= i < w.Length1 ==>
        w[p, i] == Store(dtype, old(w[p, i]) / s[i], toHalf)
      invariant forall p, i :: o <= p < w.Length0 && 0 <= i < w.Length1 ==> w[p, i] == old(w[p, i])
    {
      var i := 0;
      while i < w.Length1
        invariant 0 <= i <= w.Length1
        invariant forall p, j :: 0 <= p < o && 0 <= j < w.Length1 ==>
          w[p, j] == Store(dtype, old(w[p, j]) / s[j], toHalf)
        invariant forall j :: 0 <= j < i ==> w[o, j] == Store(dtype, old(w[o, j]) / s[j], toHalf)
        invariant forall j :: i <= j < w.Length1 ==> w[o, j] == old(w[o, j])
        invariant forall p, j :: o < p < w.Length0 && 0 <= j < w.Length1 ==> w[p, j] == old(w[p, j])
      {
        w[o, i] := Store(dtype, w[o, i] / s[i], toHalf);
        i := i + 1;
      }
      o := o + 1;
    }
    ghost var before := old(Rows(w));
    assert forall o, i :: 0 <= o < w.Length0 && 0 <= i < w.Length1 ==> before[o][i] == old(w[o, i]);
    assert forall o :: 0 <= o < w.Length0 ==> Rows(w)[o] == Rescaled(before, s, dtype, toHalf)[o];
  }

  /** The modules apply_smoothquant processes: linear layers named in the
      activation statistics. */
  predicate Targeted(m: Module, acts: Dict<Vec>)
  {
    m.Linear? && m.name in acts.vals
  }

  /** Processing this module raises: `max(dim=0)` over a weight with no rows,
      or `min()` of an empty smoothing vector in the progress report, which
      runs after the weights were written. */
  predicate Raises(m: Module, acts: Dict<Vec>)
  {
    Targeted(m, acts) && (m.weight.Length0 == 0 || m.weight.Length1 == 0)
  }

  /** Each processed layer's activation statistic has one entry per input
      feature of its weight. */
  ghost predicate ShapesAgree(modules: seq<Module>, acts: Dict<Vec>)
  {
    forall k :: 0 <= k < |modules| && Targeted(modules[k], acts) ==>
      |acts.vals[modules[k].name]| == modules[k].weight.Length1
  }

  /** The names of the processed layers, in traversal order. */
  function TargetNames(modules: seq<Module>, acts: Dict<Vec>): seq<string>
  {
    if modules == [] then []
    else
      var n := |modules| - 1;
      TargetNames(modules[..n], acts) + (if Targeted(modules[n], acts) then [modules[n].name] else [])
  }

  /** A name is listed exactly when some processed module carries it. */
  lemma {:induction false} TargetNamesExactly(modules: seq<Module>, acts: Dict<Vec>)
    ensures forall x :: x in TargetNames(modules, acts) <==>
      exists k :: 0 <= k < |modules| && Targeted(modules[k], acts) && modules[k].name == x
  {
    if modules != [] {
      var n := |modules| - 1;
      TargetNamesExactly(modules[..n], acts);
      assert forall k :: 0 <= k < n ==> modules[..n][k] == modules[k];
    }
  }

  /** The position of the first module whose processing raises, or
      |modules| when there is none. */
  function FailIndex(modules: seq<Module>, acts: Dict<Vec>): (k: nat)
    ensures k <= |modules|
    ensures forall j :: 0 <= j < k ==> !Raises(modules[j], acts)
    ensures k < |modules| ==> Raises(modules[k], acts)
  {
    if modules == [] then 0
    else if Raises(modules[0], acts) then 0
    else 1 + FailIndex(modules[1..], acts)
  }

  /** The smoothing vector of a layer with activation statistic `act` and
      weight rows `rows`. */
  function ScaleFromRows(act: Vec, rows: seq<Vec>, alpha: real, pow: Pow): (s: Vec)
    requires 0 < |rows| && HasWidth(rows, |act|)
    requires PositivePowers(pow)
    ensures |s| == |act| && Positive(s)
  {
    SmoothingScales(act, ChannelMaxAbs(rows, |act|), alpha, pow)
  }

  /** The weight rows of every linear layer (and nothing for other modules). */
  function Snapshot(modules: seq<Module>): (snap: seq<seq<Vec>>)
    reads Weights(modules)
    ensures |snap| == |modules|
    ensures forall k :: 0 <= k < |modules| && modules[k].Linear? ==> snap[k] == Rows(modules[k].weight)
  {
    seq(|modules|, k requires 0 <= k < |modules| reads Weights(modules) =>
      if modules[k].Linear? then Rows(modules[k].weight) else [])
  }

  /** `snap` holds, for each processed layer, a matrix as wide as the layer's
      activation statistic. */
  predicate Shaped(modules: seq<Module>, acts: Dict<Vec>, snap: seq<seq<Vec>>)
  {
    |snap| == |modules| &&
    forall k :: 0 <= k < |modules| && Targeted(modules[k], acts) ==> HasWidth(snap[k], |acts.vals[modules[k].name]|)
  }

  /** The weights once the first `n` modules have been processed: each
      processed layer among them divided by its smoothing vector, every
      other matrix as it was. */
  function Expected(modules: seq<Module>, acts: Dict<Vec>, snap: seq<seq<Vec>>, n: nat,
                    alpha: real, pow: Pow, toHalf: real -> real): (after: seq<seq<Vec>>)
    requires Shaped(modules, acts, snap) && n <= |modules| && PositivePowers(pow)
    requires forall k :: 0 <= k < n && Targeted(modules[k], acts) ==> 0 < |snap[k]|
    ensures |after| == |modules|
    ensures forall k :: 0 <= k < |modules| && !(k < n && Targeted(modules[k], acts)) ==> after[k] == snap[k]
  {
    seq(|modules|, k requires 0 <= k < |modules| =>
      if k < n && Targeted(modules[k], acts)
      then Rescaled(snap[k], ScaleFromRows(acts.vals[modules[k].name], snap[k], alpha, pow), modules[k].dtype, toHalf)
      else snap[k])
  }

  /** The dict apply_smoothquant returns: each processed layer's name mapped
      to its smoothing vector, in traversal order. */
  function ScaleDict(modules: seq<Module>, acts: Dict<Vec>, snap: seq<seq<Vec>>, alpha: real, pow: Pow): (d: Dict<Vec>)
    requires Shaped(modules, acts, snap) && PositivePowers(pow)
    requires forall k :: 0 <= k < |modules| && Targeted(modules[k], acts) ==> 0 < |snap[k]|
  {
    if modules == [] then EmptyDict()
    else
      var n := |modules| - 1;
      var prev := ScaleDict(modules[..n], acts, snap[..n], alpha, pow);
      if Targeted(modules[n], acts)
      then Put(prev, modules[n].name, ScaleFromRows(acts.vals[modules[n].name], snap[n], alpha, pow))
      else prev
  }

  /** With distinct module names, the dict lists exactly the processed layers
      in traversal order. */
  lemma {:induction false} ScaleDictKeys(modules: seq<Module>, acts: Dict<Vec>, snap: seq<seq<Vec>>, alpha: real, pow: Pow)
    requires Shaped(modules, acts, snap) && PositivePowers(pow)
    requires forall k :: 0 <= k < |modules| && Targeted(modules[k], acts) ==> 0 < |snap[k]|
    requires UniqueNames(modules)
    ensures ScaleDict(modules, acts, snap, alpha, pow).keys == TargetNames(modules, acts)
  {
    if modules != [] {
      var n := |modules| - 1;
      var init := modules[..n];
      assert forall k :: 0 <= k < n ==> init[k] == modules[k] && snap[..n][k] == snap[k];
      ScaleDictKeys(init, acts, snap[..n], alpha, pow);
      if Targeted(modules[n], acts) {
        TargetNamesExactly(init, acts);
        assert modules[n].name !in TargetNames(init, acts);
      }
    }
  }

  /** With distinct module names, each processed layer is mapped to the
      smoothing vector of its own weights. */
  lemma {:induction false} ScaleDictValues(modules: seq<Module>, acts: Dict<Vec>, snap: seq<seq<Vec>>, alpha: real, pow: Pow)
    requires Shaped(modules, acts, snap) && PositivePowers(pow)
    requires forall k :: 0 <= k < |modules| && Targeted(modules[k], acts) ==> 0 < |snap[k]|
    requires UniqueNames(modules)
    ensures var m := ScaleDict(modules, acts, snap, alpha, pow).vals;
      forall k :: 0 <= k < |modules| && Targeted(modules[k], acts) ==>
        modules[k].name in m && m[modules[k].name] == ScaleFromRows(acts.vals[modules[k].name], snap[k], alpha, pow)
  {
    if modules != [] {
      var n := |modules| - 1;
      var init := modules[..n];
      assert forall k :: 0 <= k < n ==> init[k] == modules[k] && snap[..n][k] == snap[k];
      ScaleDictValues(init, acts, snap[..n], alpha, pow);
      if Targeted(modules[n], acts) {
        forall k | 0 <= k < n && Targeted(modules[k], acts)
          ensures modules[k].name != modules[n].name
        {
        }
      }
    }
  }

  /** In full precision, every output of every processed layer is unchanged
      when the layer's input is multiplied by that layer's smoothing vector. */
  lemma SmoothedOutputPreserved(modules: seq<Module>, acts: Dict<Vec>, snap: seq<seq<Vec>>, n: nat,
                                alpha: real, pow: Pow, toHalf: real -> real, k: nat, x: Vec)
    requires Shaped(modules, acts, snap) && n <= |modules| && PositivePowers(pow)
    requires forall j :: 0 <= j < n && Targeted(modules[j], acts) ==> 0 < |snap[j]|
    requires k < n && Targeted(modules[k], acts) && modules[k].dtype == Float32
    requires |x| == |acts.vals[modules[k].name]|
    ensures var s := ScaleFromRows(acts.vals[modules[k].name], snap[k], alpha, pow);
      var after := Expected(modules, acts, snap, n, alpha, pow, toHalf);
      forall o :: 0 <= o < |snap[k]| ==> Dot(Times(x, s), after[k][o]) == Dot(x, snap[k][o])
  {
    var s := ScaleFromRows(acts.vals[modules[k].name], snap[k], alpha, pow);
    LayerOutputPreserved(x, snap[k], s, toHalf);
  }

  /** One iteration of apply_smoothquant for the processed layer at `i`:
      computes its smoothing vector from the current weights, divides the
      weights by it and records it under the layer's name. */
  method SmoothLayer(modules: seq<Module>, i: nat, scales: Dict<Vec>, acts: Dict<Vec>,
                     alpha: real, pow: Pow, toHalf: real -> real)
    returns (r: Dict<Vec>)
    requires i < |modules| && Targeted(modules[i], acts) && 0 < modules[i].weight.Length0
    requires |acts.vals[modules[i].name]| == modules[i].weight.Length1
    requires SeparateWeights(modules) && PositivePowers(pow)
    modifies modules[i].weight
    ensures var before := old(Snapshot(modules));
      var s := ScaleFromRows(acts.vals[modules[i].name], before[i], alpha, pow);
      r == Put(scales, modules[i].name, s) &&
      Snapshot(modules) == before[i := Rescaled(before[i], s, modules[i].dtype, toHalf)]
  {
    var m := modules[i];
    var s := SmoothingScales(acts.vals[m.name], ChannelMaxAbs(Rows(m.weight), m.weight.Length1), alpha, pow);
    RescaleInPlace(m.weight, s, m.dtype, toHalf);
    r := Put(scales, m.name, s);
    forall k | 0 <= k < |modules| && k != i && modules[k].Linear?
      ensures modules[k].weight != m.weight
    {
      if k < i {} else {}
    }
    assert forall k :: 0 <= k < |modules| && k != i ==> Snapshot(modules)[k] == old(Snapshot(modules))[k];
  }

  /** Processing one more module changes only that module's matrix. */
  lemma ExpectedStep(modules: seq<Module>, acts: Dict<Vec>, snap: seq<seq<Vec>>, n: nat,
                     alpha: real, pow: Pow, toHalf: real -> real)
    requires Shaped(modules, acts, snap) && n < |modules| && PositivePowers(pow)
    requires forall k :: 0 <= k <= n && Targeted(modules[k], acts) ==> 0 < |snap[k]|
    ensures Expected(modules, acts, snap, n + 1, alpha, pow, toHalf) ==
      if Targeted(modules[n], acts)
      then Expected(modules, acts, snap, n, alpha, pow, toHalf)[n :=
             Rescaled(snap[n], ScaleFromRows(acts.vals[modules[n].name], snap[n], alpha, pow), modules[n].dtype, toHalf)]
      else Expected(modules, acts, snap, n, alpha, pow, toHalf)
  {
  }

  /** Processing one more module adds at most its own entry to the dict. */
  lemma ScaleDictStep(modules: seq<Module>, acts: Dict<Vec>, snap: seq<seq<Vec>>, n: nat, alpha: real, pow: Pow)
    requires Shaped(modules, acts, snap) && n < |modules| && PositivePowers(pow)
    requires forall k :: 0 <= k <= n && Targeted(modules[k], acts) ==> 0 < |snap[k]|
    ensures ScaleDict(modules[..n + 1], acts, snap[..n + 1], alpha, pow) ==
      if Targeted(modules[n], acts)
      then Put(ScaleDict(modules[..n], acts, snap[..n], alpha, pow), modules[n].name,
               ScaleFromRows(acts.vals[modules[n].name], snap[n], alpha, pow))
      else ScaleDict(modules[..n], acts, snap[..n], alpha, pow)
  {
    assert modules[..n + 1][..n] == modules[..n] && snap[..n + 1][..n] == snap[..n];
  }

  /** The state of apply_smoothquant's loop after `i` modules: weights as
      `Expected`, and the dict built so far. */
  ghost predicate Progress(modules: seq<Module>, acts: Dict<Vec>, before: seq<seq<Vec>>, i: nat, scales: Dict<Vec>,
                           alpha: real, pow: Pow, toHalf: real -> real)
    reads Weights(modules)
  {
    && i <= FailIndex(modules, acts)
    && PositivePowers(pow)
    && Shaped(modules, acts, before)
    && (forall k :: 0 <= k < |modules| && modules[k].Linear? ==> |before[k]| == modules[k].weight.Length0)
    && Snapshot(modules) == Expected(modules, acts, before, i, alpha, pow, toHalf)
    && scales == ScaleDict(modules[..i], acts, before[..i], alpha, pow)
  }

  /** One iteration of apply_smoothquant's loop; `failed` when processing
      module `i` raises, in which case the weights are as they were. */
  method Advance(modules: seq<Module>, acts: Dict<Vec>, ghost before: seq<seq<Vec>>, i: nat, scales: Dict<Vec>,
                 alpha: real, pow: Pow, toHalf: real -> real)
    returns (next: Dict<Vec>, failed: bool)
    requires i < |modules| && SeparateWeights(modules) && ShapesAgree(modules, acts)
    requires Progress(modules, acts, before, i, scales, alpha, pow, toHalf)
    modifies Weights(modules)
    ensures failed <==> FailIndex(modules, acts) == i
    ensures failed ==> Snapshot(modules) == Expected(modules, acts, before, i, alpha, pow, toHalf)
    ensures !failed ==> Progress(modules, acts, before, i + 1, next, alpha, pow, toHalf)
  {
    var m := modules[i];
    if Targeted(m, acts) && m.weight.Length0 == 0 {
      return scales, true;
    }
    ExpectedStep(modules, acts, before, i, alpha, pow, toHalf);
    ScaleDictStep(modules, acts, before, i, alpha, pow);
    next := scales;
    if Targeted(m, acts) {
      next := SmoothLayer(modules, i, scales, acts, alpha, pow, toHalf);
    }
    failed := Targeted(m, acts) && m.weight.Length1 == 0;
  }

  /** apply_smoothquant: processes the modules in traversal order and stops
      at the first one whose processing raises. The weights end up as
      `Expected` up to that module; on success the result is the `ScaleDict`
      of the weights as they were on entry. */
  method ApplySmoothQuant(modules: seq<Module>, acts: Dict<Vec>, alpha: real, pow: Pow, toHalf: real -> real)
    returns (r: Result<Dict<Vec>, string>)
    requires SeparateWeights(modules) && ShapesAgree(modules, acts) && PositivePowers(pow)
    modifies Weights(modules)
    ensures r.Ok? <==> FailIndex(modules, acts) == |modules|
    ensures Shaped(modules, acts, old(Snapshot(modules)))
    ensures Snapshot(modules) == Expected(modules, acts, old(Snapshot(modules)), FailIndex(modules, acts), alpha, pow, toHalf)
    ensures r.Ok? ==> r.value == ScaleDict(modules, acts, old(Snapshot(modules)), alpha, pow)
  {
    ghost var before := Snapshot(modules);
    assert Expected(modules, acts, before, 0, alpha, pow, toHalf) == before;
    var scales: Dict<Vec> := EmptyDict();
    var i := 0;
    while i < |modules|
      invariant Progress(modules, acts, before, i, scales, alpha, pow, toHalf)
    {
      var failed;
      scales, failed := Advance(modules, acts, before, i, scales, alpha, pow, toHalf);
      if failed {
        return Err("apply_smoothquant: empty reduction");
      }
      i := i + 1;
    }
    assert modules[..i] == modules && before[..i] == before;
    return Ok(scales);
  }
}
