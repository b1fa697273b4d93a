/** The flat encoding of the scale file for the container: the layer names in
    the file's order, and all their scale lists concatenated in that order. */
module Flattening {
  import opened Support
  import opened Tensors
  import opened ScaleJson

  /** `layer_names` and `scale_data`. */
  datatype Flat = Flat(names: seq<string>, data: seq<real>)

  /** What `list.extend` raises on a number. */
  const NotIterable := "'float' object is not iterable"

  /** The entries a value contributes to `scale_data`. */
  function ListLength(v: JsonValue): nat
  {
    if v.JList? then |v.items| else 0
  }

  /** Where the list of the `n`-th layer starts in `scale_data`. */
  function Offset(d: Dict<JsonValue>, n: nat): nat
    requires n <= |d.keys|
  {
    if n == 0 then 0 else Offset(d, n - 1) + ListLength(d.vals[d.keys[n - 1]])
  }

  /** The flattening loop after the first `n` layers of the file. */
  function Flatten(d: Dict<JsonValue>, n: nat): Result<Flat, string>
    requires n <= |d.keys|
  {
    if n == 0 then Ok(Flat([], []))
    else
      var prev := Flatten(d, n - 1);
      if prev.Err? then prev
      else match d.vals[d.keys[n - 1]]
        case JNumber(_) => Err(NotIterable)
        case JList(xs) => Ok(Flat(prev.value.names + [d.keys[n - 1]], prev.value.data + xs))
  }

  /** Once the loop has raised, later layers do not change the outcome. */
  lemma {:induction false} FlattenErrSticks(d: Dict<JsonValue>, i: nat, n: nat)
    requires i <= n <= |d.keys| && Flatten(d, i).Err?
    ensures Flatten(d, n) == Flatten(d, i)
    decreases n
  {
    if n > i {
      FlattenErrSticks(d, i, n - 1);
    }
  }

  /** Flattening succeeds exactly when every value is a list. */
  lemma {:induction false} FlattenOkIff(d: Dict<JsonValue>, n: nat)
    requires n <= |d.keys|
    ensures Flatten(d, n).Ok? <==> forall i :: 0 <= i < n ==> d.vals[d.keys[i]].JList?
  {
    if n > 0 {
      FlattenOkIff(d, n - 1);
    }
  }

  /** On success the names are the keys in order and `scale_data` has as
      many entries as the lists together. */
  lemma {:induction false} FlattenSizes(d: Dict<JsonValue>, n: nat)
    requires n <= |d.keys| && Flatten(d, n).Ok?
    ensures Flatten(d, n).value.names == d.keys[..n]
    ensures |Flatten(d, n).value.data| == Offset(d, n)
  {
    if n > 0 {
      FlattenSizes(d, n - 1);
      assert d.keys[..n] == d.keys[..n - 1] + [d.keys[n - 1]];
    }
  }

  /** On success the list of the `i`-th layer is the slice of `scale_data`
      that starts at its offset: with the layer names, the flat array can
      be split back into the file's lists. */
  lemma {:induction false} FlattenSlice(d: Dict<JsonValue>, n: nat, i: nat)
    requires i < n <= |d.keys| && Flatten(d, n).Ok?
    ensures Offset(d, i) + ListLength(d.vals[d.keys[i]]) <= |Flatten(d, n).value.data|
    ensures d.vals[d.keys[i]] == JList(Flatten(d, n).value.data[Offset(d, i)..Offset(d, i) + ListLength(d.vals[d.keys[i]])])
  {
    FlattenSizes(d, n);
    FlattenSizes(d, n - 1);
    var data := Flatten(d, n).value.data;
    var prev := Flatten(d, n - 1).value.data;
    assert data == prev + d.vals[d.keys[n - 1]].items;
    if i < n - 1 {
      FlattenSlice(d, n - 1, i);
      assert data[..|prev|] == prev;
    } else {
      assert data[Offset(d, i)..] == d.vals[d.keys[i]].items;
    }
  }

  /** The loop that fills `layer_names` and `scale_data`. */
  method FlattenScales(d: Dict<JsonValue>) returns (r: Result<Flat, string>)
    ensures r == Flatten(d, |d.keys|)
  {
    var names: seq<string> := [];
    var data: seq<real> := [];
    var i := 0;
    while i < |d.keys|
      invariant 0 <= i <= |d.keys|
      invariant Flatten(d, i) == Ok(Flat(names, data))
    {
      var name := d.keys[i];
      names := names + [name];
      match d.vals[name] {
        case JNumber(_) =>
          FlattenErrSticks(d, i + 1, |d.keys|);
          return Err(NotIterable);
        case JList(xs) =>
          data := data + xs;
      }
      i := i + 1;
    }
    return Ok(Flat(names, data));
  }

  /** The total number of scale values of apply_smoothquant's scales. */
  function TotalLength(d: Dict<Vec>, n: nat): nat
    requires n <= |d.keys|
  {
    if n == 0 then 0 else TotalLength(d, n - 1) + |d.vals[d.keys[n - 1]]|
  }

  /** A file whose values are the lists of `d`, key for key, flattens without
      error: the names are the keys in order and `scale_data` holds the sum
      of the list lengths. */
  lemma {:induction false} ListsFlatten(j: Dict<JsonValue>, d: Dict<Vec>, n: nat)
    requires j.keys == d.keys && n <= |d.keys|
    requires forall k :: k in d.vals ==> j.vals[k] == JList(d.vals[k])
    ensures Flatten(j, n).Ok? && Flatten(j, n).value.names == d.keys[..n]
    ensures |Flatten(j, n).value.data| == TotalLength(d, n)
  {
    if n > 0 {
      ListsFlatten(j, d, n - 1);
      assert d.keys[..n] == d.keys[..n - 1] + [d.keys[n - 1]];
      assert j.vals[j.keys[n - 1]] == JList(d.vals[d.keys[n - 1]]);
    }
  }

  /** The scale file saved from apply_smoothquant's scales flattens without
      error: the names are the dict's keys in order and `scale_data` holds
      the sum of the vector lengths. */
  lemma SmoothedScalesFlatten(d: Dict<Vec>)
    ensures var j := JsonMapping(VectorScales(d));
      Flatten(j, |j.keys|).Ok? && Flatten(j, |j.keys|).value.names == d.keys &&
      |Flatten(j, |j.keys|).value.data| == TotalLength(d, |d.keys|)
  {
    SmoothedScalesAreLists(d);
    ListsFlatten(JsonMapping(VectorScales(d)), d, |d.keys|);
  }
}
