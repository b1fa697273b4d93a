/** The scale file written by save_smoothquant_model: each layer's scale
    tensor becomes a JSON number (a 0-dimensional tensor) or a JSON list of
    numbers (a vector), under the layer's name, in the order of the scales. */
module ScaleJson {
  import opened Support
  import opened Tensors

  /** A scale tensor as apply_smoothquant hands it over: 0-dimensional or a
      vector. */
  datatype ScaleTensor = Scalar(value: real) | Vector(entries: Vec)

  /** The JSON values a scale file holds. */
  datatype JsonValue = JNumber(number: real) | JList(items: seq<real>)

  /** `scale.item()` for a 0-dimensional tensor, `scale.tolist()` otherwise. */
  function Encode(s: ScaleTensor): (j: JsonValue)
    ensures j.JNumber? <==> s.Scalar?
  {
    match s
    case Scalar(x) => JNumber(x)
    case Vector(xs) => JList(xs)
  }

  /** Reading a value back: a number is a 0-dimensional scale, a list a
      vector. */
  function Decode(j: JsonValue): (s: ScaleTensor)
    ensures s.Scalar? <==> j.JNumber?
  {
    match j
    case JNumber(x) => Scalar(x)
    case JList(xs) => Vector(xs)
  }

  /** Encoding and decoding are inverse to each other. */
  lemma EncodeDecode(s: ScaleTensor, j: JsonValue)
    ensures Decode(Encode(s)) == s
    ensures Encode(Decode(j)) == j
  {
  }

  /** The `scales_dict` that is dumped: the same keys in the same order, each
      value encoded. */
  function JsonMapping(scales: Dict<ScaleTensor>): (r: Dict<JsonValue>)
    ensures r.keys == scales.keys
    ensures forall k :: k in scales.vals ==> k in r.vals && Decode(r.vals[k]) == scales.vals[k]
  {
    DictRep(scales.keys, map k | k in scales.vals :: Encode(scales.vals[k]))
  }

  /** Loading a scale file: every value decoded, key order kept. */
  function DecodeMapping(j: Dict<JsonValue>): (r: Dict<ScaleTensor>)
    ensures r.keys == j.keys
    ensures forall k :: k in j.vals ==> k in r.vals && Encode(r.vals[k]) == j.vals[k]
  {
    DictRep(j.keys, map k | k in j.vals :: Decode(j.vals[k]))
  }

  /** Saving and loading the scales gives back the same mapping, and loading
      and saving a scale file gives back the same file. */
  lemma MappingRoundTrip(scales: Dict<ScaleTensor>, j: Dict<JsonValue>)
    ensures DecodeMapping(JsonMapping(scales)) == scales
    ensures JsonMapping(DecodeMapping(j)) == j
  {
    var back := DecodeMapping(JsonMapping(scales));
    assert back.vals == scales.vals;
    var again := JsonMapping(DecodeMapping(j));
    assert again.vals == j.vals;
  }

  /** The loop of save_smoothquant_model that fills `scales_dict`. */
  method ToJsonMapping(scales: Dict<ScaleTensor>) returns (r: Dict<JsonValue>)
    ensures r == JsonMapping(scales)
  {
    r := EmptyDict();
    var i := 0;
    while i < |scales.keys|
      invariant 0 <= i <= |scales.keys|
      invariant r.keys == scales.keys[..i]
      invariant forall k :: k in r.vals ==> k in scales.vals && r.vals[k] == Encode(scales.vals[k])
    {
      var name := scales.keys[i];
      assert name !in r.keys;
      r := Put(r, name, Encode(scales.vals[name]));
      assert scales.keys[..i + 1] == scales.keys[..i] + [name];
      i := i + 1;
    }
    assert scales.keys[..i] == scales.keys;
    assert r.vals == JsonMapping(scales).vals;
  }

  /** The scales apply_smoothquant returns, as tensors: every one a vector. */
  function VectorScales(d: Dict<Vec>): (r: Dict<ScaleTensor>)
    ensures r.keys == d.keys
    ensures forall k :: k in d.vals ==> k in r.vals && r.vals[k] == Vector(d.vals[k])
  {
    DictRep(d.keys, map k | k in d.vals :: Vector(d.vals[k]))
  }

  /** The scale file of apply_smoothquant's scales holds one list per layer,
      in the dict's order, each list the layer's vector. */
  lemma SmoothedScalesAreLists(d: Dict<Vec>)
    ensures JsonMapping(VectorScales(d)).keys == d.keys
    ensures forall k :: k in d.vals ==> JsonMapping(VectorScales(d)).vals[k] == JList(d.vals[k])
  {
  }
}
