/** The part of a transformer model that the pipeline touches: the list that
    `model.named_modules()` yields, in traversal order. A linear layer carries
    its weight matrix `[out_features, in_features]`, updated in place. */
module Network {

  datatype DType = Float16 | Float32

  datatype Module =
    | Linear(name: string, weight: array2<real>, dtype: DType)
    | Other(name: string)

  /** named_modules() yields every module under its own dotted name. */
  ghost predicate UniqueNames(modules: seq<Module>)
  {
    forall i, j :: 0 <= i < j < |modules| ==> modules[i].name != modules[j].name
  }

  /** No two linear layers share one weight tensor. */
  ghost predicate SeparateWeights(modules: seq<Module>)
  {
    forall i, j :: 0 <= i < j < |modules| && modules[i].Linear? && modules[j].Linear? ==>
      modules[i].weight != modules[j].weight
  }

  function Weights(modules: seq<Module>): set<array2<real>>
  {
    set k | 0 <= k < |modules| && modules[k].Linear? :: modules[k].weight
  }
}
