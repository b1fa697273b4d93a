/** The few Python built-ins the pipeline leans on: an insertion-ordered dict
    keyed by strings, str.startswith, substring membership, list slicing and
    path joining. */
module Support {

  datatype Option<T> = None | Some(value: T)

  datatype Result<T, E> = Ok(value: T) | Err(error: E)

  /** The representation of a Python dict with string keys: the keys in
      insertion order, and the key-to-value mapping. */
  datatype DictRep<V> = DictRep(keys: seq<string>, vals: map<string, V>)

  ghost predicate DictInvariant<V>(d: DictRep<V>)
  {
    && (forall i, j :: 0 <= i < j < |d.keys| ==> d.keys[i] != d.keys[j])
    && (forall k :: k in d.vals <==> k in d.keys)
  }

  /** A dict: every key once, in the order it was first inserted. */
  type Dict<V> = d: DictRep<V> | DictInvariant(d) witness DictRep([], map[])

  function EmptyDict<V>(): (d: Dict<V>)
    ensures d.keys == [] && d.vals == map[]
  {
    DictRep([], map[])
  }

  /** `d[k] = v`: a new key goes to the end, an existing key keeps its place. */
  function Put<V>(d: Dict<V>, k: string, v: V): (r: Dict<V>)
    ensures r.vals == d.vals[k := v]
    ensures k in d.vals ==> r.keys == d.keys
    ensures k !in d.vals ==> r.keys == d.keys + [k]
  {
    if k in d.vals then DictRep(d.keys, d.vals[k := v])
    else DictRep(d.keys + [k], d.vals[k := v])
  }

  /** str.startswith */
  predicate StartsWith(s: string, prefix: string)
  {
    |prefix| <= |s| && s[..|prefix|] == prefix
  }

  /** `sub in s` for strings */
  predicate Contains(s: string, sub: string)
    decreases |s|
  {
    StartsWith(s, sub) || (|s| > 0 && Contains(s[1..], sub))
  }

  function Min(a: int, b: int): int { if a <= b then a else b }

  function Max(a: int, b: int): int { if a <= b then b else a }

  /** Python's `a[:stop]` on a list (a negative stop counts from the end). */
  function PrefixSlice<T>(a: seq<T>, stop: int): (r: seq<T>)
    ensures |r| <= |a| && r == a[..|r|]
    ensures 0 <= stop ==> |r| == Min(stop, |a|)
    ensures stop < 0 ==> |r| == Max(0, |a| + stop)
  {
    if stop >= 0 then a[..Min(stop, |a|)] else a[..Max(0, |a| + stop)]
  }

  /** `os.path.join(dir, name)` and `Path(dir) / name` for a relative name;
      paths are taken to be normalised strings. */
  function Join(dir: string, name: string): string
  {
    if dir == "" then name
    else if dir[|dir| - 1] == '/' then dir + name
    else dir + "/" + name
  }

  /** The index of the last occurrence of `ch` in `s`, or -1 (str.rfind). */
  function LastIndexOf(s: string, ch: char): (r: int)
    ensures -1 <= r < |s|
    ensures 0 <= r ==> s[r] == ch
    ensures forall j :: r < j < |s| ==> s[j] != ch
  {
    if s == [] then -1
    else if s[|s| - 1] == ch then |s| - 1
    else LastIndexOf(s[..|s| - 1], ch)
  }
}
