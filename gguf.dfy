/** The GGUF container as the merge sees it through GGUFReader and
    GGUFWriter: named, typed metadata fields and named tensors with a type tag
    and raw bytes. The binary layout is not modelled. */
module Gguf {
  import opened Support

  /** GGUFValueType */
  datatype ValueType =
    | UInt8 | Int8 | UInt16 | Int16 | UInt32 | Int32 | Float32
    | Bool | String | Array | UInt64 | Int64 | Float64

  /** One element of a field's `parts`: text, a number, or raw bytes. */
  datatype Part = Text(text: string) | Number(number: real) | Raw(bytes: seq<bv8>)

  /** A metadata field: its name, its value types (`types[0]` is the kind of
      the value) and its parts. */
  datatype Field = Field(name: string, types: seq<ValueType>, parts: seq<Part>)

  /** A tensor: name, type tag and payload. */
  datatype TensorInfo = TensorInfo(name: string, tensorType: nat, data: seq<bv8>)

  /** A container: fields and tensors in file order. */
  datatype Container = Container(fields: seq<Field>, tensors: seq<TensorInfo>)

  /** What `add_string(name, value)` adds. */
  function StringField(name: string, value: Part): Field
  {
    Field(name, [String], [value])
  }

  /** What `add_array(name, values)` adds. */
  function ArrayField(name: string, values: seq<Part>): Field
  {
    Field(name, [Array], values)
  }

  /** The copy whitelist: every `general.` field, and the `tokenizer.` fields
      whose value is a string or an array. */
  predicate Whitelisted(f: Field)
  {
    || StartsWith(f.name, "general.")
    || (StartsWith(f.name, "tokenizer.") && |f.types| > 0 && f.types[0] in {String, Array})
  }

  /** The copy loop's indexing does not raise on this field: `parts[0]` for
      every `general.` field and every `tokenizer.` string, `types[0]` for
      every `tokenizer.` field. */
  predicate Readable(f: Field)
  {
    && (StartsWith(f.name, "general.") ==> |f.parts| > 0)
    && (!StartsWith(f.name, "general.") && StartsWith(f.name, "tokenizer.") ==>
          |f.types| > 0 && (f.types[0] == String ==> |f.parts| > 0))
  }

  /** One iteration of the copy loop: the field to add, none, or the
      IndexError that escapes. A `general.` field is copied as the string of
      its first part whatever its type; a `tokenizer.` field as a string or
      as the array of its parts according to its kind; nothing else. */
  function CopyRule(f: Field): (r: Result<Option<Field>, string>)
    ensures r.Ok? <==> Readable(f)
    ensures r.Ok? ==> (r.value.Some? <==> Whitelisted(f))
    ensures r.Ok? && r.value.Some? ==> r.value.value.name == f.name
    ensures r.Ok? && StartsWith(f.name, "general.") ==> r.value == Some(StringField(f.name, f.parts[0]))
    ensures r.Ok? && !StartsWith(f.name, "general.") && StartsWith(f.name, "tokenizer.") && f.types[0] == String ==>
      r.value == Some(StringField(f.name, f.parts[0]))
    ensures r.Ok? && !StartsWith(f.name, "general.") && StartsWith(f.name, "tokenizer.") && f.types[0] == Array ==>
      r.value == Some(ArrayField(f.name, f.parts))
  {
    if StartsWith(f.name, "general.") then
      if |f.parts| == 0 then Err("list index out of range")
      else Ok(Some(StringField(f.name, f.parts[0])))
    else if StartsWith(f.name, "tokenizer.") then
      if |f.types| == 0 then Err("list index out of range")
      else if f.types[0] == String then
        if |f.parts| == 0 then Err("list index out of range")
        else Ok(Some(StringField(f.name, f.parts[0])))
      else if f.types[0] == Array then Ok(Some(ArrayField(f.name, f.parts)))
      else Ok(None)
    else Ok(None)
  }

  /** The fields the copy loop adds for the first `n` source fields, or the
      error of the first field that raises. */
  function Copied(fields: seq<Field>, n: nat): Result<seq<Field>, string>
    requires n <= |fields|
  {
    if n == 0 then Ok([])
    else
      var prev := Copied(fields, n - 1);
      if prev.Err? then prev
      else match CopyRule(fields[n - 1])
        case Err(e) => Err(e)
        case Ok(None) => prev
        case Ok(Some(g)) => Ok(prev.value + [g])
  }

  /** The copy loop over all fields of the source container. */
  function CopiedFields(fields: seq<Field>): Result<seq<Field>, string>
  {
    Copied(fields, |fields|)
  }

  /** Once the copy loop has raised, later fields do not change the outcome. */
  lemma {:induction false} CopiedErrSticks(fields: seq<Field>, i: nat, n: nat)
    requires i <= n <= |fields| && Copied(fields, i).Err?
    ensures Copied(fields, n) == Copied(fields, i)
    decreases n
  {
    if n > i {
      CopiedErrSticks(fields, i, n - 1);
    }
  }

  /** The copy loop succeeds exactly when every field is readable. */
  lemma {:induction false} CopiedOkIff(fields: seq<Field>, n: nat)
    requires n <= |fields|
    ensures Copied(fields, n).Ok? <==> forall i :: 0 <= i < n ==> Readable(fields[i])
  {
    if n > 0 {
      CopiedOkIff(fields, n - 1);
    }
  }

  /** Every copied field is the copy of a whitelisted source field, and
      every whitelisted source field is copied. */
  lemma {:induction false} CopiedExactly(fields: seq<Field>, n: nat)
    requires n <= |fields| && Copied(fields, n).Ok?
    ensures forall g :: g in Copied(fields, n).value ==>
      exists i :: 0 <= i < n && Whitelisted(fields[i]) && CopyRule(fields[i]) == Ok(Some(g))
    ensures forall i :: 0 <= i < n && Whitelisted(fields[i]) ==>
      CopyRule(fields[i]).Ok? && CopyRule(fields[i]).value.value in Copied(fields, n).value
  {
    if n > 0 {
      CopiedExactly(fields, n - 1);
      var prev := Copied(fields, n - 1).value;
      var cur := Copied(fields, n).value;
      assert forall g :: g in prev ==> g in cur;
    }
  }

  /** Copied fields carry `general.` or `tokenizer.` names only. */
  lemma CopiedNamespaces(fields: seq<Field>)
    requires CopiedFields(fields).Ok?
    ensures forall g :: g in CopiedFields(fields).value ==>
      StartsWith(g.name, "general.") || StartsWith(g.name, "tokenizer.")
  {
    CopiedExactly(fields, |fields|);
  }

  /** A name in the `general.` or `tokenizer.` namespace is not in the
      `smoothquant.` namespace. */
  lemma NamespacesDisjoint(name: string)
    requires StartsWith(name, "general.") || StartsWith(name, "tokenizer.")
    ensures !StartsWith(name, "smoothquant.")
  {
    assert name[0] == 'g' || name[0] == 't';
    assert |name| < 12 || name[..12][0] == name[0];
  }
}
