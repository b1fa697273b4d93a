/** convert_smoothquant_to_gguf.py: check the preconditions, run the
    converter, rebuild the container with the whitelisted fields, the
    `smoothquant.` fields and every tensor into a temporary sibling, swap it
    in, and look for the new fields. */
module Merge {
  import opened Support
  import opened ScaleJson
  import opened Gguf
  import opened Files
  import opened Flattening

  /** A GGUFWriter: what has been added so far, written out by `close()`. */
  class GgufWriter {
    const path: string
    var fields: seq<Field>
    var tensors: seq<TensorInfo>

    constructor (path: string)
      ensures this.path == path && fields == [] && tensors == []
    {
      this.path := path;
      fields := [];
      tensors := [];
    }

    function Contents(): Container
      reads this
    {
      Container(fields, tensors)
    }

    method AddString(name: string, value: Part)
      modifies this
      ensures fields == old(fields) + [StringField(name, value)] && tensors == old(tensors)
    {
      fields := fields + [StringField(name, value)];
    }

    method AddArray(name: string, values: seq<Part>)
      modifies this
      ensures fields == old(fields) + [ArrayField(name, values)] && tensors == old(tensors)
    {
      fields := fields + [ArrayField(name, values)];
    }

    method AddTensor(name: string, data: seq<bv8>, tensorType: nat)
      modifies this
      ensures tensors == old(tensors) + [TensorInfo(name, tensorType, data)] && fields == old(fields)
    {
      tensors := tensors + [TensorInfo(name, tensorType, data)];
    }

    /** `close()`: the container is written to the writer's path. */
    method Close(fs: FileSystem)
      modifies fs
      ensures fs.files == old(fs.files)[path := GgufData(Contents())]
      ensures fs.log == old(fs.log) + [Wrote(path)]
    {
      fs.Write(path, GgufData(Contents()));
    }
  }

  /** The copy loop over the source fields, adding to `w`; on an IndexError
      the loop stops with that error. */
  method CopyFields(fields: seq<Field>, w: GgufWriter) returns (err: Option<string>)
    modifies w
    ensures err.None? <==> CopiedFields(fields).Ok?
    ensures err.Some? ==> err.value == CopiedFields(fields).error
    ensures err.None? ==> w.fields == old(w.fields) + CopiedFields(fields).value
    ensures w.tensors == old(w.tensors)
  {
    var i := 0;
    while i < |fields|
      invariant 0 <= i <= |fields|
      invariant Copied(fields, i).Ok? && w.fields == old(w.fields) + Copied(fields, i).value
      invariant w.tensors == old(w.tensors)
    {
      var f := fields[i];
      if StartsWith(f.name, "general.") {
        if |f.parts| == 0 {
          CopiedErrSticks(fields, i + 1, |fields|);
          return Some("list index out of range");
        }
        w.AddString(f.name, f.parts[0]);
      } else if StartsWith(f.name, "tokenizer.") {
        if |f.types| == 0 {
          CopiedErrSticks(fields, i + 1, |fields|);
          return Some("list index out of range");
        }
        if f.types[0] == String {
          if |f.parts| == 0 {
            CopiedErrSticks(fields, i + 1, |fields|);
            return Some("list index out of range");
          }
          w.AddString(f.name, f.parts[0]);
        } else if f.types[0] == Array {
          w.AddArray(f.name, f.parts);
        }
      }
      i := i + 1;
    }
    return None;
  }

  /** The tensor loop: every source tensor re-added in order. */
  method CopyTensors(tensors: seq<TensorInfo>, w: GgufWriter)
    modifies w
    ensures w.tensors == old(w.tensors) + tensors && w.fields == old(w.fields)
  {
    var i := 0;
    while i < |tensors|
      invariant 0 <= i <= |tensors|
      invariant w.tensors == old(w.tensors) + tensors[..i] && w.fields == old(w.fields)
    {
      var t := tensors[i];
      w.AddTensor(t.name, t.data, t.tensorType);
      assert tensors[..i + 1] == tensors[..i] + [t];
      i := i + 1;
    }
    assert tensors[..i] == tensors;
  }

  function TextParts(names: seq<string>): (ps: seq<Part>)
    ensures |ps| == |names| && forall i :: 0 <= i < |names| ==> ps[i] == Text(names[i])
  {
    seq(|names|, i requires 0 <= i < |names| => Text(names[i]))
  }

  function NumberParts(data: seq<real>): (ps: seq<Part>)
    ensures |ps| == |data| && forall i :: 0 <= i < |data| ==> ps[i] == Number(data[i])
  {
    seq(|data|, i requires 0 <= i < |data| => Number(data[i]))
  }

  /** The four `smoothquant.` fields. */
  function Injected(flat: Flat): seq<Field>
  {
    [ StringField("smoothquant.enabled", Text("true")),
      StringField("smoothquant.version", Text("1.0")),
      ArrayField("smoothquant.layer_names", TextParts(flat.names)),
      ArrayField("smoothquant.scales", NumberParts(flat.data)) ]
  }

  /** The container the writer holds before `close()`: the copied fields,
      then the `smoothquant.` fields, then the source tensors; or the error
      that escapes first. */
  function Merged(source: Container, scales: Dict<JsonValue>): Result<Container, string>
  {
    var copied := CopiedFields(source.fields);
    if copied.Err? then Err(copied.error)
    else
      var flat := Flatten(scales, |scales.keys|);
      if flat.Err? then Err(flat.error)
      else Ok(Container(copied.value + Injected(flat.value), source.tensors))
  }

  /** The merged container keeps every tensor as it was, keeps exactly the
      whitelisted fields, adds the `smoothquant.` fields after them with
      names that no copied field has, lists the layers in the file's order
      and holds as many scale values as the file's lists together. */
  lemma MergedContents(source: Container, scales: Dict<JsonValue>)
    requires Merged(source, scales).Ok?
    ensures var m := Merged(source, scales).value;
      var copied := CopiedFields(source.fields).value;
      && CopiedFields(source.fields).Ok?
      && m.tensors == source.tensors
      && |m.fields| == |copied| + 4
      && m.fields[..|copied|] == copied
      && (forall i, j :: 0 <= i < |copied| <= j < |m.fields| ==> m.fields[i].name != m.fields[j].name)
      && m.fields[|copied|] == StringField("smoothquant.enabled", Text("true"))
      && m.fields[|copied| + 1] == StringField("smoothquant.version", Text("1.0"))
      && m.fields[|copied| + 2] == ArrayField("smoothquant.layer_names", TextParts(scales.keys))
      && m.fields[|copied| + 3].name == "smoothquant.scales"
      && |m.fields[|copied| + 3].parts| == Offset(scales, |scales.keys|)
  {
    var copied := CopiedFields(source.fields).value;
    var m := Merged(source, scales).value;
    var flat := Flatten(scales, |scales.keys|).value;
    FlattenSizes(scales, |scales.keys|);
    assert scales.keys[..|scales.keys|] == scales.keys;
    CopiedNamespaces(source.fields);
    assert m.fields[..|copied|] == copied;
    forall i, j | 0 <= i < |copied| <= j < |m.fields|
      ensures m.fields[i].name != m.fields[j].name
    {
      NamespacesDisjoint(copied[i].name);
      assert StartsWith(m.fields[j].name, "smoothquant.");
    }
  }

  /** The `smoothquant.scales` field of a merged container holds every list
      of the file, in the file's order: the list of the `k`-th layer is the
      run of parts that starts at its offset. */
  lemma MergedScaleValues(source: Container, scales: Dict<JsonValue>, k: nat)
    requires Merged(source, scales).Ok? && k < |scales.keys|
    ensures var m := Merged(source, scales).value;
      var parts := m.fields[|m.fields| - 1].parts;
      var v := scales.vals[scales.keys[k]];
      && m.fields[|m.fields| - 1].name == "smoothquant.scales"
      && v.JList?
      && Offset(scales, k) + |v.items| <= |parts|
      && parts[Offset(scales, k)..Offset(scales, k) + |v.items|] == NumberParts(v.items)
  {
    var flat := Flatten(scales, |scales.keys|).value;
    FlattenSlice(scales, |scales.keys|, k);
    var v := scales.vals[scales.keys[k]];
    var parts := NumberParts(flat.data);
    var lo := Offset(scales, k);
    assert parts[lo..lo + |v.items|] == NumberParts(flat.data[lo..lo + |v.items|]);
  }

  /** Whether the container has a field in the `smoothquant.` namespace. */
  predicate HasSmoothQuant(c: Container)
  {
    exists i :: 0 <= i < |c.fields| && StartsWith(c.fields[i].name, "smoothquant.")
  }

  /** A merged container always has the new fields. */
  lemma MergedHasSmoothQuant(source: Container, scales: Dict<JsonValue>)
    requires Merged(source, scales).Ok?
    ensures HasSmoothQuant(Merged(source, scales).value)
  {
    var m := Merged(source, scales).value;
    var k := |CopiedFields(source.fields).value|;
    assert m.fields[k] == StringField("smoothquant.enabled", Text("true"));
    assert StartsWith(m.fields[k].name, "smoothquant.");
  }

  /** The writer side of the merge, from creating the writer to the last
      `add_tensor`. */
  method BuildMerged(source: Container, scales: Dict<JsonValue>, tmp: string) returns (r: Result<GgufWriter, string>)
    ensures r.Err? <==> Merged(source, scales).Err?
    ensures r.Err? ==> r.error == Merged(source, scales).error
    ensures r.Ok? ==> fresh(r.value) && r.value.path == tmp && r.value.Contents() == Merged(source, scales).value
  {
    var w := new GgufWriter(tmp);
    var err := CopyFields(source.fields, w);
    if err.Some? {
      return Err(err.value);
    }
    w.AddString("smoothquant.enabled", Text("true"));
    w.AddString("smoothquant.version", Text("1.0"));
    var flat := FlattenScales(scales);
    if flat.Err? {
      return Err(flat.error);
    }
    w.AddArray("smoothquant.layer_names", TextParts(flat.value.names));
    w.AddArray("smoothquant.scales", NumberParts(flat.value.data));
    CopyTensors(source.tensors, w);
    return Ok(w);
  }

  /** The verification pass: `has_smoothquant` is set by any field in the
      `smoothquant.` namespace. */
  method VerifyMetadata(c: Container) returns (found: bool)
    ensures found <==> HasSmoothQuant(c)
  {
    found := false;
    var i := 0;
    while i < |c.fields|
      invariant 0 <= i <= |c.fields|
      invariant found <==> exists j :: 0 <= j < i && StartsWith(c.fields[j].name, "smoothquant.")
    {
      if StartsWith(c.fields[i].name, "smoothquant.") {
        found := true;
      }
      i := i + 1;
    }
  }

  /** What the external converter does: its return code, and the file it
      leaves at the output path, if any. */
  datatype ConverterRun = ConverterRun(returnCode: int, written: Option<Content>)

  /** How the program ends: normally, with or without the warning that the
      fields were not found, or with an exit status. */
  datatype Outcome = Completed(metadataFound: bool) | Exited(status: int, reason: string)

  /** The outcome, the files afterwards and the mutating operations in order. */
  datatype Run = Run(outcome: Outcome, files: map<string, Content>, events: seq<Event>)

  function AfterConverter(files: map<string, Content>, output: string, run: ConverterRun): map<string, Content>
  {
    if run.written.Some? then files[output := run.written.value] else files
  }

  function ConverterEvents(output: string, run: ConverterRun): seq<Event>
  {
    if run.written.Some? then [Wrote(output)] else []
  }

  /** The part of main() from opening the converted file to the verification
      pass. */
  function MergeRun(files: map<string, Content>, output: string, scales: Dict<JsonValue>): Run
  {
    if output !in files then Run(Exited(1, "output file not found"), files, [])
    else if !files[output].GgufData? then Run(Exited(1, "output is not a GGUF file"), files, [])
    else
      var tmp := WithSuffix(output, ".tmp.gguf");
      if tmp.Err? then Run(Exited(1, tmp.error), files, [])
      else
        var merged := Merged(files[output].container, scales);
        if merged.Err? then Run(Exited(1, merged.error), files, [])
        else
          var written := files[tmp.value := GgufData(merged.value)];
          TmpPathDistinct(output);
          var unlinked := written - {output};
          var renamed := (unlinked - {tmp.value})[output := unlinked[tmp.value]];
          Run(Completed(HasSmoothQuant(merged.value)), renamed,
              [Wrote(tmp.value), Unlinked(output), Renamed(tmp.value, output)])
  }

  /** main() of convert_smoothquant_to_gguf.py. Every exception and every
      `sys.exit(1)` ends the run with status 1. */
  function Convert(files: map<string, Content>, modelDir: string, output: string, run: ConverterRun): Run
  {
    var scalesPath := Join(modelDir, ScalesFileName);
    if scalesPath !in files then Run(Exited(1, "SmoothQuant scales file not found"), files, [])
    else if !files[scalesPath].JsonText? then Run(Exited(1, "scales file is not a JSON object"), files, [])
    else
      var converted := AfterConverter(files, output, run);
      var events := ConverterEvents(output, run);
      if run.returnCode != 0 then Run(Exited(1, "GGUF conversion failed"), converted, events)
      else
        var merge := MergeRun(converted, output, files[scalesPath].mapping);
        Run(merge.outcome, merge.files, events + merge.events)
  }

  /** Opening the converted file, building the merged container, swapping
      it in and verifying it. */
  method MergeStage(fs: FileSystem, output: string, scales: Dict<JsonValue>) returns (outcome: Outcome)
    modifies fs
    ensures var spec := MergeRun(old(fs.files), output, scales);
      outcome == spec.outcome && fs.files == spec.files && fs.log == old(fs.log) + spec.events
  {
    if output !in fs.files {
      return Exited(1, "output file not found");
    }
    if !fs.files[output].GgufData? {
      return Exited(1, "output is not a GGUF file");
    }
    var source := fs.files[output].container;
    var tmp := WithSuffix(output, ".tmp.gguf");
    if tmp.Err? {
      return Exited(1, tmp.error);
    }
    var built := BuildMerged(source, scales, tmp.value);
    if built.Err? {
      return Exited(1, built.error);
    }
    built.value.Close(fs);
    TmpPathDistinct(output);
    fs.Unlink(output);
    fs.Rename(tmp.value, output);
    var found := VerifyMetadata(fs.files[output].container);
    return Completed(found);
  }

  /** main(), step by step, against the file system. */
  method ConvertMain(fs: FileSystem, modelDir: string, output: string, run: ConverterRun) returns (outcome: Outcome)
    modifies fs
    ensures var spec := Convert(old(fs.files), modelDir, output, run);
      outcome == spec.outcome && fs.files == spec.files && fs.log == old(fs.log) + spec.events
  {
    var scalesPath := Join(modelDir, ScalesFileName);
    if scalesPath !in fs.files {
      return Exited(1, "SmoothQuant scales file not found");
    }
    var content := fs.files[scalesPath];
    if !content.JsonText? {
      return Exited(1, "scales file is not a JSON object");
    }
    if run.written.Some? {
      fs.Write(output, run.written.value);
    }
    assert fs.files == AfterConverter(old(fs.files), output, run);
    assert fs.log == old(fs.log) + ConverterEvents(output, run);
    if run.returnCode != 0 {
      return Exited(1, "GGUF conversion failed");
    }
    outcome := MergeStage(fs, output, content.mapping);
  }
}

/** Properties of a run of convert_smoothquant_to_gguf.py. */
module MergeProperties {
  import opened Support
  import opened Gguf
  import opened Files
  import opened Merge

  /** Without the scale file the program exits with status 1 before the
      converter runs: no file changes. */
  lemma MissingScalesExits(files: map<string, Content>, modelDir: string, output: string, run: ConverterRun)
    requires Join(modelDir, ScalesFileName) !in files
    ensures var r := Convert(files, modelDir, output, run);
      r.outcome.Exited? && r.outcome.status == 1 && r.files == files && r.events == []
  {
  }

  /** When the converter fails the program exits with status 1: only what
      the converter itself wrote has changed, and the merge never starts. */
  lemma ConverterFailureExits(files: map<string, Content>, modelDir: string, output: string, run: ConverterRun)
    requires Join(modelDir, ScalesFileName) in files && files[Join(modelDir, ScalesFileName)].JsonText?
    requires run.returnCode != 0
    ensures var r := Convert(files, modelDir, output, run);
      r.outcome.Exited? && r.outcome.status == 1 &&
      r.files == AfterConverter(files, output, run) && r.events == ConverterEvents(output, run)
  {
  }

  /** A run that ends with an exit status has not touched what the
      converter left behind: no temporary file, no unlink, no rename. */
  lemma ExitKeepsOriginal(files: map<string, Content>, modelDir: string, output: string, run: ConverterRun)
    requires Convert(files, modelDir, output, run).outcome.Exited?
    ensures var r := Convert(files, modelDir, output, run);
      r.outcome.status == 1 &&
      (r.files == files || r.files == AfterConverter(files, output, run)) &&
      forall e :: e in r.events ==> e == Wrote(output)
  {
  }

  /** A completed run: the output holds the merged container, the temporary
      file is gone, every other file is as the converter left it, and the
      verification pass finds the new fields. */
  lemma CompletedFiles(files: map<string, Content>, modelDir: string, output: string, run: ConverterRun)
    requires Convert(files, modelDir, output, run).outcome.Completed?
    ensures var scalesPath := Join(modelDir, ScalesFileName);
      var converted := AfterConverter(files, output, run);
      && scalesPath in files && files[scalesPath].JsonText?
      && output in converted && converted[output].GgufData?
      && WithSuffix(output, ".tmp.gguf").Ok?
      && Merged(converted[output].container, files[scalesPath].mapping).Ok?
      && var tmp := WithSuffix(output, ".tmp.gguf").value;
         var r := Convert(files, modelDir, output, run);
         && r.outcome.metadataFound
         && r.files == (converted - {tmp})[output := GgufData(Merged(converted[output].container, files[scalesPath].mapping).value)]
  {
    var scalesPath := Join(modelDir, ScalesFileName);
    var converted := AfterConverter(files, output, run);
    MergedHasSmoothQuant(converted[output].container, files[scalesPath].mapping);
    TmpPathDistinct(output);
  }

  /** In a completed run the original is unlinked only after the temporary
      container was written, and the last operation renames the temporary
      file onto the output. */
  lemma CommitOrder(files: map<string, Content>, modelDir: string, output: string, run: ConverterRun)
    requires Convert(files, modelDir, output, run).outcome.Completed?
    ensures WithSuffix(output, ".tmp.gguf").Ok?
    ensures var tmp := WithSuffix(output, ".tmp.gguf").value;
      var ev := Convert(files, modelDir, output, run).events;
      && |ev| > 0 && ev[|ev| - 1] == Renamed(tmp, output)
      && forall j :: 0 <= j < |ev| && ev[j] == Unlinked(output) ==>
           exists i :: 0 <= i < j && ev[i] == Wrote(tmp)
  {
    var tmp := WithSuffix(output, ".tmp.gguf").value;
    var ev := Convert(files, modelDir, output, run).events;
    var pre := ConverterEvents(output, run);
    assert ev == pre + [Wrote(tmp), Unlinked(output), Renamed(tmp, output)];
    TmpPathDistinct(output);
    forall j | 0 <= j < |ev| && ev[j] == Unlinked(output)
      ensures exists i :: 0 <= i < j && ev[i] == Wrote(tmp)
    {
      assert j == |pre| + 1;
      assert ev[|pre|] == Wrote(tmp);
    }
  }
}
