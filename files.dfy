/** The file system the two programs read and write, as a map from path to
    content, with a log of the mutating operations in the order they
    happened. Paths are normalised strings. */
module Files {
  import opened Support
  import opened Gguf
  import opened ScaleJson

  /** What a file holds, as far as the pipeline reads it. */
  datatype Content = JsonText(mapping: Dict<JsonValue>) | GgufData(container: Container) | Other

  /** A mutating file-system operation. */
  datatype Event = Wrote(path: string) | Unlinked(path: string) | Renamed(source: string, target: string)

  /** The name of the scale file inside a model directory. */
  const ScalesFileName := "smoothquant_scales.json"

  class FileSystem {
    var files: map<string, Content>
    ghost var log: seq<Event>

    constructor (initial: map<string, Content>)
      ensures files == initial && log == []
    {
      files := initial;
      log := [];
    }

    /** Creating or overwriting a file. */
    method Write(path: string, content: Content)
      modifies this
      ensures files == old(files)[path := content]
      ensures log == old(log) + [Wrote(path)]
    {
      files := files[path := content];
      log := log + [Wrote(path)];
    }

    /** `Path.unlink()` of an existing file. */
    method Unlink(path: string)
      requires path in files
      modifies this
      ensures files == old(files) - {path}
      ensures log == old(log) + [Unlinked(path)]
    {
      files := files - {path};
      log := log + [Unlinked(path)];
    }

    /** `Path.rename(target)` of an existing file: the target is replaced. */
    method Rename(source: string, target: string)
      requires source in files
      modifies this
      ensures files == (old(files) - {source})[target := old(files)[source]]
      ensures log == old(log) + [Renamed(source, target)]
    {
      files := (files - {source})[target := files[source]];
      log := log + [Renamed(source, target)];
    }
  }

  /** Where the last path component starts. */
  function NameStart(p: string): (i: nat)
    ensures i <= |p|
    ensures forall j :: i <= j < |p| ==> p[j] != '/'
  {
    LastIndexOf(p, '/') + 1
  }

  /** `PurePath.with_suffix(suffix)`: the last component's suffix (from its
      last dot, when that dot is neither its first nor its last character)
      is replaced by `suffix`, or `suffix` is appended when there is none; a
      path whose last component is empty raises. */
  function WithSuffix(p: string, suffix: string): (r: Result<string, string>)
    ensures r.Err? <==> NameStart(p) == |p|
  {
    var start := NameStart(p);
    var name := p[start..];
    if name == [] then Err("has an empty name")
    else
      var dot := LastIndexOf(name, '.');
      var stem := if 0 < dot < |name| - 1 then name[..dot] else name;
      Ok(p[..start] + stem + suffix)
  }

  /** The temporary sibling of the output: in the same directory, ending in
      `.tmp.gguf`, and never the output path itself. */
  lemma TmpPathDistinct(p: string)
    requires WithSuffix(p, ".tmp.gguf").Ok?
    ensures var t := WithSuffix(p, ".tmp.gguf").value;
      t != p && t[..NameStart(p)] == p[..NameStart(p)] && |t| >= 9 && t[|t| - 9..] == ".tmp.gguf"
  {
    var start := NameStart(p);
    var name := p[start..];
    var dot := LastIndexOf(name, '.');
    var t := WithSuffix(p, ".tmp.gguf").value;
    if 0 < dot < |name| - 1 {
      assert t == p[..start] + name[..dot] + ".tmp.gguf";
      var k := start + dot + 4;
      assert t[k] == '.';
      if k < |p| {
        assert p[k] == name[dot + 4] != '.';
      }
    } else {
      assert t == p[..start] + name + ".tmp.gguf";
      assert |t| == |p| + 9;
    }
  }
}
