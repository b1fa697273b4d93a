# SmoothQuant pipeline: calibration, smoothing and GGUF metadata merge

This project models the two programs of a SmoothQuant pipeline for Llama-2 and
proves properties of the model.

`smooth_quant_llama2.py` has three parts that are modelled:

- **Calibration.** It draws random token sequences. It hooks every linear layer
  whose name does not contain `lm_head`. The hooks record, for each call, the
  per-channel maximum of |x|. Only the first quarter of the samples is run. A
  pass that raises ends there, keeping what its hooks recorded before the
  raise, and the loop goes on with the next sample. Each layer's records are then reduced
  to a 95th-percentile vector (module `Calibration`).
- **Smoothing.** For each linear layer that has statistics it computes
  `s = clamp(act, 1e-5)^alpha / clamp(max|W|, 1e-5)^(1-alpha)`. It then divides
  the weight matrix column-wise by `s`, in place, with an fp16 path that
  rounds back to half precision (module `Smoothing`).
- **Saving the scales.** The scales are written as a JSON mapping from layer
  name to a number or a list (modules `ScaleJson` and `ScaleStore`).

`convert_smoothquant_to_gguf.py` is modelled as one program:

- It checks that the scale file exists and runs the external converter,
  exiting with status 1 if either check fails.
- It rebuilds the GGUF container (modules `Gguf`, `Flattening` and `Merge`):
  - the `general.*` fields and the `tokenizer.*` string and array fields are
    copied;
  - four `smoothquant.*` fields are added, including the layer names and the
    flat concatenation of all scale lists;
  - every tensor is copied;
  - the writer's `close()` is taken to leave the result in a temporary
    sibling file (see `Merge.GgufWriter.Close` under "Left out"), the
    original is unlinked, and the temporary file is renamed onto the
    output path.
- Finally it checks for the new fields, and only prints a warning if they are
  missing.

Supporting modules:

- `Support`: an insertion-ordered string-keyed dict, `str.startswith`,
  substring tests, list slicing and path joining.
- `Tensors`: vectors as `seq<real>`, per-channel max of |x|, clamp, and the row
  view of a weight matrix.
- `Network`: the list that `named_modules()` yields. A linear layer holds an
  `array2<real>` weight that is updated in place.
- `Files`: a map-based file system with a log of writes, unlinks and renames,
  and `PurePath.with_suffix`.

Floating-point values are `real`. Four operations are parameters, with these
facts assumed about them:

- `**`: a positive base gives a positive power (`PositivePowers`). Only the
  alpha = 0 and alpha = 1 clauses of `Smoothing.SmoothingScales` also assume
  `b ** 0 == 1` and `b ** 1 == b` for a positive base (`UnitExponents`).
- The per-column quantile of `torch.quantile`: no fact is assumed; the
  reduction keeps the vector length by construction.
- `torch.randint`: it returns `size` draws in `[low, high)` when `low < high`
  (`SoundRandInt`).
- The rounding of `.half()` (`toHalf`): no fact is assumed; the fp16 path is
  stated as this rounding applied to the full-precision quotient.

The forward pass of the model is also a parameter: it gives the sequence of
module calls, with their inputs, that the hooks see.

Three behaviours of the code worth stating plainly:

- **Calibration token ids.** Ids are drawn from
  `[1, min(len(tokenizer), 32000))` (smooth_quant_llama2.py:26-30), so id 0 is
  never drawn and ids beyond 32000 never occur.
- **Converter failure.** When the converter exits non-zero, the program exits
  with status 1 and leaves whatever the converter wrote at the output path
  (convert_smoothquant_to_gguf.py:50-53); `MergeProperties.ConverterFailureExits`
  states this.
- **Completion.** The verification pass only prints; a missing
  `smoothquant.*` field gives a warning, and completion is the normal end of
  `main` (convert_smoothquant_to_gguf.py:113-132).

## Model

| member | source | states |
|---|---|---|
| Support.Put | smooth_quant_llama2.py:45-47 | dict assignment: the value is stored under the key; a new key goes to the end of the key order and an existing key keeps its place |
| Support.PrefixSlice | smooth_quant_llama2.py:58 | Python's `a[:stop]`: a prefix of the list whose length is `min(stop, len)` for a non-negative stop and `max(0, len + stop)` for a negative one |
| Tensors.ChannelMaxAbs | smooth_quant_llama2.py:43 | per channel, a value that bounds every |x| in that channel and is attained by some row; one entry per channel |
| Tensors.ClampMin | smooth_quant_llama2.py:101-102 | every entry is at least the bound; entries already at the bound are unchanged and the others become exactly the bound |
| Calibration.VocabSize | smooth_quant_llama2.py:26 | the id bound is at most 32000 and at most the tokenizer length, and equals one of the two |
| Calibration.CalibrationData | smooth_quant_llama2.py:27-31 | one sequence per sample (none for a non-positive count), the i-th being the i-th randint draw over `[1, vocab)`; under a sound randint each has `seq_len` ids in `[1, vocab)` |
| Calibration.GenerateCalibrationData | smooth_quant_llama2.py:26-31 | the loop raises randint's error exactly when there is a sample and the id range `[1, vocab)` is empty, and otherwise returns the calibration data |
| Calibration.ObserveInput | smooth_quant_llama2.py:39-43 | the hook skips an input iff it is empty or its first tensor is not 3-D; it raises iff that tensor has no rows or no channels; otherwise the recorded vector has one entry per last-dimension channel, bounds every |x| in that channel over all batch x seq rows and equals one of them |
| Calibration.AppendRecord | smooth_quant_llama2.py:45-47 | a layer's list is created holding the vector on first observation, with the layer appended to the key order; otherwise the vector is appended to its list; no other entry changes |
| Calibration.RunCalls | smooth_quant_llama2.py:37-47 | reference definition of one forward pass as the hooks see it: the hooked calls are observed in order, and the first raising hook ends the pass (its properties are `RunCallsAppends`, `RaiseEndsPass` and `RunCallsWidths`) |
| Calibration.Calibrate | smooth_quant_llama2.py:58-66 | reference definition of the calibration loop: each sample's pass is run on the records left by the previous one, a raising pass keeping what it recorded before the raise (properties: `CalibrateAppends`, `CalibrateWidths`) |
| Calibration.AppendExtends | smooth_quant_llama2.py:45-47 | one observation only extends the records: every key keeps its place and every old list is a prefix of the new one; non-empty lists of non-empty vectors stay so |
| Calibration.RunCallsAppends | smooth_quant_llama2.py:37-47 | a whole forward pass only extends the records, and keeps them well formed |
| Calibration.CalibrateAppends | smooth_quant_llama2.py:58-66 | the whole calibration loop only extends the records, and keeps them well formed |
| Calibration.RaiseEndsPass | smooth_quant_llama2.py:59-66 | a hook that raises ends the pass with the exception; the calls after it record nothing |
| Calibration.RunCallsWidths | smooth_quant_llama2.py:41-47 | when a pass feeds each hooked layer 3-D inputs of that layer's width, every record keeps that width |
| Calibration.CalibrateWidths | smooth_quant_llama2.py:58-66 | the same over all calibration samples |
| Calibration.EligibleNamesExactly | smooth_quant_llama2.py:51-52 | a name gets a hook iff some module with that name is linear and its name does not contain `lm_head` |
| Calibration.EligibleNames | smooth_quant_llama2.py:51-52 | reference definition of the hooked names in traversal order (characterised by `EligibleNamesExactly`) |
| Calibration.Percentile95 | smooth_quant_llama2.py:76-78 | the quantile over the stacked vectors has one entry per channel |
| Calibration.ReduceList | smooth_quant_llama2.py:75-80 | a list is dropped iff it is empty; it is kept iff it is non-empty with vectors of one positive width, and the kept vector has that width; any other list raises (stack of unequal widths, or `torch.quantile` of a stack with no elements) |
| Calibration.CollectErrSticks | smooth_quant_llama2.py:74-80 | the first exception ends the reduction loop; later layers do not change the outcome |
| Calibration.Collect | smooth_quant_llama2.py:73-80 | reference definition of `final_scales` after the first n items: a kept reduction is stored under its key, a dropped one skipped, a failure raises (properties: `CollectFailsIff`, `CollectKeyOrder`, `CollectValues`) |
| Calibration.ReduceRecords | smooth_quant_llama2.py:72-82 | reference definition of the whole reduction: `Collect` over every record list (property: `ReduceWellFormed`; `FinalScales` is proved equal to it) |
| Calibration.CollectFailsIff | smooth_quant_llama2.py:74-80 | the reduction succeeds iff no layer's list raises |
| Calibration.CollectKeyOrder | smooth_quant_llama2.py:73-79 | on success `final_scales` has exactly the layers with kept lists, in record order |
| Calibration.CollectValues | smooth_quant_llama2.py:78-79 | on success each kept layer maps to the percentile of its own records |
| Calibration.CollectAll | smooth_quant_llama2.py:73-79 | when every list is kept, the reduction succeeds with every layer, in order |
| Calibration.WellFormedSteps | smooth_quant_llama2.py:75-79 | non-empty lists of vectors of one positive width are all kept, at that width |
| Calibration.ReduceWellFormed | smooth_quant_llama2.py:73-79 | well-formed records reduce without error to one vector per recorded layer, in record order, as wide as that layer's records |
| Calibration.ReduceItem | smooth_quant_llama2.py:74-80 | one iteration of the reduction loop is one step of the reference fold `Collect` |
| Calibration.FinalScales | smooth_quant_llama2.py:72-82 | the reduction loop computes exactly the specified `final_scales` or the first exception |
| Calibration.Calibrator.constructor | smooth_quant_llama2.py:33-34 | no records, no handles, no hooks installed |
| Calibration.Calibrator.RegisterHooks | smooth_quant_llama2.py:50-54 | the handles grow by the eligible names in traversal order; exactly the eligible modules get a hook; the records are untouched |
| Calibration.Calibrator.Hook | smooth_quant_llama2.py:37-47 | the hook raises iff the observation raises; it appends the observed vector iff the input is recorded; nothing else changes |
| Calibration.Calibrator.RunPass | smooth_quant_llama2.py:59-61 | one `model(tokens)` leaves the records and the raised flag that `RunCalls` gives; the hooks stay installed |
| Calibration.Calibrator.RunSamples | smooth_quant_llama2.py:56-66 | the loop visits only `calibration_data[:n_samples // 4]`, skips the rest of a sample whose pass raised, and goes on with the next |
| Calibration.Calibrator.RemoveHooks | smooth_quant_llama2.py:68-70 | the hook behind every handle is removed; records and handles are unchanged |
| Calibration.GetActivationStats | smooth_quant_llama2.py:16-82 | the whole function on the default path returns `ActivationStats` (randint's error, or the reduced records of the calibration loop); that no hook is left installed is asserted after `RemoveHooks` |
| Calibration.ActivationStats | smooth_quant_llama2.py:16-82 | reference definition of get_activation_stats on the default path: randint's error, or the reduction of the records that the calibration loop over the first quarter of the data leaves (property: `StatsMatchLayers`; `GetActivationStats` is proved equal to it) |
| Calibration.StatsMatchLayers | smooth_quant_llama2.py:45-79 | with distinct module names and passes that feed each hooked layer its in_features width, the statistics are computed without error, name only eligible layers, and each has in_features entries |
| Smoothing.SmoothingScales | smooth_quant_llama2.py:101-104 | one strictly positive entry per channel; with alpha = 0 the entry is the reciprocal of the clamped weight statistic, with alpha = 1 the clamped activation statistic |
| Smoothing.Rescaled | smooth_quant_llama2.py:107-114 | the shape is kept; in fp32 each new entry times its channel's scale gives back the old entry; in fp16 each entry is the half-precision rounding of the quotient; with no channels nothing changes |
| Smoothing.MigrationPreservesOutput | smooth_quant_llama2.py:104-114 | dividing a weight row by `s` and multiplying the input by `s` leaves the row's output unchanged |
| Smoothing.LayerOutputPreserved | smooth_quant_llama2.py:107-114 | the same for every output channel of a rescaled fp32 layer |
| Smoothing.RescaleInPlace | smooth_quant_llama2.py:107-114 | the in-place division leaves the matrix equal to the rescaling of its old rows |
| Smoothing.TargetNamesExactly | smooth_quant_llama2.py:93-94 | a name is processed iff some module with that name is linear and has statistics |
| Smoothing.FailIndex | smooth_quant_llama2.py:93-119 | the first processed module whose weight has no rows or no columns, where the loop raises; no earlier module raises |
| Smoothing.ScaleFromRows | smooth_quant_llama2.py:95-104 | a layer's smoothing vector is strictly positive with one entry per input feature |
| Smoothing.Expected | smooth_quant_llama2.py:93-114 | after the first n modules, every matrix not processed among them is unchanged |
| Smoothing.ScaleDictKeys | smooth_quant_llama2.py:91-117 | `scale_dict` has exactly the processed layers as keys, in traversal order |
| Smoothing.ScaleDictValues | smooth_quant_llama2.py:95-117 | each processed layer maps to the smoothing vector of its own weights and statistics |
| Smoothing.ScaleDict | smooth_quant_llama2.py:91-117 | reference definition of `scale_dict`: each processed layer's smoothing vector stored under its name, in traversal order (characterised by `ScaleDictKeys` and `ScaleDictValues`) |
| Smoothing.SmoothedOutputPreserved | smooth_quant_llama2.py:104-114 | after smoothing, every fp32 processed layer fed its input times `s` gives the original outputs |
| Smoothing.SmoothLayer | smooth_quant_llama2.py:95-117 | one processed layer: its matrix becomes the rescaling by its smoothing vector, the vector is stored under its name, and no other matrix changes |
| Smoothing.ExpectedStep | smooth_quant_llama2.py:93-114 | processing one more module changes at most that module's matrix |
| Smoothing.Advance | smooth_quant_llama2.py:93-119 | one loop iteration raises iff this is the first raising module, and otherwise keeps the loop invariant |
| Smoothing.ApplySmoothQuant | smooth_quant_llama2.py:84-121 | the call succeeds iff no processed module raises; the weights end up rescaled up to the raising module (all processed ones on success) and the rest unchanged; on success the result is the scale dict of the weights as they were on entry |
| ScaleJson.Encode | smooth_quant_llama2.py:136-139 | a 0-dimensional scale becomes a number, any other scale a list |
| ScaleJson.Decode | convert_smoothquant_to_gguf.py:35-36 | a loaded number is a 0-dimensional scale, a list a vector |
| ScaleJson.EncodeDecode | smooth_quant_llama2.py:136-139 | encoding and decoding are inverses, both ways |
| ScaleJson.JsonMapping | smooth_quant_llama2.py:134-139 | `scales_dict` has the same keys in the same order, and each value decodes to the saved scale |
| ScaleJson.DecodeMapping | convert_smoothquant_to_gguf.py:35-36 | loading keeps the key order, and each value encodes back to the file's value |
| ScaleJson.MappingRoundTrip | smooth_quant_llama2.py:134-142 | saving then loading gives back the scales, and loading then saving gives back the file |
| ScaleJson.ToJsonMapping | smooth_quant_llama2.py:134-139 | the loop builds exactly the specified mapping |
| ScaleJson.SmoothedScalesAreLists | smooth_quant_llama2.py:134-139 | the file saved from apply_smoothquant's scales holds one list per layer, in order, each the layer's vector |
| ScaleStore.SaveScales | smooth_quant_llama2.py:141-142 | `smoothquant_scales.json` in the output directory holds the mapping, and no other file changes |
| ScaleStore.SavedScalesLoad | smooth_quant_llama2.py:141-142 | the saved file loads back to the saved scales |
| Files.FileSystem.constructor | convert_smoothquant_to_gguf.py:22-23 | the file system starts with the given files and an empty log |
| Files.FileSystem.Write | convert_smoothquant_to_gguf.py:101 | the path holds the content, no other file changes, and the write is logged |
| Files.FileSystem.Unlink | convert_smoothquant_to_gguf.py:105 | the path is removed, no other file changes, and the unlink is logged |
| Files.FileSystem.Rename | convert_smoothquant_to_gguf.py:106 | the source's content moves to the target, replacing it; the source is gone, and the rename is logged |
| Files.WithSuffix | convert_smoothquant_to_gguf.py:68 | `with_suffix` raises exactly when the path's last component is empty (what the new path looks like is stated by `TmpPathDistinct`) |
| Files.TmpPathDistinct | convert_smoothquant_to_gguf.py:68 | the temporary path is never the output path, lies in the same directory and ends in `.tmp.gguf` |
| Gguf.CopyRule | convert_smoothquant_to_gguf.py:72-78 | a field is copied iff it is whitelisted, under its own name; a `general.*` field is copied as the string of its first part whatever its type; a `tokenizer.*` STRING field is copied as the string of its first part, and a `tokenizer.*` ARRAY field as an array of all its parts; the indexing raises iff the field lacks a first part or type it needs |
| Gguf.Copied | convert_smoothquant_to_gguf.py:71-78 | reference definition of the copy loop over the first n fields: the fields added in order, or the first IndexError (properties: `CopiedErrSticks`, `CopiedOkIff`, `CopiedExactly`) |
| Gguf.CopiedFields | convert_smoothquant_to_gguf.py:71-78 | the copy loop over all fields of the source container (property: `CopiedNamespaces`) |
| Gguf.CopiedErrSticks | convert_smoothquant_to_gguf.py:71-78 | the first IndexError ends the copy loop |
| Gguf.CopiedOkIff | convert_smoothquant_to_gguf.py:71-78 | the copy loop succeeds iff every field is readable |
| Gguf.CopiedExactly | convert_smoothquant_to_gguf.py:71-78 | every copied field is the copy of a whitelisted source field, and every whitelisted source field is copied |
| Gguf.CopiedNamespaces | convert_smoothquant_to_gguf.py:71-78 | copied fields carry `general.` or `tokenizer.` names only |
| Gguf.NamespacesDisjoint | convert_smoothquant_to_gguf.py:81-82 | no `general.` or `tokenizer.` name is in the `smoothquant.` namespace |
| Flattening.FlattenErrSticks | convert_smoothquant_to_gguf.py:88-90 | once `extend` raises, later layers do not change the outcome |
| Flattening.Flatten | convert_smoothquant_to_gguf.py:85-90 | reference definition of the flattening loop over the first n layers: names appended and lists extended in order, or the TypeError of a number (properties: `FlattenOkIff`, `FlattenSizes`, `FlattenSlice`) |
| Flattening.FlattenOkIff | convert_smoothquant_to_gguf.py:88-90 | flattening succeeds iff every value of the file is a list |
| Flattening.FlattenSizes | convert_smoothquant_to_gguf.py:85-90 | on success the names are the file's keys in order, and `scale_data` has as many entries as the lists together |
| Flattening.FlattenSlice | convert_smoothquant_to_gguf.py:88-90 | on success each layer's list is the slice of `scale_data` at its offset, so the flat array splits back into the lists |
| Flattening.FlattenScales | convert_smoothquant_to_gguf.py:85-90 | the loop computes exactly the specified flattening or the error |
| Flattening.ListsFlatten | convert_smoothquant_to_gguf.py:88-90 | a file whose values are lists flattens without error, with the keys in order and the sum of the list lengths as size |
| Flattening.SmoothedScalesFlatten | convert_smoothquant_to_gguf.py:88-93 | the scale file saved from apply_smoothquant's scales flattens without error, with the layer names in order and the sum of the vector lengths as the number of scale values |
| Merge.GgufWriter.constructor | convert_smoothquant_to_gguf.py:68 | a writer for the temporary path, with no fields and no tensors |
| Merge.GgufWriter.AddString | convert_smoothquant_to_gguf.py:73 | appends one string field; tensors unchanged |
| Merge.GgufWriter.AddArray | convert_smoothquant_to_gguf.py:78 | appends one array field; tensors unchanged |
| Merge.GgufWriter.AddTensor | convert_smoothquant_to_gguf.py:99 | appends one tensor with its name, data and type; fields unchanged |
| Merge.GgufWriter.Close | convert_smoothquant_to_gguf.py:101 | the container is written to the writer's path, and no other file changes |
| Merge.CopyFields | convert_smoothquant_to_gguf.py:71-78 | the loop adds exactly the copied fields, or stops with the copy loop's IndexError; no tensor is added |
| Merge.CopyTensors | convert_smoothquant_to_gguf.py:98-99 | every source tensor is added in reader order, unchanged, and nothing else |
| Merge.Injected | convert_smoothquant_to_gguf.py:81-93 | reference definition of the four `smoothquant.*` fields (stated by `MergedContents`) |
| Merge.Merged | convert_smoothquant_to_gguf.py:71-99 | reference definition of the container the writer holds before `close()`, or the first error (properties: `MergedContents`, `MergedScaleValues`, `MergedHasSmoothQuant`) |
| Merge.MergedContents | convert_smoothquant_to_gguf.py:71-99 | the merged container keeps every tensor; it starts with exactly the copied fields; the four new fields follow with names no copied field has, `smoothquant.enabled` holding `"true"` and `smoothquant.version` holding `"1.0"`; the layer names are the file's keys in order; the scale field has as many parts as the lists together |
| Merge.MergedScaleValues | convert_smoothquant_to_gguf.py:88-93 | the `smoothquant.scales` field holds each layer's list as the run of parts at that layer's offset, in the file's order |
| Merge.MergedHasSmoothQuant | convert_smoothquant_to_gguf.py:81 | a merged container always has a `smoothquant.` field |
| Merge.BuildMerged | convert_smoothquant_to_gguf.py:68-99 | the writer ends up holding the merged container, or the first error escapes |
| Merge.VerifyMetadata | convert_smoothquant_to_gguf.py:115-118 | the flag is set iff some field is in the `smoothquant.` namespace |
| Merge.AfterConverter | convert_smoothquant_to_gguf.py:43-50 | reference definition of the files after the converter: what it wrote at the output path, if anything |
| Merge.MergeRun | convert_smoothquant_to_gguf.py:64-132 | reference definition of the merge stage: the exits when the output cannot be opened or read, when `with_suffix` or the merge raises; otherwise the temporary write, the unlink and the rename, and whether the new fields are found (properties: `CompletedFiles`, `CommitOrder`, `ExitKeepsOriginal`) |
| Merge.Convert | convert_smoothquant_to_gguf.py:14-132 | reference definition of main(): outcome, files afterwards and mutating operations in order (properties: the `MergeProperties` lemmas; `ConvertMain` is proved equal to it) |
| Merge.MergeStage | convert_smoothquant_to_gguf.py:64-132 | opening, merging, swapping and verifying give the specified outcome, files and operations |
| Merge.ConvertMain | convert_smoothquant_to_gguf.py:14-132 | main() gives the specified outcome, files and operations |
| MergeProperties.MissingScalesExits | convert_smoothquant_to_gguf.py:26-30 | without the scale file the run exits with status 1 before the converter runs: no file changes and nothing is written |
| MergeProperties.ConverterFailureExits | convert_smoothquant_to_gguf.py:50-53 | a failed conversion exits with status 1; only what the converter wrote has changed, and no merge starts |
| MergeProperties.ExitKeepsOriginal | convert_smoothquant_to_gguf.py:64-106 | a run that exits has status 1 and leaves the files as they were or as the converter left them; there is no temporary file, no unlink and no rename |
| MergeProperties.CompletedFiles | convert_smoothquant_to_gguf.py:101-132 | a completed run leaves the merged container at the output path, no temporary file, and every other file as the converter left it; the verification finds the new fields |
| MergeProperties.CommitOrder | convert_smoothquant_to_gguf.py:101-106 | in a completed run the original is unlinked only after the temporary container was written, and the last operation renames the temporary file onto the output path |

## Left out

- The torch/transformers forward pass, model and tokenizer loading, device placement, `torch.cuda.empty_cache` and tqdm are not modelled. The forward pass is a parameter giving the module calls the hooks see.
- IEEE floating point, `**`, the interpolation rule of `torch.quantile` and `torch.randint`'s distribution are not modelled. They are function parameters over `real`. `seq_len` is a `nat`, so the error `torch.randint` raises for a negative size is not modelled; the program only passes the default 128.
- The `dataset_path is not None` branch of get_activation_stats is not modelled. It leaves the calibration data unbound.
- Console output is not modelled: the prints, the progress reports and the verification messages. Where a print raises (`smooth_scales.min()` of an empty vector in apply_smoothquant), the exception is modelled.
- main() of smooth_quant_llama2.py and argument parsing in both programs are not modelled. Neither is the part of save_smoothquant_model that creates the directory and writes the model and tokenizer through `save_pretrained`.
- The binary GGUF encoding, GGUFReader's layout of `parts`, and the internals of GGUFWriter are not modelled. This includes the architecture field it writes and the count of parts per value. A container is modelled as named typed fields and named tensors.
- The converter subprocess is a parameter: its return code, and the file it leaves at the output path.
- JSON text formatting (`indent=2`) is not modelled. A scale file holds numbers and lists of numbers only. A file that does not parse as such a mapping is treated like unreadable JSON and exits before the converter runs. That matches Python for a top-level number, null or boolean, which raises at `len()` (convert_smoothquant_to_gguf.py:38) before the converter. A number layer value is within the modelled shape: its `extend` error after the converter is modelled by `Flattening.Flatten`. The following runs are not modelled:
  - a top-level list or string, which runs the converter and then raises at `.items()` (convert_smoothquant_to_gguf.py:88);
  - a null or boolean layer value, which raises at `extend` after the converter;
  - string, object or other list values, which `extend` accepts, so the merge completes.
- Path normalisation is not modelled; paths are normalised strings. The file size print is not modelled either.
- Failures of the file system itself are not modelled: permissions, a full disk, or `unlink`/`rename` of a missing file. In the model the output exists when it is unlinked (it was opened and read), and the temporary file exists when it is renamed because `close()` is taken to write it (see the `Merge.GgufWriter.Close` line).
- Concurrency is not modelled. Neither is GPU memory.
- Scale tensors of rank above one are not modelled, and neither are dtypes other than fp16 and fp32.
- Exception messages are not exact: the model uses descriptive strings in place of Python's exception text.
- Smoothing.ApplySmoothQuant: requires every statistic to have one entry per input feature (`ShapesAgree`). The broadcasting or error of torch on mismatched shapes is not modelled. It also requires that no two layers share a weight tensor (`SeparateWeights`), so tied weights are not modelled.
- Smoothing.Advance: the same two requirements as ApplySmoothQuant.
- Smoothing.SmoothLayer: the same two requirements as ApplySmoothQuant.
- Calibration.StatsMatchLayers: states its result only for forward passes that feed each hooked layer 3-D inputs of its in_features width.
- Merge.GgufWriter.Close: `close()` is taken to write the collected fields and tensors to the temporary path. The program never calls GGUFWriter's `write_header_to_file`, `write_kv_data_to_file` or `write_tensors_to_file`, and what `close()` alone writes depends on the gguf library, which is not part of this model. `MergeProperties.CompletedFiles` and `MergeProperties.CommitOrder` rest on this assumption.
