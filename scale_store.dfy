/** save_smoothquant_model, as far as the scales go: the scale mapping is
    written as JSON into the output directory. */
module ScaleStore {
  import opened Support
  import opened ScaleJson
  import opened Files

  /** Where the scales of a model directory live. */
  function ScalesPath(dir: string): string
  {
    Join(dir, ScalesFileName)
  }

  /** Builds `scales_dict` and dumps it to `smoothquant_scales.json` in the
      output directory; no other file changes. */
  method SaveScales(fs: FileSystem, outputDir: string, scales: Dict<ScaleTensor>)
    modifies fs
    ensures fs.files == old(fs.files)[ScalesPath(outputDir) := JsonText(JsonMapping(scales))]
    ensures fs.log == old(fs.log) + [Wrote(ScalesPath(outputDir))]
  {
    var mapping := ToJsonMapping(scales);
    fs.Write(ScalesPath(outputDir), JsonText(mapping));
  }

  /** Loading the saved file gives back the scales that were saved. */
  lemma SavedScalesLoad(files: map<string, Content>, outputDir: string, scales: Dict<ScaleTensor>)
    ensures var saved := files[ScalesPath(outputDir) := JsonText(JsonMapping(scales))];
      ScalesPath(outputDir) in saved && saved[ScalesPath(outputDir)].JsonText? &&
      DecodeMapping(saved[ScalesPath(outputDir)].mapping) == scales
  {
    MappingRoundTrip(scales, JsonMapping(scales));
  }
}
