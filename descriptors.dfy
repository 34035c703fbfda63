/**
 * The three job-descriptor builders of main.go. Each fills the same
 * `RandomForestTrainingConfig` record with a different subset of fields and
 * writes it to a fixed path under /storage, falling back to the working
 * directory when that file cannot be created. Which paths can be created is
 * the parameter `creatable`; a failure on both paths is `log.Fatal`.
 */
module Descriptors {
  import opened Wrappers
  import opened Sessions

  const TrainPrimary := "/storage/train.toml"
  const TrainFallback := "./train.toml"
  const InferPrimary := "/storage/infer.toml"
  const InferFallback := "./infer.toml"
  const TreesPrimary := "/storage/trees.toml"
  /** As written: the trees descriptor falls back to the inference file name. */
  const TreesFallback := "./infer.toml"

  /** The path the descriptor was written to, or the process exiting through `log.Fatal`. */
  datatype WriteOutcome = Written(path: string, config: RandomForestTrainingConfig) | Fatal

  /** `os.Create(primary)`, and on error `os.Create(fallback)`. */
  function WriteWithFallback(primary: string, fallback: string, config: RandomForestTrainingConfig,
                             creatable: string -> bool): (r: WriteOutcome)
    ensures r.Fatal? <==> !creatable(primary) && !creatable(fallback)
    ensures r.Written? ==> r.config == config
    ensures r.Written? && creatable(primary) ==> r.path == primary
    ensures r.Written? && !creatable(primary) ==> r.path == fallback
  {
    if creatable(primary) then Written(primary, config)
    else if creatable(fallback) then Written(fallback, config)
    else Fatal
  }

  /** The hyperparameter fields are all at Go's zero value. */
  predicate HyperparametersUnset(c: RandomForestTrainingConfig) {
    c.nTrees == 0 && c.sampleSplit == 0 && c.maxDepth == 0
    && c.featuresFraction == 0.0 && c.dataSplit == 0.0 && !c.showUnoptimized
  }

  /** `generateTrainingTOML`: all eleven arguments land in their fields (note the argument order). */
  function GenerateTrainingToml(filePath: string, modelPath: string, inferName: string, taskType: string,
                                features: seq<string>, depth: int, trees: int, sampleSplit: int,
                                fraction: real, dataSplit: real, showUnoptimized: bool,
                                creatable: string -> bool): (r: WriteOutcome)
    ensures r.Fatal? <==> !creatable(TrainPrimary) && !creatable(TrainFallback)
    ensures r.Written? ==> r.path == (if creatable(TrainPrimary) then TrainPrimary else TrainFallback)
    ensures r.Written? ==> r.config.taskType == taskType && r.config.filePath == filePath
                           && r.config.features == features && r.config.inferenceName == inferName
                           && r.config.modelPath == modelPath
    ensures r.Written? ==> r.config.nTrees == trees && r.config.sampleSplit == sampleSplit
                           && r.config.maxDepth == depth && r.config.featuresFraction == fraction
                           && r.config.dataSplit == dataSplit && r.config.showUnoptimized == showUnoptimized
  {
    var config := RandomForestTrainingConfig(taskType, filePath, features, inferName, modelPath,
                                             trees, sampleSplit, depth, fraction, dataSplit, showUnoptimized);
    WriteWithFallback(TrainPrimary, TrainFallback, config, creatable)
  }

  /** `generateInferenceTOML`: paths, target and features; no hyperparameters. */
  function GenerateInferenceToml(filePath: string, modelPath: string, inferName: string, taskType: string,
                                 features: seq<string>, creatable: string -> bool): (r: WriteOutcome)
    ensures r.Fatal? <==> !creatable(InferPrimary) && !creatable(InferFallback)
    ensures r.Written? ==> r.path == (if creatable(InferPrimary) then InferPrimary else InferFallback)
    ensures r.Written? ==> r.config.taskType == taskType && r.config.filePath == filePath
                           && r.config.features == features && r.config.inferenceName == inferName
                           && r.config.modelPath == modelPath
    ensures r.Written? ==> HyperparametersUnset(r.config)
  {
    var config := EmptyDescriptor.(taskType := taskType, filePath := filePath, features := features,
                                   inferenceName := inferName, modelPath := modelPath);
    WriteWithFallback(InferPrimary, InferFallback, config, creatable)
  }

  /** `generateTreesTOML`: only the task kind and the model path. */
  function GenerateTreesToml(modelPath: string, taskType: string, creatable: string -> bool): (r: WriteOutcome)
    ensures r.Fatal? <==> !creatable(TreesPrimary) && !creatable(TreesFallback)
    ensures r.Written? ==> r.path == (if creatable(TreesPrimary) then TreesPrimary else TreesFallback)
    ensures r.Written? ==> r.config.taskType == taskType && r.config.modelPath == modelPath
                           && r.config.filePath == "" && r.config.features == []
                           && r.config.inferenceName == ""
    ensures r.Written? ==> HyperparametersUnset(r.config)
  {
    WriteWithFallback(TreesPrimary, TreesFallback,
                      EmptyDescriptor.(taskType := taskType, modelPath := modelPath), creatable)
  }

  /**
   * Without a writable /storage, the trees descriptor and the inference
   * descriptor are written to the same local file.
   */
  lemma TreesFallbackIsInferenceFallback(modelPath: string, taskType: string, filePath: string,
                                         inferModelPath: string, inferName: string, inferTask: string,
                                         features: seq<string>, creatable: string -> bool)
    requires !creatable(TreesPrimary) && !creatable(InferPrimary) && creatable(InferFallback)
    ensures GenerateTreesToml(modelPath, taskType, creatable).Written?
    ensures GenerateInferenceToml(filePath, inferModelPath, inferName, inferTask, features, creatable).Written?
    ensures GenerateTreesToml(modelPath, taskType, creatable).path
            == GenerateInferenceToml(filePath, inferModelPath, inferName, inferTask, features, creatable).path
            == "./infer.toml"
  {
  }

  // The key/value document the descriptor is serialized to: one key per
  // `toml` struct tag of `RandomForestTrainingConfig`.

  datatype Value = Str(s: string) | Int(i: int) | Float(f: real) | Bool(b: bool) | StrArray(items: seq<string>)

  /** The keys of the document; they are also the keys the worker reads. */
  const DescriptorKeys: set<string> := {"task", "input_data", "features", "y_axis", "path", "n_trees",
                                        "min_samples_split", "max_depth", "x_features_fraction",
                                        "data_split", "show_unoptimized"}

  function Encode(c: RandomForestTrainingConfig): (doc: map<string, Value>)
    ensures doc.Keys == DescriptorKeys
  {
    map["task" := Str(c.taskType), "input_data" := Str(c.filePath), "features" := StrArray(c.features),
        "y_axis" := Str(c.inferenceName), "path" := Str(c.modelPath), "n_trees" := Int(c.nTrees),
        "min_samples_split" := Int(c.sampleSplit), "max_depth" := Int(c.maxDepth),
        "x_features_fraction" := Float(c.featuresFraction), "data_split" := Float(c.dataSplit),
        "show_unoptimized" := Bool(c.showUnoptimized)]
  }

  /** Reads a document back; None when a key is missing or has the wrong kind of value. */
  function Decode(doc: map<string, Value>): Option<RandomForestTrainingConfig> {
    if DescriptorKeys <= doc.Keys
       && doc["task"].Str? && doc["input_data"].Str? && doc["features"].StrArray?
       && doc["y_axis"].Str? && doc["path"].Str? && doc["n_trees"].Int?
       && doc["min_samples_split"].Int? && doc["max_depth"].Int?
       && doc["x_features_fraction"].Float? && doc["data_split"].Float?
       && doc["show_unoptimized"].Bool?
    then Some(RandomForestTrainingConfig(
      doc["task"].s, doc["input_data"].s, doc["features"].items, doc["y_axis"].s, doc["path"].s,
      doc["n_trees"].i, doc["min_samples_split"].i, doc["max_depth"].i,
      doc["x_features_fraction"].f, doc["data_split"].f, doc["show_unoptimized"].b))
    else None
  }

  /** Every descriptor survives the trip through its document unchanged. */
  lemma DecodeEncode(c: RandomForestTrainingConfig)
    ensures Decode(Encode(c)) == Some(c)
  {
  }

  /** So the document determines the descriptor: distinct descriptors give distinct documents. */
  lemma EncodeInjective(a: RandomForestTrainingConfig, b: RandomForestTrainingConfig)
    requires Encode(a) == Encode(b)
    ensures a == b
  {
    DecodeEncode(a);
    DecodeEncode(b);
  }
}
