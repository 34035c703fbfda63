/**
 * The entity types of the `session` package and `Session.Setup`, the
 * startup registration of model and dataset files already on the volume.
 * Directory listings are inputs: `os.ReadDir` is left to the caller.
 */
module Sessions {
  import opened Wrappers
  import opened Text

  /** The eight float64 metrics of a `Model`, in declaration order. */
  datatype Metrics = Metrics(
    unoptValAccuracy: real,
    unoptValRecall: real,
    unoptTestAccuracy: real,
    unoptTestRecall: real,
    valAccuracy: real,
    valRecall: real,
    testAccuracy: real,
    testRecall: real)

  const ZeroMetrics := Metrics(0.0, 0.0, 0.0, 0.0, 0.0, 0.0, 0.0, 0.0)

  datatype Model = Model(
    name: string,
    id: string,
    trainedDataset: string,
    features: seq<string>,
    idNum: nat,
    path: string,
    inferName: string,
    metrics: Metrics)

  datatype Dataset = Dataset(name: string, id: string, datapoints: int, idNum: nat, path: string)

  /** Declared by the service but never created by any flow. */
  datatype Result = Result(modelId: string, datasetId: string, tree: string, precision: string, recall: string)

  datatype Task = Task(id: string, modelId: string, status: string, idNum: nat)

  const Running := "Running"
  const Complete := "Complete"

  /** The body of a training request. */
  datatype TrainingConfig = TrainingConfig(
    name: string,
    datasetId: string,
    inferName: string,
    features: seq<string>,
    nTrees: int,
    sampleSplit: int,
    maxDepth: int,
    featuresFraction: real,
    dataSplit: real,
    showUnoptimized: bool)

  /** The body of an inference request. */
  datatype InferConfig = InferConfig(modelId: string, datasetId: string)

  datatype InferenceResponse = InferenceResponse(trainedPrecision: real, trainedRecall: real)

  /** The job descriptor handed to the worker (the struct behind the TOML file). */
  datatype RandomForestTrainingConfig = RandomForestTrainingConfig(
    taskType: string,
    filePath: string,
    features: seq<string>,
    inferenceName: string,
    modelPath: string,
    nTrees: int,
    sampleSplit: int,
    maxDepth: int,
    featuresFraction: real,
    dataSplit: real,
    showUnoptimized: bool)

  /** Go's zero value of the descriptor struct. */
  const EmptyDescriptor := RandomForestTrainingConfig("", "", [], "", "", 0, 0, 0, 0.0, 0.0, false)

  // Identifier invariants of a session.

  predicate ModelIdsFormatted(models: seq<Model>) {
    forall i :: 0 <= i < |models| ==> models[i].id == "m" + Decimal(models[i].idNum)
  }

  predicate DatasetIdsFormatted(datasets: seq<Dataset>) {
    forall i :: 0 <= i < |datasets| ==> datasets[i].id == "d" + Decimal(datasets[i].idNum)
  }

  predicate TaskIdsFormatted(tasks: seq<Task>) {
    forall i :: 0 <= i < |tasks| ==> tasks[i].id == "t" + Decimal(tasks[i].idNum)
  }

  predicate DistinctModelIds(models: seq<Model>) {
    forall i, j :: 0 <= i < j < |models| ==> models[i].idNum != models[j].idNum
  }

  predicate DistinctTaskIds(tasks: seq<Task>) {
    forall i, j :: 0 <= i < j < |tasks| ==> tasks[i].idNum != tasks[j].idNum
  }

  /** Distinct id numbers and the prefix format make the id strings distinct too. */
  lemma DistinctModelIdStrings(models: seq<Model>, i: nat, j: nat)
    requires ModelIdsFormatted(models) && DistinctModelIds(models)
    requires i < j < |models|
    ensures models[i].id != models[j].id
  {
    if models[i].id == models[j].id {
      PrefixedDecimalInjective("m", models[i].idNum, models[j].idNum);
    }
  }

  // Startup scan.

  /** The model registered for the `i`-th entry `name` of the `models` listing. */
  function ScannedModel(volumePath: string, name: string, i: nat): (m: Model)
    ensures m.idNum == i && m.id == "m" + Decimal(i) && m.name == name
    ensures m.path == volumePath + "models" + name + ".model"
    ensures m.trainedDataset == "Unknown" && m.features == ["Unknown"] && m.inferName == "Unknown"
            && m.metrics == ZeroMetrics
  {
    Model(name, "m" + Decimal(i), "Unknown", ["Unknown"], i,
          volumePath + "models" + name + ".model", "Unknown", ZeroMetrics)
  }

  function ScannedModels(volumePath: string, names: seq<string>): seq<Model> {
    seq(|names|, i requires 0 <= i < |names| => ScannedModel(volumePath, names[i], i))
  }

  /** The dataset registered for the `i`-th entry `name` of the `datasets` listing. */
  function ScannedDataset(volumePath: string, name: string, i: nat): (d: Dataset)
    ensures d.idNum == i && d.id == "d" + Decimal(i) && d.name == name && d.datapoints == 0
    ensures d.path == volumePath + "datasets" + name + ".csv"
  {
    Dataset(name, "d" + Decimal(i), 0, i, volumePath + "datasets" + name + ".csv")
  }

  function ScannedDatasets(volumePath: string, names: seq<string>): seq<Dataset> {
    seq(|names|, i requires 0 <= i < |names| => ScannedDataset(volumePath, names[i], i))
  }

  /** Models appended while walking the volume entries `files`: one scan per entry named `models`. */
  function RegisteredModels(volumePath: string, files: seq<string>, names: seq<string>): seq<Model>
    decreases |files|
  {
    if files == [] then []
    else RegisteredModels(volumePath, files[..|files| - 1], names)
         + (if files[|files| - 1] == "models" then ScannedModels(volumePath, names) else [])
  }

  function RegisteredDatasets(volumePath: string, files: seq<string>, names: seq<string>): seq<Dataset>
    decreases |files|
  {
    if files == [] then []
    else RegisteredDatasets(volumePath, files[..|files| - 1], names)
         + (if files[|files| - 1] == "datasets" then ScannedDatasets(volumePath, names) else [])
  }

  /** The directories `Setup` tries to create: the subfolders missing from the volume listing. */
  function MkdirTargets(volumePath: string, entries: Option<seq<string>>): (dirs: seq<string>)
    ensures volumePath + "/models" in dirs <==> !(entries.Some? && "models" in entries.value)
    ensures volumePath + "/datasets" in dirs <==> !(entries.Some? && "datasets" in entries.value)
    ensures |dirs| <= 2
  {
    assert (volumePath + "/models")[|volumePath| + 1] != (volumePath + "/datasets")[|volumePath| + 1];
    (if entries.Some? && "models" in entries.value then [] else [volumePath + "/models"])
    + (if entries.Some? && "datasets" in entries.value then [] else [volumePath + "/datasets"])
  }

  predicate NoDuplicates(files: seq<string>) {
    forall i, j :: 0 <= i < j < |files| ==> files[i] != files[j]
  }

  /** Registering one more listing entry extends the registrations made so far. */
  lemma RegisteredStep(volumePath: string, files: seq<string>, k: nat, modelFiles: seq<string>, datasetFiles: seq<string>)
    requires k < |files|
    ensures "models" in files[..k + 1] <==> "models" in files[..k] || files[k] == "models"
    ensures "datasets" in files[..k + 1] <==> "datasets" in files[..k] || files[k] == "datasets"
    ensures RegisteredModels(volumePath, files[..k + 1], modelFiles)
            == RegisteredModels(volumePath, files[..k], modelFiles)
               + (if files[k] == "models" then ScannedModels(volumePath, modelFiles) else [])
    ensures RegisteredDatasets(volumePath, files[..k + 1], datasetFiles)
            == RegisteredDatasets(volumePath, files[..k], datasetFiles)
               + (if files[k] == "datasets" then ScannedDatasets(volumePath, datasetFiles) else [])
  {
    assert files[..k + 1] == files[..k] + [files[k]];
    assert files[..k + 1][..k] == files[..k];
  }

  /** In a directory listing (no repeated names) the models listing is registered once, or not at all. */
  lemma {:induction false} RegisteredModelsOfListing(volumePath: string, files: seq<string>, names: seq<string>)
    requires NoDuplicates(files)
    ensures RegisteredModels(volumePath, files, names)
            == if "models" in files then ScannedModels(volumePath, names) else []
    decreases |files|
  {
    if files != [] {
      var init := files[..|files| - 1];
      assert files == init + [files[|files| - 1]];
      RegisteredModelsOfListing(volumePath, init, names);
      if files[|files| - 1] == "models" {
        assert "models" !in init;
      }
    }
  }

  lemma {:induction false} RegisteredDatasetsOfListing(volumePath: string, files: seq<string>, names: seq<string>)
    requires NoDuplicates(files)
    ensures RegisteredDatasets(volumePath, files, names)
            == if "datasets" in files then ScannedDatasets(volumePath, names) else []
    decreases |files|
  {
    if files != [] {
      var init := files[..|files| - 1];
      assert files == init + [files[|files| - 1]];
      RegisteredDatasetsOfListing(volumePath, init, names);
      if files[|files| - 1] == "datasets" {
        assert "datasets" !in init;
      }
    }
  }

  /** Scanned models get ids m0, m1, ... in listing order: well formed and pairwise distinct. */
  lemma ScannedModelsWellFormed(volumePath: string, names: seq<string>)
    ensures |ScannedModels(volumePath, names)| == |names|
    ensures ModelIdsFormatted(ScannedModels(volumePath, names))
    ensures DistinctModelIds(ScannedModels(volumePath, names))
    ensures forall i :: 0 <= i < |names| ==> ScannedModels(volumePath, names)[i].idNum == i
  {
  }

  /** Registering a directory listing at startup yields well-formed, distinct model ids. */
  lemma ListingRegistrationWellFormed(volumePath: string, files: seq<string>,
                                      modelFiles: seq<string>, datasetFiles: seq<string>)
    requires NoDuplicates(files)
    ensures ModelIdsFormatted(RegisteredModels(volumePath, files, modelFiles))
    ensures DistinctModelIds(RegisteredModels(volumePath, files, modelFiles))
    ensures DatasetIdsFormatted(RegisteredDatasets(volumePath, files, datasetFiles))
  {
    RegisteredModelsOfListing(volumePath, files, modelFiles);
    RegisteredDatasetsOfListing(volumePath, files, datasetFiles);
    ScannedModelsWellFormed(volumePath, modelFiles);
  }

  /** The in-memory catalog: four slices, appended to by the handlers. */
  class Session {
    var models: seq<Model>
    var datasets: seq<Dataset>
    var results: seq<Result>
    var tasks: seq<Task>

    /** The identifier invariants every handler keeps. */
    predicate Valid()
      reads this
    {
      ModelIdsFormatted(models) && DatasetIdsFormatted(datasets) && TaskIdsFormatted(tasks)
      && DistinctModelIds(models) && DistinctTaskIds(tasks)
    }

    /** The zero value of the global `current_session`. */
    constructor ()
      ensures models == [] && datasets == [] && results == [] && tasks == []
      ensures Valid()
    {
      models, datasets, results, tasks := [], [], [], [];
    }

    /**
     * Registers the files found under the volume. `volumeEntries` is the
     * listing of `volumePath` (None when it cannot be read); `modelFiles`
     * and `datasetFiles` are the listings of the relative directories
     * `models` and `datasets` (whatever `os.ReadDir` returned, possibly
     * empty after an error). Returns the directories it tries to create.
     */
    method Setup(volumePath: string, volumeEntries: Option<seq<string>>,
                 modelFiles: seq<string>, datasetFiles: seq<string>)
      returns (mkdirs: seq<string>)
      modifies this
      ensures volumeEntries.None? ==> models == old(models) && datasets == old(datasets)
      ensures volumeEntries.Some?
              ==> models == old(models) + RegisteredModels(volumePath, volumeEntries.value, modelFiles)
      ensures volumeEntries.Some?
              ==> datasets == old(datasets) + RegisteredDatasets(volumePath, volumeEntries.value, datasetFiles)
      ensures results == old(results) && tasks == old(tasks)
      ensures mkdirs == MkdirTargets(volumePath, volumeEntries)
      ensures (old(models) == [] && old(datasets) == [] && old(tasks) == []
               && (volumeEntries.Some? ==> NoDuplicates(volumeEntries.value))) ==> Valid()
    {
      var modelsExists := false;
      var datasetsExists := false;
      if volumeEntries.Some? {
        modelsExists, datasetsExists := RegisterListing(volumePath, volumeEntries.value, modelFiles, datasetFiles);
        if NoDuplicates(volumeEntries.value) {
          ListingRegistrationWellFormed(volumePath, volumeEntries.value, modelFiles, datasetFiles);
        }
      }
      mkdirs := [];
      if !modelsExists {
        mkdirs := mkdirs + [volumePath + "/models"];
      }
      if !datasetsExists {
        mkdirs := mkdirs + [volumePath + "/datasets"];
      }
    }

    /** The loop of `Setup` over the volume listing `files`; reports which subfolders it saw. */
    method RegisterListing(volumePath: string, files: seq<string>, modelFiles: seq<string>, datasetFiles: seq<string>)
      returns (modelsExists: bool, datasetsExists: bool)
      modifies this
      ensures models == old(models) + RegisteredModels(volumePath, files, modelFiles)
      ensures datasets == old(datasets) + RegisteredDatasets(volumePath, files, datasetFiles)
      ensures results == old(results) && tasks == old(tasks)
      ensures modelsExists == ("models" in files) && datasetsExists == ("datasets" in files)
    {
      modelsExists, datasetsExists := false, false;
      var k := 0;
      while k < |files|
        invariant 0 <= k <= |files|
        invariant models == old(models) + RegisteredModels(volumePath, files[..k], modelFiles)
        invariant datasets == old(datasets) + RegisteredDatasets(volumePath, files[..k], datasetFiles)
        invariant modelsExists == ("models" in files[..k])
        invariant datasetsExists == ("datasets" in files[..k])
        invariant results == old(results) && tasks == old(tasks)
      {
        RegisteredStep(volumePath, files, k, modelFiles, datasetFiles);
        RegisterEntry(volumePath, files[k], modelFiles, datasetFiles);
        modelsExists := modelsExists || files[k] == "models";
        datasetsExists := datasetsExists || files[k] == "datasets";
        k := k + 1;
      }
      assert files[..k] == files;
    }

    /** One entry of the volume listing: scan `models` or `datasets` when the entry has that name. */
    method RegisterEntry(volumePath: string, name: string, modelFiles: seq<string>, datasetFiles: seq<string>)
      modifies this
      ensures models == old(models) + (if name == "models" then ScannedModels(volumePath, modelFiles) else [])
      ensures datasets == old(datasets) + (if name == "datasets" then ScannedDatasets(volumePath, datasetFiles) else [])
      ensures results == old(results) && tasks == old(tasks)
    {
      if name == "models" {
        AppendScannedModels(volumePath, modelFiles);
      }
      if name == "datasets" {
        AppendScannedDatasets(volumePath, datasetFiles);
      }
    }

    /** The inner loop of `Setup` over the `models` listing: model `i` gets id `m<i>`. */
    method AppendScannedModels(volumePath: string, names: seq<string>)
      modifies this
      ensures models == old(models) + ScannedModels(volumePath, names)
      ensures datasets == old(datasets) && results == old(results) && tasks == old(tasks)
    {
      var i := 0;
      while i < |names|
        invariant 0 <= i <= |names|
        invariant models == old(models) + ScannedModels(volumePath, names)[..i]
        invariant datasets == old(datasets) && results == old(results) && tasks == old(tasks)
      {
        assert ScannedModels(volumePath, names)[..i + 1]
               == ScannedModels(volumePath, names)[..i] + [ScannedModel(volumePath, names[i], i)];
        models := models + [ScannedModel(volumePath, names[i], i)];
        i := i + 1;
      }
      assert ScannedModels(volumePath, names)[..i] == ScannedModels(volumePath, names);
    }

    /** The inner loop of `Setup` over the `datasets` listing: dataset `i` gets id `d<i>`. */
    method AppendScannedDatasets(volumePath: string, names: seq<string>)
      modifies this
      ensures datasets == old(datasets) + ScannedDatasets(volumePath, names)
      ensures models == old(models) && results == old(results) && tasks == old(tasks)
    {
      var i := 0;
      while i < |names|
        invariant 0 <= i <= |names|
        invariant datasets == old(datasets) + ScannedDatasets(volumePath, names)[..i]
        invariant models == old(models) && results == old(results) && tasks == old(tasks)
      {
        assert ScannedDatasets(volumePath, names)[..i + 1]
               == ScannedDatasets(volumePath, names)[..i] + [ScannedDataset(volumePath, names[i], i)];
        datasets := datasets + [ScannedDataset(volumePath, names[i], i)];
        i := i + 1;
      }
      assert ScannedDatasets(volumePath, names)[..i] == ScannedDatasets(volumePath, names);
    }
  }
}
