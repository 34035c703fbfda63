/**
 * The request handlers of main.go over the global session. Each request
 * runs as one sequential step: the worker goroutine is awaited on a fresh
 * channel before the handler goes on, so its output is the parameter
 * `workerOutput`. A handler's replies are the ordered list of
 * `c.JSON` / `c.String` / `c.Data` calls it makes.
 */
module Handlers {
  import opened Wrappers
  import opened Text
  import opened Sessions
  import opened Output
  import opened Descriptors

  datatype Body =
    | Message(text: string)
    | ModelJson(model: Model)
    | DatasetJson(dataset: Dataset)
    | ModelsJson(models: seq<Model>)
    | LinesJson(lines: seq<string>)
    | InferenceJson(response: InferenceResponse)
    | FileData(path: string)     // the bytes read from the file at `path`
    | NoData                     // `c.Data` with the nil slice of a failed read
    | AbortError                 // `c.AbortWithError`

  datatype Response = Response(status: nat, body: Body)

  const StatusOK: nat := 200
  const StatusBadRequest: nat := 400
  const StatusBadGateway: nat := 502

  /**
   * How a handler ends: it returns; it panics in the request goroutine
   * (an index out of range or a nil dereference, answered with 500 by gin's
   * recovery); or the whole process exits (`log.Fatal`, or a panic in the
   * worker goroutine, which nothing recovers).
   */
  datatype Outcome =
    | Finished(responses: seq<Response>)
    | Panicked(responses: seq<Response>)
    | Exited(responses: seq<Response>)

  function Repeat(r: Response, n: nat): (rs: seq<Response>)
    ensures |rs| == n && forall i :: 0 <= i < n ==> rs[i] == r
  {
    seq(n, _ => r)
  }

  // Identifier allocation: "max existing + 1".

  function ModelIdNums(models: seq<Model>): seq<nat> {
    seq(|models|, i requires 0 <= i < |models| => models[i].idNum)
  }

  function TaskIdNums(tasks: seq<Task>): seq<nat> {
    seq(|tasks|, i requires 0 <= i < |tasks| => tasks[i].idNum)
  }

  /** `slices.Max`. */
  function SliceMax(ids: seq<nat>): (m: nat)
    requires |ids| > 0
    ensures m in ids
    ensures forall i :: 0 <= i < |ids| ==> ids[i] <= m
  {
    if |ids| == 1 then ids[0]
    else
      var rest := SliceMax(ids[1..]);
      if ids[0] >= rest then ids[0] else rest
  }

  /** `max_id` after the scan: 0 when there is nothing to scan. */
  function MaxOrZero(ids: seq<nat>): nat {
    if |ids| == 0 then 0 else SliceMax(ids)
  }

  /** The next id number: one more than the largest, and 1 for an empty list. */
  function NextIdNum(ids: seq<nat>): (r: nat)
    ensures forall i :: 0 <= i < |ids| ==> ids[i] < r
    ensures |ids| == 0 ==> r == 1
    ensures |ids| > 0 ==> r - 1 in ids
  {
    MaxOrZero(ids) + 1
  }

  /** The loop collecting `existing_model_ids`. */
  method ExistingModelIds(models: seq<Model>) returns (ids: seq<nat>)
    ensures ids == ModelIdNums(models)
  {
    ids := [];
    var i := 0;
    while i < |models|
      invariant 0 <= i <= |models|
      invariant ids == ModelIdNums(models[..i])
    {
      assert ModelIdNums(models[..i + 1]) == ModelIdNums(models[..i]) + [models[i].idNum];
      ids := ids + [models[i].idNum];
      i := i + 1;
    }
    assert models[..i] == models;
  }

  /** The loop collecting `existing_task_ids`. */
  method ExistingTaskIds(tasks: seq<Task>) returns (ids: seq<nat>)
    ensures ids == TaskIdNums(tasks)
  {
    ids := [];
    var i := 0;
    while i < |tasks|
      invariant 0 <= i <= |tasks|
      invariant ids == TaskIdNums(tasks[..i])
    {
      assert TaskIdNums(tasks[..i + 1]) == TaskIdNums(tasks[..i]) + [tasks[i].idNum];
      ids := ids + [tasks[i].idNum];
      i := i + 1;
    }
    assert tasks[..i] == tasks;
  }

  /** The block shared by the three model-creating handlers: `max_id` over the Models list. */
  method ModelMaxId(models: seq<Model>) returns (maxId: nat)
    ensures maxId == MaxOrZero(ModelIdNums(models))
    ensures maxId + 1 == NextIdNum(ModelIdNums(models))
  {
    var ids := ExistingModelIds(models);
    maxId := 0;
    if |ids| != 0 {
      maxId := SliceMax(ids);
    }
  }

  /** A model created next, with id number `NextIdNum`, keeps the model ids well formed and distinct. */
  lemma AppendNextModel(models: seq<Model>, m: Model)
    requires ModelIdsFormatted(models) && DistinctModelIds(models)
    requires m.idNum == NextIdNum(ModelIdNums(models)) && m.id == "m" + Decimal(m.idNum)
    ensures ModelIdsFormatted(models + [m]) && DistinctModelIds(models + [m])
    ensures forall i :: 0 <= i < |models| ==> models[i].id != m.id
  {
    forall i | 0 <= i < |models| ensures models[i].id != m.id && models[i].idNum != m.idNum {
      assert ModelIdNums(models)[i] == models[i].idNum;
      if models[i].id == m.id {
        PrefixedDecimalInjective("m", models[i].idNum, m.idNum);
      }
    }
    var all := models + [m];
    forall i, j | 0 <= i < j < |all| ensures all[i].idNum != all[j].idNum {
      if j == |models| { assert all[i] == models[i]; }
    }
  }

  // The training flow's new entities.

  /** The model `startTraining` builds before the worker runs (metrics still zero). */
  function TrainingModel(models: seq<Model>, body: TrainingConfig): (m: Model)
    ensures m.idNum == NextIdNum(ModelIdNums(models)) && m.id == "m" + Decimal(m.idNum)
    ensures forall i :: 0 <= i < |models| ==> models[i].idNum < m.idNum
    ensures m.name == body.name && m.trainedDataset == body.datasetId && m.features == body.features
            && m.inferName == body.inferName && m.path == "/storage/models/" + body.name + ".model"
            && m.metrics == ZeroMetrics
  {
    assert forall i :: 0 <= i < |models| ==> ModelIdNums(models)[i] == models[i].idNum;
    var n := NextIdNum(ModelIdNums(models));
    Model(body.name, "m" + Decimal(n), body.datasetId, body.features, n,
          "/storage/models/" + body.name + ".model", body.inferName, ZeroMetrics)
  }

  /**
   * The new task's id number. `max_id` is reused from the model scan, so
   * with no tasks yet the task number is the new model's number.
   */
  function TrainingTaskIdNum(models: seq<Model>, tasks: seq<Task>): (n: nat)
    ensures |tasks| == 0 ==> n == NextIdNum(ModelIdNums(models))
    ensures |tasks| > 0 ==> n == NextIdNum(TaskIdNums(tasks))
  {
    (if |tasks| == 0 then MaxOrZero(ModelIdNums(models)) else SliceMax(TaskIdNums(tasks))) + 1
  }

  /** The task `startTraining` appends: Running, for the new model, numbered above every existing task. */
  function TrainingTask(models: seq<Model>, tasks: seq<Task>, body: TrainingConfig): (t: Task)
    ensures t.status == Running && t.modelId == TrainingModel(models, body).id
    ensures t.idNum == TrainingTaskIdNum(models, tasks) && t.id == "t" + Decimal(t.idNum)
    ensures forall i :: 0 <= i < |tasks| ==> tasks[i].idNum < t.idNum
  {
    assert forall i :: 0 <= i < |tasks| ==> TaskIdNums(tasks)[i] == tasks[i].idNum;
    var n := TrainingTaskIdNum(models, tasks);
    Task("t" + Decimal(n), TrainingModel(models, body).id, Running, n)
  }

  /** With an empty task list the first task's number equals the new model's number. */
  lemma FirstTaskSharesModelNumber(models: seq<Model>, body: TrainingConfig)
    ensures TrainingTask(models, [], body).idNum == TrainingModel(models, body).idNum
    ensures TrainingTask(models, [], body).modelId == TrainingModel(models, body).id
    ensures TrainingTask(models, [], body).status == Running
  {
  }

  /** A task created next keeps the task ids well formed and distinct. */
  lemma AppendNextTask(tasks: seq<Task>, t: Task)
    requires TaskIdsFormatted(tasks) && DistinctTaskIds(tasks)
    requires |tasks| > 0 ==> t.idNum == NextIdNum(TaskIdNums(tasks))
    requires t.id == "t" + Decimal(t.idNum)
    ensures TaskIdsFormatted(tasks + [t]) && DistinctTaskIds(tasks + [t])
  {
    var all := tasks + [t];
    forall i, j | 0 <= i < j < |all| ensures all[i].idNum != all[j].idNum {
      if j == |tasks| {
        assert all[i] == tasks[i];
        assert TaskIdNums(tasks)[i] == tasks[i].idNum;
      }
    }
  }

  // Task completion: by position, always the last task.

  function CompleteLast(tasks: seq<Task>): (r: seq<Task>)
    requires |tasks| > 0
    ensures |r| == |tasks| && r[|r| - 1] == tasks[|tasks| - 1].(status := Complete)
    ensures forall i :: 0 <= i < |tasks| - 1 ==> r[i] == tasks[i]
  {
    tasks[|tasks| - 1 := tasks[|tasks| - 1].(status := Complete)]
  }

  /** `after` keeps every task of `before` in place, with its ids, and no Complete task is Running again. */
  predicate NeverReopened(before: seq<Task>, after: seq<Task>) {
    |before| <= |after|
    && forall i :: 0 <= i < |before| ==>
         after[i].id == before[i].id && after[i].idNum == before[i].idNum
         && after[i].modelId == before[i].modelId
         && (before[i].status == Complete ==> after[i].status == Complete)
  }

  lemma CompleteLastKeepsTasks(tasks: seq<Task>)
    requires |tasks| > 0
    ensures NeverReopened(tasks, CompleteLast(tasks))
    ensures TaskIdsFormatted(tasks) ==> TaskIdsFormatted(CompleteLast(tasks))
    ensures DistinctTaskIds(tasks) ==> DistinctTaskIds(CompleteLast(tasks))
  {
    var r := CompleteLast(tasks);
    assert forall i :: 0 <= i < |tasks| ==> r[i].idNum == tasks[i].idNum && r[i].id == tasks[i].id;
  }

  // Lookup by linear scan.

  /** Index of the first item whose id is `id`, or `|items|` when there is none. */
  function FirstMatch<E>(items: seq<E>, idOf: E -> string, id: string): (k: nat)
    ensures k <= |items|
    ensures forall j :: 0 <= j < k ==> idOf(items[j]) != id
    ensures k < |items| ==> idOf(items[k]) == id
    decreases |items|
  {
    if |items| == 0 then 0
    else if idOf(items[0]) == id then 0
    else 1 + FirstMatch(items[1..], idOf, id)
  }

  function DatasetIdOf(d: Dataset): string { d.id }

  function ModelIdOf(m: Model): string { m.id }

  /** The loop of `getModel` and `getModelTree`: stop at the first model with the id. */
  method FindFirst<E>(items: seq<E>, idOf: E -> string, id: string) returns (k: nat)
    ensures k == FirstMatch(items, idOf, id)
  {
    k := 0;
    while k < |items| && idOf(items[k]) != id
      invariant 0 <= k <= |items|
      invariant FirstMatch(items, idOf, id) == k + FirstMatch(items[k..], idOf, id)
    {
      assert items[k..][1..] == items[k + 1..];
      k := k + 1;
    }
  }

  /**
   * The loops of `startTraining` and `infer`: stop at the first item with
   * the id, emitting the reply `miss` for every item scanned before it
   * (so for every item when none matches).
   */
  method ScanFor<E>(items: seq<E>, idOf: E -> string, id: string, miss: Response)
    returns (k: nat, responses: seq<Response>)
    ensures k == FirstMatch(items, idOf, id)
    ensures responses == Repeat(miss, k)
  {
    k := 0;
    responses := [];
    while k < |items|
      invariant 0 <= k <= |items|
      invariant forall j :: 0 <= j < k ==> idOf(items[j]) != id
      invariant responses == Repeat(miss, k)
    {
      if idOf(items[k]) == id {
        break;
      }
      responses := responses + [miss];
      k := k + 1;
    }
    FirstMatchIsFirst(items, idOf, id, k);
  }

  /** `FirstMatch` is characterised by its contract. */
  lemma {:induction false} FirstMatchIsFirst<E>(items: seq<E>, idOf: E -> string, id: string, k: nat)
    requires k <= |items|
    requires forall j :: 0 <= j < k ==> idOf(items[j]) != id
    requires k < |items| ==> idOf(items[k]) == id
    ensures FirstMatch(items, idOf, id) == k
    decreases |items|
  {
    if |items| > 0 && idOf(items[0]) != id {
      FirstMatchIsFirst(items[1..], idOf, id, k - 1);
    }
  }

  /** The path `startTraining` and `infer` resolve for a dataset id: "" when none matches. */
  function DatasetPath(datasets: seq<Dataset>, id: string): (path: string)
    ensures path == "" || exists k :: 0 <= k < |datasets| && datasets[k].id == id && datasets[k].path == path
  {
    var k := FirstMatch(datasets, DatasetIdOf, id);
    if k < |datasets| then datasets[k].path else ""
  }

  /**
   * The dataset lookup of `startTraining` and `infer`: the path of the first
   * dataset with the id, and "" when none has it.
   */
  lemma DatasetPathResolves(datasets: seq<Dataset>, id: string)
    ensures (forall j :: 0 <= j < |datasets| ==> datasets[j].id != id) ==> DatasetPath(datasets, id) == ""
    ensures forall k :: 0 <= k < |datasets| && datasets[k].id == id
                        && (forall j :: 0 <= j < k ==> datasets[j].id != id)
                        ==> DatasetPath(datasets, id) == datasets[k].path
  {
    forall k | 0 <= k < |datasets| && datasets[k].id == id && (forall j :: 0 <= j < k ==> datasets[j].id != id)
      ensures DatasetPath(datasets, id) == datasets[k].path
    {
      FirstMatchIsFirst(datasets, DatasetIdOf, id, k);
    }
    if forall j :: 0 <= j < |datasets| ==> datasets[j].id != id {
      FirstMatchIsFirst(datasets, DatasetIdOf, id, |datasets|);
    }
  }

  function DatasetNotFound(id: string): Response {
    Response(StatusBadRequest, Message("dataset not found, id: " + id))
  }

  // startTraining

  /**
   * The descriptor `startTraining` hands to the worker: a "train" job on the
   * resolved dataset path, the new model's path, and the request's target,
   * features and hyperparameters.
   */
  function TrainingDescriptor(models: seq<Model>, datasets: seq<Dataset>, body: TrainingConfig,
                              creatable: string -> bool): (w: WriteOutcome)
    ensures w.Fatal? <==> !creatable(TrainPrimary) && !creatable(TrainFallback)
    ensures w.Written? ==>
              && w.config.taskType == "train"
              && w.config.filePath == DatasetPath(datasets, body.datasetId)
              && w.config.modelPath == "/storage/models/" + body.name + ".model"
              && w.config.inferenceName == body.inferName && w.config.features == body.features
              && w.config.nTrees == body.nTrees && w.config.sampleSplit == body.sampleSplit
              && w.config.maxDepth == body.maxDepth && w.config.featuresFraction == body.featuresFraction
              && w.config.dataSplit == body.dataSplit && w.config.showUnoptimized == body.showUnoptimized
  {
    GenerateTrainingToml(DatasetPath(datasets, body.datasetId), TrainingModel(models, body).path,
                         body.inferName, "train", body.features, body.maxDepth, body.nTrees,
                         body.sampleSplit, body.featuresFraction, body.dataSplit, body.showUnoptimized,
                         creatable)
  }

  /**
   * The "New Model" and "New Task" blocks of `startTraining`: one `max_id`
   * serves both scans, so the task scan only overrides it when there are tasks.
   */
  method NewTrainingEntities(models: seq<Model>, tasks: seq<Task>, body: TrainingConfig)
    returns (newModel: Model, newTask: Task)
    ensures newModel == TrainingModel(models, body)
    ensures newTask == TrainingTask(models, tasks, body)
  {
    var maxId := ModelMaxId(models);
    newModel := Model(body.name, "m" + Decimal(maxId + 1), body.datasetId, body.features, maxId + 1,
                      "/storage/models/" + body.name + ".model", body.inferName, ZeroMetrics);
    var taskIds := ExistingTaskIds(tasks);
    if |taskIds| != 0 {
      maxId := SliceMax(taskIds);
    }
    newTask := Task("t" + Decimal(maxId + 1), newModel.id, Running, maxId + 1);
  }

  /** The first half of `startTraining`: build the new model and append the Running task. */
  method BeginTraining(s: Session, body: TrainingConfig) returns (newModel: Model)
    modifies s
    ensures newModel == TrainingModel(old(s.models), body)
    ensures s.tasks == old(s.tasks) + [TrainingTask(old(s.models), old(s.tasks), body)]
    ensures s.models == old(s.models) && s.datasets == old(s.datasets) && s.results == old(s.results)
    ensures NeverReopened(old(s.tasks), s.tasks)
    ensures old(s.Valid()) ==> s.Valid()
  {
    var newTask;
    newModel, newTask := NewTrainingEntities(s.models, s.tasks, body);
    if s.Valid() {
      AppendNextTask(s.tasks, newTask);
    }
    s.tasks := s.tasks + [newTask];
  }

  /** Completing right after an append completes the appended task. */
  lemma CompleteLastOfAppended(tasks: seq<Task>, t: Task)
    ensures CompleteLast(tasks + [t]) == tasks + [t.(status := Complete)]
  {
    var r := CompleteLast(tasks + [t]);
    assert forall i :: 0 <= i < |tasks| ==> r[i] == (tasks + [t])[i] == tasks[i];
  }

  lemma NeverReopenedTransitive(a: seq<Task>, b: seq<Task>, c: seq<Task>)
    requires NeverReopened(a, b) && NeverReopened(b, c)
    ensures NeverReopened(a, c)
  {
  }

  /**
   * `startTraining`: appends a Running task, resolves the dataset, writes
   * the descriptor, runs the worker, marks the last task Complete, parses
   * the last eight output lines and appends the trained model.
   */
  method StartTraining(s: Session, body: TrainingConfig, workerOutput: string,
                       creatable: string -> bool, parse: string -> Option<real>)
    returns (outcome: Outcome, written: WriteOutcome)
    modifies s
    ensures written == TrainingDescriptor(old(s.models), old(s.datasets), body, creatable)
    ensures s.datasets == old(s.datasets) && s.results == old(s.results)
    ensures outcome.Exited? <==> written.Fatal?
    ensures outcome.Panicked? <==> !outcome.Exited? && |Lines(workerOutput)| < 8
    ensures var task := TrainingTask(old(s.models), old(s.tasks), body);
            s.tasks == old(s.tasks) + [if outcome.Exited? then task else task.(status := Complete)]
    ensures var misses := Repeat(DatasetNotFound(body.datasetId),
                                 FirstMatch(old(s.datasets), DatasetIdOf, body.datasetId));
            && (outcome.Finished? ==>
                  var model := TrainingModel(old(s.models), body).(metrics := TrainingMetrics(Lines(workerOutput), parse));
                  s.models == old(s.models) + [model]
                  && outcome.responses == misses + [Response(StatusOK, ModelJson(model))])
            && (!outcome.Finished? ==> s.models == old(s.models) && outcome.responses == misses)
    ensures NeverReopened(old(s.tasks), s.tasks)
    ensures old(s.Valid()) ==> s.Valid()
  {
    var newModel := BeginTraining(s, body);
    ghost var started := s.tasks;
    // Dataset lookup
    var k, misses := ScanFor(s.datasets, DatasetIdOf, newModel.trainedDataset,
                             DatasetNotFound(newModel.trainedDataset));
    var datasetPath := if k < |s.datasets| then s.datasets[k].path else "";
    written := GenerateTrainingToml(datasetPath, newModel.path, body.inferName, "train", body.features,
                                        body.maxDepth, body.nTrees, body.sampleSplit, body.featuresFraction,
                                        body.dataSplit, body.showUnoptimized, creatable);
    if written.Fatal? {
      return Exited(misses), written;
    }
    // The worker runs on the descriptor; then the last task is marked Complete.
    var finished, model := FinishTraining(s, newModel, Lines(workerOutput), parse);
    NeverReopenedTransitive(old(s.tasks), started, s.tasks);
    CompleteLastOfAppended(old(s.tasks), TrainingTask(old(s.models), old(s.tasks), body));
    if !finished {
      return Panicked(misses), written;
    }
    outcome := Finished(misses + [Response(StatusOK, ModelJson(model))]);
  }

  /**
   * The part of `startTraining` after the worker returns: the last task is
   * marked Complete, and with at least eight output lines the model is
   * appended with its parsed metrics (with fewer, indexing panics).
   */
  method FinishTraining(s: Session, newModel: Model, lines: seq<string>, parse: string -> Option<real>)
    returns (finished: bool, model: Model)
    requires |s.tasks| > 0
    modifies s
    ensures s.tasks == CompleteLast(old(s.tasks))
    ensures s.datasets == old(s.datasets) && s.results == old(s.results)
    ensures finished <==> |lines| >= 8
    ensures finished ==> model == newModel.(metrics := TrainingMetrics(lines, parse))
                         && s.models == old(s.models) + [model]
    ensures !finished ==> s.models == old(s.models)
    ensures NeverReopened(old(s.tasks), s.tasks)
    ensures (old(s.Valid()) && newModel.idNum == NextIdNum(ModelIdNums(old(s.models)))
             && newModel.id == "m" + Decimal(newModel.idNum)) ==> s.Valid()
  {
    CompleteLastKeepsTasks(s.tasks);
    s.tasks := CompleteLast(s.tasks);
    if |lines| < 8 {
      return false, newModel;
    }
    model := newModel.(metrics := TrainingMetrics(lines, parse));
    if old(s.Valid()) && newModel.idNum == NextIdNum(ModelIdNums(old(s.models)))
       && newModel.id == "m" + Decimal(newModel.idNum) {
      AppendNextModel(s.models, model);
    }
    s.models := s.models + [model];
    finished := true;
  }

  // uploadData and uploadModel

  /** The dataset `uploadData` registers; its number comes from the Models list. */
  function UploadedDataset(models: seq<Model>, filename: string, directory: string): (d: Dataset)
    ensures d.idNum == NextIdNum(ModelIdNums(models)) && d.id == "d" + Decimal(d.idNum)
    ensures d.name == TrimSuffix(filename, ".csv") && d.path == directory + filename && d.datapoints == 0
  {
    var n := NextIdNum(ModelIdNums(models));
    Dataset(TrimSuffix(filename, ".csv"), "d" + Decimal(n), 0, n, directory + filename)
  }

  /** The dataset's name is the file name without its ".csv" extension. */
  lemma UploadedDatasetName(models: seq<Model>, stem: string, directory: string)
    ensures UploadedDataset(models, stem + ".csv", directory).name == stem
    ensures UploadedDataset(models, stem + ".csv", directory).path == directory + stem + ".csv"
  {
    TrimSuffixOfAppended(stem, ".csv");
  }

  /** The number of an uploaded dataset ignores the datasets already registered. */
  lemma UploadedDatasetNumber(models: seq<Model>, filename: string, directory: string)
    ensures UploadedDataset(models, filename, directory).idNum == NextIdNum(ModelIdNums(models))
    ensures forall i :: 0 <= i < |models| ==> models[i].idNum < UploadedDataset(models, filename, directory).idNum
    ensures models == [] ==> UploadedDataset(models, filename, directory).id == "d1"
  {
    assert forall i :: 0 <= i < |models| ==> ModelIdNums(models)[i] == models[i].idNum;
    assert Decimal(1) == "1";
  }

  /** Where an upload is saved: the storage mount, else the working directory, else nowhere. */
  function SaveDirectory(primaryDir: string, filename: string, saveable: string -> bool): (dir: Option<string>)
    ensures saveable(primaryDir + filename) ==> dir == Some(primaryDir)
    ensures !saveable(primaryDir + filename) ==> (dir.Some? <==> saveable("./" + filename))
    ensures !saveable(primaryDir + filename) && dir.Some? ==> dir.value == "./"
    ensures dir.Some? ==> saveable(dir.value + filename)
  {
    if saveable(primaryDir + filename) then Some(primaryDir)
    else if saveable("./" + filename) then Some("./")
    else None
  }

  const FormError := Response(StatusBadRequest, Message("Form error"))
  const UploadError := Response(StatusBadRequest, Message("Error uploading file"))
  const SavedLocally := Response(StatusOK, Message("storage mount not available, saving locally"))

  /**
   * `uploadData`. `file` is the base name of the uploaded file (None when the
   * form has no file: the handler replies and then dereferences nil);
   * `saveable` says which paths the upload can be saved to.
   */
  method UploadData(s: Session, file: Option<string>, saveable: string -> bool) returns (outcome: Outcome)
    modifies s
    ensures s.models == old(s.models) && s.results == old(s.results) && s.tasks == old(s.tasks)
    ensures file.None? ==> outcome == Panicked([FormError]) && s.datasets == old(s.datasets)
    ensures file.Some? && SaveDirectory("/storage/datasets/", file.value, saveable).None?
            ==> outcome == Finished([UploadError]) && s.datasets == old(s.datasets)
    ensures file.Some? && SaveDirectory("/storage/datasets/", file.value, saveable).Some?
            ==> var dir := SaveDirectory("/storage/datasets/", file.value, saveable).value;
                var d := UploadedDataset(old(s.models), file.value, dir);
                s.datasets == old(s.datasets) + [d]
                && outcome == Finished((if dir == "./" then [SavedLocally] else []) + [Response(StatusOK, DatasetJson(d))])
    ensures old(s.Valid()) ==> s.Valid()
  {
    if file.None? {
      return Panicked([FormError]);
    }
    var filename := file.value;
    var responses := [];
    var path := "/storage/datasets/";
    if !saveable("/storage/datasets/" + filename) {
      if !saveable("./" + filename) {
        return Finished([UploadError]);
      }
      responses := [SavedLocally];
      path := "./";
    }
    var maxId := ModelMaxId(s.models);
    var newDataset := Dataset(TrimSuffix(filename, ".csv"), "d" + Decimal(maxId + 1), 0, maxId + 1, path + filename);
    assert newDataset == UploadedDataset(s.models, filename, path);
    s.datasets := s.datasets + [newDataset];
    outcome := Finished(responses + [Response(StatusOK, DatasetJson(newDataset))]);
  }

  /** The model `uploadModel` registers: placeholder metadata, path always under /storage/models. */
  function UploadedModel(models: seq<Model>, filename: string): (m: Model)
    ensures m.idNum == NextIdNum(ModelIdNums(models)) && m.id == "m" + Decimal(m.idNum)
    ensures m.name == filename && m.path == "/storage/models/" + filename + ".model"
    ensures m.trainedDataset == "unknown" && m.features == ["features"] && m.inferName == "unknown"
            && m.metrics == ZeroMetrics
  {
    var n := NextIdNum(ModelIdNums(models));
    Model(filename, "m" + Decimal(n), "unknown", ["features"], n,
          "/storage/models/" + filename + ".model", "unknown", ZeroMetrics)
  }

  /** `uploadModel`; the model's path does not depend on where the file was saved. */
  method UploadModel(s: Session, file: Option<string>, saveable: string -> bool) returns (outcome: Outcome)
    modifies s
    ensures s.datasets == old(s.datasets) && s.results == old(s.results) && s.tasks == old(s.tasks)
    ensures file.None? ==> outcome == Panicked([FormError]) && s.models == old(s.models)
    ensures file.Some? && SaveDirectory("/storage/models/", file.value, saveable).None?
            ==> outcome == Finished([UploadError]) && s.models == old(s.models)
    ensures file.Some? && SaveDirectory("/storage/models/", file.value, saveable).Some?
            ==> var dir := SaveDirectory("/storage/models/", file.value, saveable).value;
                var m := UploadedModel(old(s.models), file.value);
                s.models == old(s.models) + [m]
                && outcome == Finished((if dir == "./" then [SavedLocally] else []) + [Response(StatusOK, ModelJson(m))])
    ensures old(s.Valid()) ==> s.Valid()
  {
    if file.None? {
      return Panicked([FormError]);
    }
    var filename := file.value;
    var responses := [];
    if !saveable("/storage/models/" + filename) {
      if !saveable("./" + filename) {
        return Finished([UploadError]);
      }
      responses := [SavedLocally];
    }
    var maxId := ModelMaxId(s.models);
    var newModel := Model(filename, "m" + Decimal(maxId + 1), "unknown", ["features"], maxId + 1,
                          "/storage/models/" + filename + ".model", "unknown", ZeroMetrics);
    assert newModel == UploadedModel(s.models, filename);
    if old(s.Valid()) {
      AppendNextModel(s.models, newModel);
    }
    s.models := s.models + [newModel];
    outcome := Finished(responses + [Response(StatusOK, ModelJson(newModel))]);
  }

  // infer

  /** As written, a missing model is reported with the dataset message. */
  function ModelNotFound(id: string): Response {
    Response(StatusBadRequest, Message("dataset not found, id: " + id))
  }

  /**
   * The descriptor `infer` hands to the worker: an "infer" job on the
   * resolved dataset path with the path, target and features of the first
   * model with the requested id; with no such model those three stay empty.
   */
  function InferenceDescriptor(models: seq<Model>, datasets: seq<Dataset>, body: InferConfig,
                               creatable: string -> bool): (w: WriteOutcome)
    ensures w.Fatal? <==> !creatable(InferPrimary) && !creatable(InferFallback)
    ensures w.Written? ==>
              && w.config.taskType == "infer"
              && w.config.filePath == DatasetPath(datasets, body.datasetId)
              && HyperparametersUnset(w.config)
    ensures w.Written? ==>
              forall k :: 0 <= k < |models| && models[k].id == body.modelId
                          && (forall j :: 0 <= j < k ==> models[j].id != body.modelId)
                          ==> w.config.modelPath == models[k].path && w.config.inferenceName == models[k].inferName
                              && w.config.features == models[k].features
    ensures w.Written? && (forall j :: 0 <= j < |models| ==> models[j].id != body.modelId) ==>
              w.config.modelPath == "" && w.config.inferenceName == "" && w.config.features == []
  {
    var km := FirstMatch(models, ModelIdOf, body.modelId);
    var found := km < |models|;
    GenerateInferenceToml(DatasetPath(datasets, body.datasetId),
                          if found then models[km].path else "",
                          if found then models[km].inferName else "",
                          "infer",
                          if found then models[km].features else [],
                          creatable)
  }

  /**
   * `infer`: resolves dataset and model (continuing with empty values when
   * either is missing), writes the descriptor, runs the worker, marks the
   * last task Complete (there must be one, or the worker goroutine panics),
   * and reads precision and recall from the first two output lines.
   */
  method Infer(s: Session, body: InferConfig, workerOutput: string,
               creatable: string -> bool, parse: string -> Option<real>)
    returns (outcome: Outcome, written: WriteOutcome)
    modifies s
    ensures written == InferenceDescriptor(old(s.models), old(s.datasets), body, creatable)
    ensures s.models == old(s.models) && s.datasets == old(s.datasets) && s.results == old(s.results)
    ensures outcome.Exited? <==> written.Fatal? || |old(s.tasks)| == 0
    ensures outcome.Exited? ==> s.tasks == old(s.tasks)
    ensures !outcome.Exited? ==> |old(s.tasks)| > 0 && s.tasks == CompleteLast(old(s.tasks))
    ensures outcome.Panicked? <==> !outcome.Exited? && |Lines(workerOutput)| < 2
    ensures var misses := Repeat(DatasetNotFound(body.datasetId), FirstMatch(old(s.datasets), DatasetIdOf, body.datasetId))
                          + Repeat(ModelNotFound(body.modelId), FirstMatch(old(s.models), ModelIdOf, body.modelId));
            && (outcome.Finished? ==>
                  outcome.responses == misses + [Response(StatusOK, InferenceJson(InferenceMetrics(Lines(workerOutput), parse)))])
            && (!outcome.Finished? ==> outcome.responses == misses)
    ensures NeverReopened(old(s.tasks), s.tasks)
    ensures old(s.Valid()) ==> s.Valid()
  {
    var kd, datasetMisses := ScanFor(s.datasets, DatasetIdOf, body.datasetId, DatasetNotFound(body.datasetId));
    var datasetPath := if kd < |s.datasets| then s.datasets[kd].path else "";
    var km, modelMisses := ScanFor(s.models, ModelIdOf, body.modelId, ModelNotFound(body.modelId));
    var modelPath, inferName, features := "", "", [];
    if km < |s.models| {
      modelPath, inferName, features := s.models[km].path, s.models[km].inferName, s.models[km].features;
    }
    var misses := datasetMisses + modelMisses;
    written := GenerateInferenceToml(datasetPath, modelPath, inferName, "infer", features, creatable);
    if written.Fatal? || |s.tasks| == 0 {
      return Exited(misses), written;
    }
    CompleteLastKeepsTasks(s.tasks);
    s.tasks := CompleteLast(s.tasks);
    var lines := Lines(workerOutput);
    if |lines| < 2 {
      return Panicked(misses), written;
    }
    outcome := Finished(misses + [Response(StatusOK, InferenceJson(InferenceMetrics(lines, parse)))]);
  }

  // getModel and getModelTree

  /**
   * `getModel`: the file of the first model with the id, or the model list
   * when none has it. `readable` says which files `os.ReadFile` can read.
   */
  method GetModel(s: Session, modelId: string, readable: string -> bool) returns (responses: seq<Response>)
    ensures var k := FirstMatch(s.models, ModelIdOf, modelId);
            && (k < |s.models| && readable(s.models[k].path)
                ==> responses == [Response(StatusOK, FileData(s.models[k].path))])
            && (k < |s.models| && !readable(s.models[k].path)
                ==> responses == [Response(StatusBadGateway, AbortError), Response(StatusOK, NoData)])
            && (k == |s.models| ==> responses == [Response(StatusOK, ModelsJson(s.models))])
  {
    var k := FindFirst(s.models, ModelIdOf, modelId);
    if k < |s.models| {
      var path := s.models[k].path;
      if readable(path) {
        responses := [Response(StatusOK, FileData(path))];
      } else {
        responses := [Response(StatusBadGateway, AbortError), Response(StatusOK, NoData)];
      }
      return;
    }
    responses := [Response(StatusOK, ModelsJson(s.models))];
  }

  /**
   * `getModelTree`: for the first model with the id, writes the trees
   * descriptor, runs the worker, marks the last task Complete, and replies
   * with the output lines; replies with the model list when none matches.
   */
  method GetModelTree(s: Session, modelId: string, workerOutput: string, creatable: string -> bool)
    returns (outcome: Outcome, sent: Option<WriteOutcome>)
    modifies s
    ensures s.models == old(s.models) && s.datasets == old(s.datasets) && s.results == old(s.results)
    ensures var k := FirstMatch(old(s.models), ModelIdOf, modelId);
            && (k == |old(s.models)| ==>
                  outcome == Finished([Response(StatusOK, ModelsJson(old(s.models)))]) && s.tasks == old(s.tasks)
                  && sent == None)
            && (k < |old(s.models)| ==>
                  var written := GenerateTreesToml(old(s.models)[k].path, "show_trees", creatable);
                  sent == Some(written) &&
                  if written.Fatal? || |old(s.tasks)| == 0 then
                    outcome == Exited([]) && s.tasks == old(s.tasks)
                  else
                    outcome == Finished([Response(StatusOK, LinesJson(Lines(workerOutput)))])
                    && s.tasks == CompleteLast(old(s.tasks)))
    ensures NeverReopened(old(s.tasks), s.tasks)
    ensures old(s.Valid()) ==> s.Valid()
  {
    var k := FindFirst(s.models, ModelIdOf, modelId);
    if k < |s.models| {
      var written := GenerateTreesToml(s.models[k].path, "show_trees", creatable);
      if written.Fatal? || |s.tasks| == 0 {
        return Exited([]), Some(written);
      }
      CompleteLastKeepsTasks(s.tasks);
      s.tasks := CompleteLast(s.tasks);
      return Finished([Response(StatusOK, LinesJson(Lines(workerOutput)))]), Some(written);
    }
    outcome, sent := Finished([Response(StatusOK, ModelsJson(s.models))]), None;
  }
}
