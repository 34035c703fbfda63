/**
 * End-to-end request sequences against a fresh session, composed from the
 * handlers' contracts.
 */
module Scenarios {
  import opened Wrappers
  import opened Text
  import opened Sessions
  import opened Output
  import opened Descriptors
  import opened Handlers

  /** Eight worker output lines, as `print` writes them. */
  const EightLines: seq<string> := ["0.9", "0.8", "0.9", "0.8", "0.9", "0.8", "0.9", "0.8"]

  /** Uploading sales.csv to an empty session registers dataset d1 under the storage mount. */
  method UploadSales() returns (upload: Outcome, s: Session)
    ensures upload == Finished([Response(StatusOK, DatasetJson(Sales))])
    ensures s.datasets == [Sales]
    ensures s.models == [] && s.tasks == [] && s.Valid()
    ensures fresh(s)
  {
    s := new Session();
    assert Decimal(1) == "1";
    UploadedDatasetName([], "sales", "/storage/datasets/");
    assert "sales" + ".csv" == "sales.csv";
    var saveable := _ => true;
    assert SaveDirectory("/storage/datasets/", "sales.csv", saveable) == Some("/storage/datasets/");
    var d := UploadedDataset([], "sales.csv", "/storage/datasets/");
    assert d.name == "sales";
    assert d.id == "d1";
    assert d.path == "/storage/datasets/sales.csv";
    assert d == Dataset("sales", "d1", 0, 1, "/storage/datasets/sales.csv");
    upload := UploadData(s, Some("sales.csv"), saveable);
  }

  const Sales := Dataset("sales", "d1", 0, 1, "/storage/datasets/sales.csv")

  /** The worker output `EightLines` prints has eight lines. */
  lemma EightLinesPrinted()
    ensures |Lines(Printed(EightLines))| == 8
  {
    LinesOfPrinted(EightLines);
  }

  /**
   * Training on `datasetId` right after that upload, with the worker
   * reporting eight metrics: model m1 and task t1, Complete, whatever the id.
   */
  method TrainAfterSalesUpload(datasetId: string, parse: string -> Option<real>)
    returns (training: Outcome, s: Session, written: WriteOutcome)
    ensures written.Written? && written.path == "/storage/train.toml"
    ensures written.config.filePath == DatasetPath([Sales], datasetId)
    ensures training.Finished? && |s.models| == 1
    ensures training.responses == Repeat(DatasetNotFound(datasetId), FirstMatch([Sales], DatasetIdOf, datasetId))
                                  + [Response(StatusOK, ModelJson(s.models[0]))]
    ensures s.models[0].id == "m1" && s.models[0].trainedDataset == datasetId
    ensures s.tasks == [Task("t1", "m1", Complete, 1)]
    ensures s.Valid()
  {
    var upload;
    upload, s := UploadSales();
    var body := TrainingConfig("sales-model", datasetId, "sales", ["region"], 10, 2, 5, 1.0, 0.8, false);
    assert Decimal(1) == "1";
    assert TrainingModel([], body).id == "m1";
    assert TrainingTask([], [], body) == Task("t1", "m1", Running, 1);
    assert TrainingDescriptor([], s.datasets, body, _ => true).Written?;
    EightLinesPrinted();
    training, written := StartTraining(s, body, Printed(EightLines), _ => true, parse);
  }

  /** Training on d1: no "not found" reply, then the model. */
  method UploadThenTrain(parse: string -> Option<real>) returns (training: Outcome, s: Session, written: WriteOutcome)
    ensures written.Written? && written.config.filePath == "/storage/datasets/sales.csv"
    ensures training.Finished? && |training.responses| == 1 && training.responses[0].status == StatusOK
    ensures |s.models| == 1 && s.models[0].id == "m1" && s.models[0].trainedDataset == "d1"
    ensures s.tasks == [Task("t1", "m1", Complete, 1)]
    ensures s.Valid()
  {
    training, s, written := TrainAfterSalesUpload("d1", parse);
    assert FirstMatch([Sales], DatasetIdOf, "d1") == 0;
  }

  /**
   * Training on an unknown dataset id instead still creates the model and
   * the task: the scan replies once per dataset it passes and the flow goes
   * on with an empty dataset path.
   */
  method TrainOnMissingDataset(parse: string -> Option<real>) returns (training: Outcome, s: Session, written: WriteOutcome)
    ensures written.Written? && written.config.filePath == ""
    ensures training.Finished? && |training.responses| == 2
    ensures training.responses[0] == Response(StatusBadRequest, Message("dataset not found, id: d99"))
    ensures training.responses[1].status == StatusOK
    ensures |s.models| == 1 && s.models[0].trainedDataset == "d99"
    ensures |s.tasks| == 1 && s.tasks[0].status == Complete
  {
    training, s, written := TrainAfterSalesUpload("d99", parse);
    FirstMatchIsFirst([Sales], DatasetIdOf, "d99", 1);
    assert "dataset not found, id: " + "d99" == "dataset not found, id: d99";
  }

  /** With no model in between, two uploads both receive the id d1. */
  method TwoUploadsShareAnId() returns (s: Session)
    ensures |s.datasets| == 2 && s.datasets[0].id == "d1" && s.datasets[1].id == "d1"
  {
    s := new Session();
    assert Decimal(1) == "1";
    var first := UploadData(s, Some("a.csv"), _ => true);
    var second := UploadData(s, Some("b.csv"), _ => true);
  }
}
