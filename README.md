# Random forest microservice: session bookkeeping and forest vote

This project models the core of the random forest microservice:

- the Go service's in-memory session of models, datasets, results and tasks, and the handlers that add to it;
- the parsing of the worker's text output;
- the three job-descriptor builders;
- the Python `RandomForestClassifier`: its constructor defaults, forest growing, per-tree predictions, tree listing, and the majority vote.

The Dafny modules follow the program's structure:

- `Wrappers`: `Option` and `Result`.
- `Text`: the string operations the Go code relies on.
  - `fmt.Sprint` of a number is `Decimal`, proved injective through `ParseDecimal`.
  - `strings.TrimSuffix`, `strings.Split` and their inverses.
  - `Printed`: the text a worker writes with one `print` per line.
- `Sessions` (session/session.go): the entity records, the class `Session` with its four sequence fields, and `Setup`, the startup scan of the storage volume.
  - Directory listings are inputs.
  - `Setup` returns the directories it tries to create.
- `Output`: the worker-output parser.
  - At most one trailing newline is dropped, then the text is split on newlines.
  - Training reads eight metrics from the last eight lines; inference reads two from the first two.
  - A failed `strconv.ParseFloat` (the parameter `parse`) leaves the metric at 0.
- `Descriptors`: `generateTrainingTOML`, `generateInferenceTOML` and `generateTreesTOML` as record construction plus a primary/fallback path choice.
  - Whether a path can be created is the parameter `creatable`.
  - The TOML document is a key/value map with a proved decode/encode round trip.
- `Handlers` (main.go): `startTraining`, `uploadData`, `uploadModel`, `infer`, `getModel` and `getModelTree`, as methods on the global `Session`.
  - Each request is one sequential step: the handler blocks on a fresh channel until its worker goroutine is done, so the worker's output is the parameter `workerOutput`.
  - A handler's replies are the ordered list of `c.JSON` / `c.String` / `c.Data` calls it makes.
  - Its `Outcome` says whether it returned, panicked inside the request (answered by gin's recovery), or took the process down (`log.Fatal`, or a panic in the worker goroutine).
- `Forest` (random_forest/randomforestclassifier.py): the class `RandomForestClassifier` over opaque trees.
  - Growing tree `i` from its random bootstrap sample is the parameter `grow`.
  - A tree's prediction is `treePredict`, and its printout is `render`.
- `Scenarios`: request sequences on a fresh session, built from the handlers' contracts.

The code's quirks are modelled as written:

- The first task's number reuses the model scan's `max_id`.
- Uploaded dataset ids are drawn from the Models list, so two uploads with no model between them share an id.
- Ids from the startup scan start at 0.
- Worker completion marks the last task Complete, whichever task that is.
- The lookups in `startTraining` and `infer` reply once per entry scanned before the first match. When nothing matches they reply once per entry and carry on with an empty path.
- A missing model in `infer` is reported with the dataset message.
- The trees descriptor falls back to `./infer.toml`.

In places the code's own comments describe behaviour the code does not have. The model follows the code:

- main.go:139 says the dataset id is checked before a training task starts. The code creates the model and the task whatever the lookup finds.
- main.go:148 says the new task's status is "Getting Ready". The code sets "Running".
- main.go:88-90 says a `getModel` request with an unknown id is answered with `http.StatusNotFound`. The code answers with the model list.
- main.go:312 says `infer` falls back to the model's training dataset when the requested one is missing. The code goes on with an empty dataset path.

## Model

| member | source | states |
|---|---|---|
| Text.Decimal | oddforest-microservice/src/main.go:161 | `fmt.Sprint` of a non-negative number is a non-empty digit string with no leading zero |
| Text.ParseDecimalOfDecimal | oddforest-microservice/src/main.go:161 | reading the decimal text back returns the number |
| Text.PrefixedDecimalInjective | oddforest-microservice/src/main.go:160-161 | two ids with the same prefix are equal only if their numbers are |
| Text.TrimSuffix | oddforest-microservice/src/main.go:257 | with the suffix present, the result followed by the suffix is the input; otherwise the input is unchanged |
| Text.TrimSuffixOfAppended | oddforest-microservice/src/main.go:257 | trimming exactly one appended suffix recovers the stem |
| Text.Split | oddforest-microservice/src/main.go:208 | one more part than separators, and no part holds the separator |
| Text.JoinSplit | oddforest-microservice/src/main.go:208 | joining the parts of a split gives back the text |
| Text.SplitJoin | oddforest-microservice/src/main.go:208 | splitting separator-free parts joined by the separator gives back the parts |
| Text.Count | random_forest/randomforestclassifier.py:153 | the number of occurrences of a value: 0 in the empty list, and one more for each position holding it |
| Text.CountIsMultiplicity | random_forest/randomforestclassifier.py:153 | that number is the multiplicity of the value in the list's multiset, the entry `Counter` keeps for it |
| Sessions.DistinctModelIdStrings | oddforest-microservice/src/main.go:160-161 | distinct model numbers give distinct "m" ids |
| Sessions.RegisteredModelsOfListing | oddforest-microservice/src/session/session.go:119-129 | for a listing without repeats, the models registered are the scanned `models` directory when listed, else none |
| Sessions.RegisteredDatasetsOfListing | oddforest-microservice/src/session/session.go:130-139 | the same for the `datasets` directory |
| Sessions.ScannedModelsWellFormed | oddforest-microservice/src/session/session.go:126-128 | scanned model `i` has number `i` and id "m"+`i`; the ids are well formed and distinct |
| Sessions.ScannedModel | oddforest-microservice/src/session/session.go:127 | the model for listing entry `i` has number `i`, id "m"+`i`, the entry as its name, the path volume+"models"+name+".model", "Unknown" placeholders and zero metrics |
| Sessions.ScannedDataset | oddforest-microservice/src/session/session.go:137 | the dataset for listing entry `i` has number `i`, id "d"+`i`, the entry as its name, 0 datapoints and the path volume+"datasets"+name+".csv" |
| Sessions.MkdirTargets | oddforest-microservice/src/session/session.go:143-155 | the models and datasets subfolders are to be created exactly when the listing failed or does not name them; at most two directories |
| Sessions.ListingRegistrationWellFormed | oddforest-microservice/src/session/session.go:119-139 | registering a listing yields well-formed, distinct model ids and well-formed dataset ids |
| Sessions.Session.constructor | oddforest-microservice/src/main.go:23 | the global session starts with four empty lists and satisfies the id invariant |
| Sessions.Session.Setup | oddforest-microservice/src/session/session.go:110-156 | appends one model per `models` entry and one dataset per `datasets` entry, once per matching volume entry; registers nothing when the volume cannot be listed; leaves results and tasks alone; tries to create exactly the missing subfolders; from an empty session the id invariant holds |
| Sessions.Session.RegisterListing | oddforest-microservice/src/session/session.go:119-139 | after the loop over the listing, the models and datasets are the old ones followed by the registrations of every entry in order; results and tasks are unchanged; the two flags say whether `models` and `datasets` were listed |
| Sessions.Session.RegisterEntry | oddforest-microservice/src/session/session.go:119-139 | one listing entry appends the scanned models when it is `models`, the scanned datasets when it is `datasets`, and nothing otherwise |
| Sessions.RegisteredStep | oddforest-microservice/src/session/session.go:119-139 | the registrations of a listing prefix extended by one entry are those of the prefix followed by that entry's, and the flags extend the same way |
| Sessions.Session.AppendScannedModels | oddforest-microservice/src/session/session.go:126-128 | appends the scanned models in listing order, with placeholder metadata and the path volume+"models"+name+".model" |
| Sessions.Session.AppendScannedDatasets | oddforest-microservice/src/session/session.go:136-138 | appends the scanned datasets in listing order, with 0 datapoints and the path volume+"datasets"+name+".csv" |
| Output.Lines | oddforest-microservice/src/main.go:208 | the output becomes at least one line, and no line holds a newline |
| Output.TrainingMetrics | oddforest-microservice/src/main.go:210-217 | the eight metrics, in their fixed order, come from the last eight lines, each 0 when it does not parse |
| Output.ParseTraining | oddforest-microservice/src/main.go:208-217 | a training output can be read exactly when it has at least eight lines |
| Output.ParseInference | oddforest-microservice/src/main.go:350-353 | an inference output can be read exactly when it has at least two lines |
| Output.InferenceMetrics | oddforest-microservice/src/main.go:352-353 | precision is read from the first line and recall from the second, each 0 when it does not parse |
| Output.LinesOfPrinted | oddforest-microservice/src/main.go:208 | text printed one line per `print` splits back into those lines |
| Output.TrainingRoundTrip | oddforest-microservice/src/main.go:208-217 | printed output whose last eight lines parse to eight values yields exactly those values, in order, whatever lines come before |
| Output.InferenceRoundTrip | oddforest-microservice/src/main.go:350-353 | printed precision and recall, followed by anything, parse to that precision and recall |
| Output.EmptyOutputHasOneLine | oddforest-microservice/src/main.go:208-210 | empty output is one empty line, too short for a training result |
| Descriptors.WriteWithFallback | oddforest-microservice/src/main.go:368-378 | the primary path when it can be created, else the fallback, else a fatal exit; the record is written unchanged |
| Descriptors.GenerateTrainingToml | oddforest-microservice/src/main.go:359-384 | all eleven arguments land in their fields; the path is /storage/train.toml or ./train.toml |
| Descriptors.GenerateInferenceToml | oddforest-microservice/src/main.go:386-411 | paths, task kind, target and features are set and every hyperparameter is zero; the path is /storage/infer.toml or ./infer.toml |
| Descriptors.GenerateTreesToml | oddforest-microservice/src/main.go:413-438 | only the task kind and model path are set; the path is /storage/trees.toml or ./infer.toml |
| Descriptors.TreesFallbackIsInferenceFallback | oddforest-microservice/src/main.go:398-425 | without /storage the trees and inference descriptors go to the same file |
| Descriptors.Encode | oddforest-microservice/src/session/session.go:96-108 | the document has exactly the eleven `toml` keys of the record |
| Descriptors.DecodeEncode | oddforest-microservice/src/session/session.go:96-108 | every descriptor is recovered from its document |
| Descriptors.EncodeInjective | oddforest-microservice/src/session/session.go:96-108 | distinct descriptors have distinct documents |
| Handlers.SliceMax | oddforest-microservice/src/main.go:156 | the maximum is one of the ids and no id exceeds it |
| Handlers.NextIdNum | oddforest-microservice/src/main.go:150-161 | the next number exceeds every existing one, is 1 for an empty list, and is otherwise one more than an existing number |
| Handlers.ExistingModelIds | oddforest-microservice/src/main.go:150-154 | collects the models' numbers in order |
| Handlers.ExistingTaskIds | oddforest-microservice/src/main.go:168-171 | collects the tasks' numbers in order |
| Handlers.ModelMaxId | oddforest-microservice/src/main.go:150-157 | `max_id` is the largest model number, or 0, so the new number is `NextIdNum` |
| Handlers.AppendNextModel | oddforest-microservice/src/main.go:150-161 | a model numbered `NextIdNum` keeps the model ids well formed and distinct, and its id differs from every existing model id |
| Handlers.TrainingTaskIdNum | oddforest-microservice/src/main.go:168-178 | with no tasks the task number is the new model's number; otherwise one more than the largest task number |
| Handlers.FirstTaskSharesModelNumber | oddforest-microservice/src/main.go:168-179 | the first task shares the new model's number, refers to its id and is Running |
| Handlers.AppendNextTask | oddforest-microservice/src/main.go:168-180 | appending the new task keeps the task ids well formed and distinct |
| Handlers.CompleteLast | oddforest-microservice/src/main.go:205 | the last task, by position, becomes Complete and every other task is unchanged |
| Handlers.CompleteLastKeepsTasks | oddforest-microservice/src/main.go:205 | completing the last task keeps every task's ids, reopens nothing, and keeps the id invariant |
| Handlers.FirstMatch | oddforest-microservice/src/main.go:185-189 | the first index whose id matches, with every earlier entry not matching, or the length when none does |
| Handlers.FirstMatchIsFirst | oddforest-microservice/src/main.go:185-189 | any index with that property is `FirstMatch` |
| Handlers.DatasetPathResolves | oddforest-microservice/src/main.go:184-192 | the dataset path resolved is that of the first dataset with the id, and "" when no dataset has it |
| Handlers.DatasetPath | oddforest-microservice/src/main.go:184-192 | the resolved path is "" or the path of a dataset with the requested id |
| Handlers.FindFirst | oddforest-microservice/src/main.go:72-73 | the `getModel`/`getModelTree` loop stops at `FirstMatch` |
| Handlers.ScanFor | oddforest-microservice/src/main.go:184-192 | stops at `FirstMatch`, with one "not found" reply per entry scanned before it |
| Handlers.NewTrainingEntities | oddforest-microservice/src/main.go:148-179 | builds the new model and task, with the task scan overriding `max_id` only when there are tasks |
| Handlers.TrainingModel | oddforest-microservice/src/main.go:159-166 | the new model is numbered above every existing model, with id "m"+number, the request's name, dataset, features and target, the path /storage/models/+name+".model" and zero metrics |
| Handlers.TrainingTask | oddforest-microservice/src/main.go:175-179 | the new task is Running, belongs to the new model, has id "t"+number and is numbered above every existing task |
| Handlers.TrainingDescriptor | oddforest-microservice/src/main.go:194-196 | a "train" job on the resolved dataset path and the new model's /storage/models/ path, with the request's target, features and every hyperparameter in its own field; fatal exactly when neither train path can be created |
| Handlers.BeginTraining | oddforest-microservice/src/main.go:148-180 | the first part of `startTraining` appends the new Running task and touches nothing else; the new model is `TrainingModel`; no task reopened; id invariant kept |
| Handlers.FinishTraining | oddforest-microservice/src/main.go:205-219 | completes the last task; with at least eight output lines appends the model carrying the parsed metrics and reports success, otherwise appends nothing and reports failure; id invariant kept for a correctly numbered model |
| Handlers.CompleteLastOfAppended | oddforest-microservice/src/main.go:175-205 | when nothing else was appended in between, the task completed by the worker is the one `startTraining` appended |
| Handlers.StartTraining | oddforest-microservice/src/main.go:138-223 | appends the Running task first, which ends Complete unless the descriptor write exits; appends the model with the parsed metrics only when there are eight lines; replies once per dataset passed, then with the model; datasets and results untouched; no task reopened; id invariant kept; the descriptor handed to the worker is `TrainingDescriptor` |
| Handlers.UploadedDatasetName | oddforest-microservice/src/main.go:257-258 | the dataset's name is the file name less ".csv", its path the directory plus the file name |
| Handlers.UploadedDatasetNumber | oddforest-microservice/src/main.go:244-256 | the dataset's number comes from the Models list (above every model number, d1 when there are none) |
| Handlers.UploadedDataset | oddforest-microservice/src/main.go:244-258 | the uploaded dataset is numbered from the Models list, with id "d"+number, the file name less ".csv" as its name, the save directory plus file name as its path and 0 datapoints |
| Handlers.SaveDirectory | oddforest-microservice/src/main.go:235-243 | the storage directory when the file can be saved there; otherwise "./" exactly when it can be saved there; the file can always be saved in the directory chosen |
| Handlers.UploadData | oddforest-microservice/src/main.go:226-262 | a missing form file panics after the form-error reply; an unsaveable file adds nothing; otherwise appends the dataset saved under /storage/datasets/ or ./, with the local-save notice for the latter |
| Handlers.UploadModel | oddforest-microservice/src/main.go:265-300 | the same for models; the model's path is /storage/models/ plus the file name plus ".model" wherever the file was saved |
| Handlers.UploadedModel | oddforest-microservice/src/main.go:281-296 | the uploaded model is numbered above every existing model, with id "m"+number, the file name as its name, the path /storage/models/+name+".model", "unknown" dataset and target, the features ["features"] and zero metrics |
| Handlers.InferenceDescriptor | oddforest-microservice/src/main.go:313-336 | an "infer" job on the resolved dataset path with the path, target and features of the first model with the id, all three empty when no model has it, and no hyperparameters; fatal exactly when neither infer path can be created |
| Handlers.Infer | oddforest-microservice/src/main.go:303-357 | replies once per dataset and model passed; exits when the descriptor cannot be written or there is no task; otherwise completes the last task and answers precision and recall from the first two lines, panicking on fewer; the descriptor handed to the worker is `InferenceDescriptor` |
| Handlers.GetModel | oddforest-microservice/src/main.go:64-92 | the file of the first model with the id (a 502 abort and an empty body when unreadable), or the model list |
| Handlers.GetModelTree | oddforest-microservice/src/main.go:94-126 | for the first model with the id, hands the worker a "show_trees" descriptor for that model's path, completes the last task and replies with the output lines (exiting when the descriptor cannot be written or there is no task); otherwise no descriptor and the model list |
| Forest.ExplicitZeroArguments | random_forest/randomforestclassifier.py:47-59 | an explicit 0 is replaced for the split and depth limits but kept for the tree count and the fractions |
| Forest.OrIfFalsy | random_forest/randomforestclassifier.py:46-47 | `arg if arg else default`: the argument when it is given and not 0, else the default |
| Forest.OrIfNone | random_forest/randomforestclassifier.py:56-58 | `arg if arg is not None else default`: the argument whenever it is given, else the default |
| Forest.LeaderIsMostCommon | random_forest/randomforestclassifier.py:153-154 | a scan that keeps the earliest value of highest count, started from any position holding such a value for the prefix, ends at a most common value of the whole list |
| Forest.MostCommon | random_forest/randomforestclassifier.py:153-154 | the vote is one of the votes, counted at least as often as any other |
| Forest.MostCommonIsMostCommon | random_forest/randomforestclassifier.py:153-154 | the vote is a most frequent value, the first encountered among ties |
| Forest.MostCommonUnique | random_forest/randomforestclassifier.py:153-154 | exactly one value has that property |
| Forest.NoTreesNoVote | random_forest/randomforestclassifier.py:149-154 | with no trees only an empty frame can be voted on |
| Forest.Column | random_forest/randomforestclassifier.py:150 | `[x[i] for x in yhat]`: one entry per tree, entry `k` being tree `k`'s `i`-th prediction |
| Forest.Majority | random_forest/randomforestclassifier.py:149-157 | the labels `predict` assigns to the first n observations, one vote per observation column |
| Forest.MajorityIsMostCommon | random_forest/randomforestclassifier.py:149-157 | every one of those labels is the most common prediction for its observation, the first encountered among ties |
| Forest.Vote | random_forest/randomforestclassifier.py:149-160 | the loop raises IndexError exactly when some observation lacks a prediction from some tree or there are no trees and at least one observation; otherwise it returns `Majority` |
| Forest.RandomForestClassifier.constructor | random_forest/randomforestclassifier.py:30-60 | falsy split and depth limits become 20 and 5; a missing tree count and fractions become 30, 1.0 and 1.0; features are X's columns and their count |
| Forest.RandomForestClassifier.GrowRandomForest | random_forest/randomforestclassifier.py:62-110 | the forest holds exactly one tree per iteration of `range(n_trees)`; tree `i` is grown with the instance's tree parameters on bootstrap draw `i` from its X, Y and `X_obs_fraction`; nothing else changes |
| Forest.Listing | random_forest/randomforestclassifier.py:116-120 | the listing has at least three lines per tree and, with any tree, starts with the separator and "Tree number: 1" |
| Forest.RandomForestClassifier.PrintTrees | random_forest/randomforestclassifier.py:112-120 | before growing (with `n_trees` above 0), AttributeError after the first tree's two header lines have been printed; otherwise the blocks of trees 0 to n-1 in order, headed "Tree number: i+1" |
| Forest.ListingBlockAt | random_forest/randomforestclassifier.py:116-120 | the block of tree `i`, with its header "Tree number: i+1", sits in the listing right after the blocks of the trees before it |
| Forest.ListingPrefix | random_forest/randomforestclassifier.py:116-120 | the lines printed for the first `k` trees are a prefix of the whole listing |
| Forest.RandomForestClassifier.TreePredictions | random_forest/randomforestclassifier.py:122-134 | AttributeError before growing (unless `n_trees` is at most 0); otherwise one list per tree, list `i` from tree `i` |
| Forest.RandomForestClassifier.Predictions | random_forest/randomforestclassifier.py:126-134 | one prediction list per grown tree, list `i` being tree `i`'s prediction for X; none before growing |
| Forest.RandomForestClassifier.Predict | random_forest/randomforestclassifier.py:136-160 | AttributeError before growing (unless `n_trees` is at most 0); otherwise `Majority` of the trees' predictions, one label per row, each label a most common prediction for its row (first among ties); IndexError exactly when there are rows and a tree predicted too few or there are no trees |
| Scenarios.UploadSales | oddforest-microservice/src/main.go:226-262 | uploading sales.csv to an empty session registers dataset d1 named "sales" under /storage/datasets/ |
| Scenarios.TrainAfterSalesUpload | oddforest-microservice/src/main.go:138-223 | training right after the upload, on any dataset id and with eight metric lines, creates model m1 for that id and task t1, Complete, replying once per dataset before the match and then with the model; the training descriptor goes to /storage/train.toml with the dataset path resolved for that id |
| Scenarios.UploadThenTrain | oddforest-microservice/src/main.go:138-223 | after uploading sales.csv, training on d1 gives exactly one reply, the model m1 trained on d1, and task t1 for m1, Complete; the worker is pointed at /storage/datasets/sales.csv |
| Scenarios.TrainOnMissingDataset | oddforest-microservice/src/main.go:184-192 | training on d99 instead replies "dataset not found, id: d99" once, then still creates the model and the task; the worker is handed an empty dataset path |
| Scenarios.TwoUploadsShareAnId | oddforest-microservice/src/main.go:244-256 | two uploads with no model between them both get id d1 |

## Left out

- HTTP layer: gin routing and `setupRouter` are not modelled. Request bodies arrive already decoded, so the `BindTOML` failure reply (`AbortWithError` 400) is not modelled either.
- `getStatus`, `getDataset`, `getResults`: `getStatus` sends the whole session in one `c.JSON`; `getDataset` and `getResults` each send one session field. None of them has logic to model.
- `main`: the `VOLUMEPATH` default, `PATH` setup and the server start are process start-up; `Setup` takes the volume path as a parameter.
- Reply texts: "Form error %s" and "Error uploading file: %s" are modelled without the appended Go error text. Log output is left out.
- File names: `filepath.Base` is not modelled. The uploaded file arrives as its base name, and a missing form file is `None`.
- File system: `SaveUploadedFile`, `os.Create`, `os.ReadFile`, `os.ReadDir` and `os.Mkdir` become the predicates `saveable`, `creatable` and `readable`, and listings become sequences. `Setup` reports the directories it tries to create, not whether that worked.
- Descriptor encoding: the TOML text encoder is replaced by a key/value document. Two `log.Fatal` paths are not modelled, because their causes are outside the model: an encoder error, and a failed `f.Write` after a successful create.
- Nil and empty slices: Go distinguishes a nil feature list from an empty one. Both are the empty sequence here. The TOML encoder writes no `features` key for a nil slice, so the trees descriptor, and an inference descriptor with no matching model, lack a key that `Encode` always writes.
- Worker: `exec.Command`, `CombinedOutput`/`Output`, the goroutine and the channel are not modelled. The worker's text is the parameter `workerOutput`. The worker's exit error is only logged in the code, so any text is accepted.
- Concurrency: races between simultaneous requests on the global session are not modelled. Each request is one sequential step.
- Numbers: metrics are `real`, not `float64`, and `strconv.ParseFloat` is the abstract `parse`. A line that is not a number gives 0. Out-of-range text, for which `ParseFloat` returns ±Inf with `ErrRange`, is not modelled, because `real` has no infinities. Go's 64-bit `int` ids are unbounded `nat`, so overflow of `max_id + 1` is not modelled.
- Forest randomness and trees: `bootstrap_sample`, tree growing, and a tree's `predict` and `print_tree` are opaque parameters. `bootstrap_sample`'s random sampling is not modelled.
- Forest.RandomForestClassifier.PrintTrees: each `print` argument is one output string, without the newline `print` adds. The tree's own printout is `render`.
- Forest.RandomForestClassifier.GrowRandomForest: the `tqdm` progress bar is not modelled; the code disables it.
- Forest.RandomForestClassifier.Predict: labels are compared by equality, whereas Python's `Counter` hashes them. The row count `X.shape[0]` is the frame's row list.
- The worker program (random_forest/main.py) and its histogram helper (random_forest/odd.py) are not part of this model.
