# ml-app serving core in Dafny

This project models the model-serving core of a small HTTP prediction service:
the inference unit `MLModel` and the name-keyed `ModelRegistry` of
`app/ml/model.py`, and the request-length validation and record shapes of
`app/models/schemas.py`.

- `common.dfy` (module `Common`): `Option` (Python's `None`, or a missing
  dictionary key), `Result` (a value, or the exception raised) and `Features`
  (one feature vector, a list of floats).
- `schemas.dfy` (module `Schemas`): the pydantic request records, each built
  through a `Parse…` function that applies the field's `min_length`/`max_length`
  constraint (exactly 4 features for iris, 10 for diabetes; none for batches),
  and the response records `IrisResponse` (label, id and confidence all
  required), `DiabetesResponse` (prediction only, no confidence),
  `BatchPredictionResponse` and `HealthResponse` (status, loaded flag, feature
  count, model type) as datatypes.
- `model.dfy` (module `Model`): `MLModel` is a class with the fields
  `modelType`, `model`, `metadata` and `isLoaded`; `LoadModel` updates them step
  by step, `Predict` and `GetModelInfo` are functions of the current state,
  `PredictBatch` is a method whose classification branch builds its results in a
  loop. `ModelRegistry` is a class whose dictionary is kept as the key list in
  insertion order (`names`) plus the entries (`models`). `CreateGlobalRegistry`
  is the module-level registration of `iris` and `diabetes`.
- `scenarios.dfy` (module `Scenarios`): concrete scenarios with stand-in estimators:
  the smoke test's sample requests, the metadata the training script writes,
  and isolation between registered units.

The fitted estimator is an `Artifact`: its class name and a total, row-wise
decision function giving `Classified(classId, probabilities)`, `Scalar(value)`
or `Raised`. Probabilities and predictions are `real`. The two `joblib.load`
calls of `load_model` are the `Option` parameters of `LoadModel` (`None` means
the call raised). The metadata dictionary is a record of `Option` fields, one
per key the core reads.

Neither `predict` nor `predict_batch` checks the feature count (only the
single-request schemas do, and the estimator may raise); registering a name
twice silently replaces the unit; a load failure is only printed, not stored;
and `get_model_info` reads `target_names` unconditionally, so it raises KeyError for
a loaded regression unit whose metadata has no such key
(`Scenarios.DiabetesScenario`).

## Model

| member | source | states |
|---|---|---|
| Schemas.CheckLength | app/models/schemas.py:6-9 | a list passes `min_length`/`max_length` iff its length is within both bounds, unchanged; otherwise too-short or too-long with the bound and the actual length |
| Schemas.ParseIrisRequest | app/models/schemas.py:5-12 | an iris request is accepted iff it has exactly 4 features, and keeps them; otherwise the length error |
| Schemas.ParseDiabetesRequest | app/models/schemas.py:15-21 | a diabetes request is accepted iff it has exactly 10 features, and keeps them; otherwise the length error |
| Schemas.ParseBatchIrisRequest | app/models/schemas.py:35-40 | every list of samples is accepted unchanged: no constraint on count or width |
| Schemas.ParseBatchDiabetesRequest | app/models/schemas.py:43-73 | every list of samples is accepted unchanged: no constraint on count or width |
| Schemas.BatchAcceptsWhatSingleRefuses | app/models/schemas.py:35-40 | a sample of the wrong width is refused as a single iris request but accepted inside a batch |
| Model.ModelOption.Value | app/ml/model.py:8-10 | the enum values are "iris" and "diabetes", one per member |
| Model.Max | app/ml/model.py:53 | `max` of a non-empty sequence is an element of it and at least every element |
| Model.PyIndex | app/ml/model.py:56 | Python list indexing: defined iff -len <= i < len, a negative index counting from the end |
| Model.MLModel.constructor | app/ml/model.py:14-19 | a new unit has its name, no type, artifact or metadata, and is not loaded |
| Model.MLModel.LoadModel | app/ml/model.py:21-39 | never fails; loaded iff both loads succeed and the metadata has "model_type", the type then being that entry; fields assigned before a failure keep their new values, the others their old ones; the loaded invariant `Valid` holds afterwards |
| Model.MLModel.Predict | app/ml/model.py:41-65 | unloaded: "Model not loaded" for every input; unknown type: "Invalid model type"; classification succeeds iff the estimator classifies with non-empty probabilities and an id that indexes target_names, giving (target_names[id], id, the maximum probability); regression gives the estimator's scalar, no confidence |
| Model.MLModel.PredictBatch | app/ml/model.py:67-92 | "Model not loaded" / "Invalid model type" as for Predict; succeeds iff Predict succeeds on every sample, and then returns one result per sample, in order, each equal to Predict on that sample; on failure, the estimator's error if it raises on any row, otherwise (classification) the error of the first row, in order, whose target_names lookup or `max` raises |
| Model.DecideAll | app/ml/model.py:79 | the estimator called on the whole batch gives one output per sample, in order, each its output on that row |
| Model.RowError | app/ml/model.py:84-85 | a classified row of a batch fails with KeyError (no target_names), then IndexError (id out of range), then the ValueError of `max` on empty probabilities, in that order, and otherwise succeeds |
| Model.MLModel.GetModelInfo | app/ml/model.py:94-104 | unloaded: the marker {"error": "Model not loaded"}; loaded: feature names, target names, feature count and the estimator's class name, or KeyError for the first of those keys that is missing |
| Model.PredictDependsOnlyOnEstimator | app/ml/model.py:41-47 | a loaded unit performs no feature-count check: two rows on which the estimator gives the same output get the same result, whatever their widths |
| Model.WrongWidthReachesEstimator | app/ml/model.py:41-65 | when the estimator raises on every row of the wrong width, `predict` raises its error for such a row |
| Model.ConfidenceInUnitInterval | app/ml/model.py:53 | a classification confidence lies in [0, 1] when the estimator's probabilities do |
| Model.ModelRegistry.constructor | app/ml/model.py:108-109 | a new registry is empty |
| Model.ModelRegistry.RegisterModel | app/ml/model.py:111-113 | stores a fresh unloaded unit under the name, replacing any previous one without error; no other entry changes; a new name is appended to the key order, a known one keeps its place |
| Model.ModelRegistry.GetModel | app/ml/model.py:115-118 | returns the stored unit iff the name is registered, else "Model {name} not found" |
| Model.ModelRegistry.ListModels | app/ml/model.py:120-121 | exactly the registered names, each once |
| Model.CreateGlobalRegistry | app/ml/model.py:124-127 | after module initialisation the registry lists exactly iris then diabetes, both fresh and unloaded |
| Scenarios.IrisSetosaScenario | scripts/test_manually.py:40 | the sample [5.1, 3.5, 1.4, 0.2] passes the schema and is classified "setosa", id 0, confidence in (0, 1] |
| Scenarios.IrisBatchScenario | app/models/schemas.py:39 | the two example samples give two results in input order; a one-sample batch equals the single prediction |
| Scenarios.WrongWidthRequestsRefused | scripts/test_manually.py:125-135 | 2 iris features and 3 diabetes features are refused as too short; the 10-feature diabetes sample is accepted |
| Scenarios.DiabetesScenario | app/ml/model.py:99-104 | a loaded regression unit returns the bare scalar, the estimator's error surfaces for a short row, and the info raises KeyError on "target_names" |
| Scenarios.TrainingMetadataScenario | train_model.py:34-38 | metadata without "model_type" leaves the unit unloaded: predictions raise "Model not loaded" and the info is the marker |
| Scenarios.LoadRegistered | app/ml/model.py:111-118 | loading one registered unit leaves every other registered unit unchanged |
| Scenarios.IsolationScenario | app/ml/model.py:124-127 | after iris loads, diabetes still raises "Model not loaded" |
| Scenarios.UnknownModelScenario | app/ml/model.py:115-117 | "nonexistent" is refused with "Model nonexistent not found" |

## Left out

- Reading the artifact files (`joblib.load`, the `os.path` locations) and the printed messages: the load outcomes are parameters of `LoadModel`, and nothing is printed.
- NumPy conversion and reshaping of the feature lists: rows are passed to the estimator as they are; a ragged batch that NumPy itself refuses is not modelled.
- The estimator is modelled row-wise: the batch call raises when the estimator raises on some row. scikit-learn's refusal of an empty batch is not modelled (an empty batch yields an empty result).
- Metadata that is not a dictionary, and metadata values of unexpected types, are not modelled; each key is present with a value of the expected type or absent.
- Float semantics: probabilities and predictions are unbounded `real`s, and `float(...)`/`int(...)` conversions are the identity.
- Pydantic's coercion of JSON values to `float` is not modelled; a request is a sequence of reals.
- The HTTP routes, application startup, the training script and the manual test client are not part of this model, beyond the sample inputs and metadata shapes the scenarios borrow.
- The response records (`IrisResponse`, `DiabetesResponse`, `BatchPredictionResponse`, `HealthResponse`) are datatypes only: they are filled in by the HTTP routes, which are not part of this model.
- Concurrency of request handling.
