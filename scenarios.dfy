/**
 * Concrete scenarios of the serving core: the sample requests of the manual smoke
 * test, the metadata the training script writes, and the isolation of one
 * registered model from another. The fitted estimators are stand-ins whose
 * outputs are fixed here; only their shape (classifier or regressor, rejecting
 * rows of the wrong width) matters.
 */
module Scenarios {
  import opened Common
  import opened Schemas
  import opened Model

  const SetosaSample: Features := [5.1, 3.5, 1.4, 0.2]
  const VersicolorSample: Features := [6.2, 2.9, 4.3, 1.3]
  const DiabetesSample: Features := [0.038, 0.051, 0.062, 0.022, -0.044, -0.035, -0.043, -0.003, 0.020, -0.018]

  const IrisTargetNames: seq<string> := ["setosa", "versicolor", "virginica"]

  /** A random-forest stand-in: four-feature rows only. */
  function IrisForest(): Artifact {
    Artifact("RandomForestClassifier", (x: Features) =>
      if x == SetosaSample then Classified(0, [0.97, 0.02, 0.01])
      else if x == VersicolorSample then Classified(1, [0.0, 0.93, 0.07])
      else if |x| == 4 then Classified(2, [0.0, 0.1, 0.9])
      else Raised)
  }

  /** A ridge-regression stand-in: ten-feature rows only. */
  function DiabetesRidge(): Artifact {
    Artifact("Ridge", (x: Features) => if |x| == 10 then Scalar(152.0) else Raised)
  }

  function IrisMetadata(modelType: Option<string>): Metadata {
    Metadata(modelType,
      Some(["sepal length (cm)", "sepal width (cm)", "petal length (cm)", "petal width (cm)"]),
      Some(IrisTargetNames),
      Some(4))
  }

  /** Diabetes metadata carries a "target" entry, not "target_names". */
  function DiabetesMetadata(modelType: Option<string>): Metadata {
    Metadata(modelType,
      Some(["age", "sex", "bmi", "bp", "s1", "s2", "s3", "s4", "s5", "s6"]),
      None,
      Some(10))
  }

  /** The setosa sample passes the schema and is classified as setosa, id 0. */
  method IrisSetosaScenario() returns (r: Result<Prediction, ModelError>)
    ensures ParseIrisRequest(SetosaSample).Ok?
    ensures r == Ok(Classification("setosa", 0, 0.97))
    ensures 0.0 < r.value.confidence <= 1.0
  {
    var registry := CreateGlobalRegistry();
    var found := registry.GetModel(ModelOption.Iris.Value());
    var unit := found.value;
    unit.LoadModel(Some(IrisForest()), Some(IrisMetadata(Some(ClassificationKind))));
    r := unit.Predict(SetosaSample);
    assert IrisForest().decide(SetosaSample) == Classified(0, [0.97, 0.02, 0.01]);
  }

  /** The two schema example samples give two results, in order; a one-sample
      batch gives exactly what the single prediction gives. */
  method IrisBatchScenario() returns (batch: Result<seq<Prediction>, ModelError>, single: Result<seq<Prediction>, ModelError>)
    ensures batch.Ok? && |batch.value| == 2
    ensures batch.value[0] == Classification("setosa", 0, 0.97)
    ensures batch.value[1] == Classification("versicolor", 1, 0.93)
    ensures single == Ok([batch.value[0]])
  {
    var unit := new MLModel(ModelOption.Iris.Value());
    unit.LoadModel(Some(IrisForest()), Some(IrisMetadata(Some(ClassificationKind))));
    assert IrisForest().decide(SetosaSample) == Classified(0, [0.97, 0.02, 0.01]);
    assert IrisForest().decide(VersicolorSample) == Classified(1, [0.0, 0.93, 0.07]);
    assert unit.Predict(SetosaSample) == Ok(Classification("setosa", 0, 0.97));
    assert unit.Predict(VersicolorSample) == Ok(Classification("versicolor", 1, 0.93));
    batch := unit.PredictBatch([SetosaSample, VersicolorSample]);
    single := unit.PredictBatch([SetosaSample]);
    assert single.Ok? && |single.value| == 1;
    assert single.value[0] == batch.value[0];
    assert single.value == [batch.value[0]];
  }

  /** Requests of the wrong width are refused by the schema before any unit is consulted. */
  lemma WrongWidthRequestsRefused()
    ensures ParseIrisRequest([5.1, 3.5]) == Err(TooShort(4, 2))
    ensures ParseDiabetesRequest([0.038, 0.051, 0.062]) == Err(TooShort(10, 3))
    ensures ParseDiabetesRequest(DiabetesSample).Ok?
  {
  }

  /** A loaded regression unit returns the bare scalar, but `get_model_info` raises
      KeyError: the diabetes metadata has no "target_names". A three-feature row
      reaches the estimator, which raises. */
  method DiabetesScenario() returns (r: Result<Prediction, ModelError>, short: Result<Prediction, ModelError>, info: Result<ModelInfo, ModelError>)
    ensures r == Ok(Regression(152.0))
    ensures short == Err(ArtifactRaised)
    ensures info == Err(MissingKey("target_names"))
  {
    var unit := new MLModel(ModelOption.Diabetes.Value());
    unit.LoadModel(Some(DiabetesRidge()), Some(DiabetesMetadata(Some(RegressionKind))));
    r := unit.Predict(DiabetesSample);
    short := unit.Predict([0.038, 0.051, 0.062]);
    info := unit.GetModelInfo();
  }

  /** The metadata the training script writes has no "model_type" key, so loading it
      leaves the unit unloaded: predictions raise "Model not loaded", and the info
      is the "not loaded" marker. */
  method TrainingMetadataScenario() returns (loaded: bool, r: Result<Prediction, ModelError>, info: Result<ModelInfo, ModelError>)
    ensures !loaded
    ensures r == Err(NotLoaded)
    ensures info == Ok(Unavailable("Model not loaded"))
  {
    var unit := new MLModel(ModelOption.Iris.Value());
    unit.LoadModel(Some(IrisForest()), Some(IrisMetadata(None)));
    loaded := unit.isLoaded;
    r := unit.Predict(SetosaSample);
    info := unit.GetModelInfo();
  }

  /** Loading the unit registered under one name leaves every other registered unit untouched. */
  method LoadRegistered(registry: ModelRegistry, name: string, modelFile: Option<Artifact>, metadataFile: Option<Metadata>)
    requires registry.Valid() && name in registry.models
    modifies registry.models[name]
    ensures registry.models[name].Valid()
    ensures forall k :: k in registry.models && k != name ==> unchanged(registry.models[k])
  {
    registry.models[name].LoadModel(modelFile, metadataFile);
  }

  /** After iris loads, diabetes, still unloaded, keeps raising "Model not loaded". */
  method IsolationScenario() returns (iris: Result<Prediction, ModelError>, diabetes: Result<Prediction, ModelError>)
    ensures iris == Ok(Classification("setosa", 0, 0.97))
    ensures diabetes == Err(NotLoaded)
  {
    var registry := CreateGlobalRegistry();
    var unit := registry.models["iris"];
    assert unit != registry.models["diabetes"];
    unit.LoadModel(Some(IrisForest()), Some(IrisMetadata(Some(ClassificationKind))));
    assert IrisForest().decide(SetosaSample) == Classified(0, [0.97, 0.02, 0.01]);
    iris := registry.models["iris"].Predict(SetosaSample);
    diabetes := registry.models["diabetes"].Predict(DiabetesSample);
  }

  /** A name that was never registered is refused. */
  method UnknownModelScenario() returns (r: Result<MLModel, RegistryError>)
    ensures r == Err(NotFound("nonexistent"))
  {
    var registry := CreateGlobalRegistry();
    r := registry.GetModel("nonexistent");
  }
}
