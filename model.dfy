/**
 * The model-serving core (app/ml/model.py): the MLModel inference unit, which
 * loads a fitted artifact and its metadata and normalises the artifact's output,
 * and the ModelRegistry that maps model names to units.
 *
 * The fitted scikit-learn estimator is an opaque collaborator: it is modelled as
 * a pure, row-wise decision function. The two `joblib.load` calls are oracles
 * passed to LoadModel. Probabilities and predictions are `real`s; the only
 * arithmetic the core performs on them is `max`.
 */
module Model {
  import opened Common

  /** The enumeration `ModelOptions`, a `str` enum. */
  datatype ModelOption = Iris | Diabetes {
    /** The member's string value, which is also how it hashes and compares. */
    function Value(): (v: string)
      ensures v == "iris" <==> this == Iris
      ensures v == "diabetes" <==> this == Diabetes
    {
      match this
      case Iris => "iris"
      case Diabetes => "diabetes"
    }
  }

  const ClassificationKind := "classification"
  const RegressionKind := "regression"
  const NotLoadedMessage := "Model not loaded"

  const ModelTypeKey := "model_type"
  const FeatureNamesKey := "feature_names"
  const TargetNamesKey := "target_names"
  const NFeaturesKey := "n_features"

  /** What the fitted estimator yields for one feature row. */
  datatype ArtifactOutput =
    | Classified(classId: int, probabilities: seq<real>)  // a classifier: predict and predict_proba
    | Scalar(value: real)                                  // a regressor: predict only
    | Raised                                               // the estimator raises on this row

  /** The fitted estimator: its class name and its decision function. */
  datatype Artifact = Artifact(className: string, decide: Features -> ArtifactOutput)

  /** The metadata dictionary; each field is `None` when its key is absent. */
  datatype Metadata = Metadata(
    modelType: Option<string>,
    featureNames: Option<seq<string>>,
    targetNames: Option<seq<string>>,
    nFeatures: Option<int>)

  /** The exceptions that `predict`, `predict_batch` and `get_model_info` let escape. */
  datatype ModelError =
    | NotLoaded                                 // ValueError("Model not loaded")
    | InvalidModelType                          // ValueError("Invalid model type")
    | MissingKey(key: string)                   // KeyError on the metadata dictionary
    | IndexOutOfRange(index: int, length: nat)  // IndexError on target_names
    | EmptyProbabilities                        // ValueError from max() of an empty sequence
    | ArtifactRaised                            // whatever the estimator raised

  /** A normalised prediction: (label, class id, confidence) or a bare scalar. */
  datatype Prediction =
    | Classification(name: string, classId: int, confidence: real)
    | Regression(value: real)

  /** The dictionary `get_model_info` returns. */
  datatype ModelInfo =
    | Unavailable(error: string)
    | Info(featureNames: seq<string>, targetNames: seq<string>, nFeatures: int, modelClass: string)

  datatype RegistryError = NotFound(name: string)  // ValueError(f"Model {name} not found")

  predicate IsKnownKind(modelType: Option<string>) {
    modelType == Some(ClassificationKind) || modelType == Some(RegressionKind)
  }

  ghost predicate IsMaximum(m: real, s: seq<real>) {
    m in s && forall i :: 0 <= i < |s| ==> s[i] <= m
  }

  /** Python's built-in `max` over a non-empty sequence. */
  function Max(s: seq<real>): (m: real)
    requires |s| > 0
    ensures IsMaximum(m, s)
  {
    if |s| == 1 then s[0]
    else
      var rest := Max(s[1..]);
      if rest <= s[0] then s[0] else rest
  }

  /** Python list indexing `s[i]`, where a negative index counts from the end;
      `None` stands for the IndexError. */
  function PyIndex<T>(s: seq<T>, i: int): (r: Option<T>)
    ensures r.Some? <==> -|s| <= i < |s|
    ensures 0 <= i < |s| ==> r == Some(s[i])
    ensures -|s| <= i < 0 ==> r == Some(s[|s| + i])
  {
    if 0 <= i < |s| then Some(s[i])
    else if -|s| <= i < 0 then Some(s[|s| + i])
    else None
  }

  /** The scalar a regression-typed unit reports for one estimator output:
      a classifier's `predict` gives its class label. */
  function ScalarOf(out: ArtifactOutput): real
    requires !out.Raised?
  {
    match out
    case Scalar(v) => v
    case Classified(id, _) => id as real
  }

  /** The estimator called once on a whole batch (`model.predict(X)`), row by row. */
  function DecideAll(a: Artifact, samples: seq<Features>): (outs: seq<ArtifactOutput>)
    ensures |outs| == |samples|
    ensures forall i :: 0 <= i < |samples| ==> outs[i] == a.decide(samples[i])
  {
    seq(|samples|, i requires 0 <= i < |samples| => a.decide(samples[i]))
  }

  /** The exception the batch loop raises on one classified row, if any: the
      target_names lookup comes before `max`, the reverse of single prediction. */
  function RowError(md: Metadata, id: int, probs: seq<real>): (e: Option<ModelError>)
    ensures e.None? <==> md.targetNames.Some? && PyIndex(md.targetNames.value, id).Some? && |probs| > 0
    ensures md.targetNames.None? ==> e == Some(MissingKey(TargetNamesKey))
    ensures md.targetNames.Some? && PyIndex(md.targetNames.value, id).None? ==>
      e == Some(IndexOutOfRange(id, |md.targetNames.value|))
    ensures md.targetNames.Some? && PyIndex(md.targetNames.value, id).Some? && |probs| == 0 ==>
      e == Some(EmptyProbabilities)
  {
    if md.targetNames.None? then Some(MissingKey(TargetNamesKey))
    else if PyIndex(md.targetNames.value, id).None? then Some(IndexOutOfRange(id, |md.targetNames.value|))
    else if |probs| == 0 then Some(EmptyProbabilities)
    else None
  }

  /** The exception of the first classified row, in batch order, that raises one. */
  function FirstRowError(md: Metadata, outs: seq<ArtifactOutput>): Option<ModelError>
    requires forall i :: 0 <= i < |outs| ==> outs[i].Classified?
  {
    if |outs| == 0 then None
    else
      match RowError(md, outs[0].classId, outs[0].probabilities)
      case Some(e) => Some(e)
      case None => FirstRowError(md, outs[1..])
  }

  /** `p` is what a classification unit with this artifact and metadata reports for `features`. */
  ghost predicate ClassifiedAs(a: Artifact, md: Metadata, features: Features, p: Prediction) {
    match a.decide(features)
    case Classified(id, probs) =>
      && p.Classification?
      && p.classId == id
      && md.targetNames.Some?
      && PyIndex(md.targetNames.value, id) == Some(p.name)
      && IsMaximum(p.confidence, probs)
    case _ => false
  }

  /** The estimator classifies `features`, with a non-empty probability vector and a
      class id that indexes the metadata's target names. */
  ghost predicate Classifiable(a: Artifact, md: Metadata, features: Features) {
    match a.decide(features)
    case Classified(id, probs) =>
      |probs| > 0 && md.targetNames.Some? && PyIndex(md.targetNames.value, id).Some?
    case _ => false
  }

  /**
   * One inference unit (class `MLModel`). `isLoaded` is the lifecycle flag;
   * `model`, `metadata` and `modelType` start as `None` and are filled in by
   * LoadModel.
   */
  class MLModel {
    const datasetName: string
    var modelType: Option<string>
    var model: Option<Artifact>
    var metadata: Option<Metadata>
    var isLoaded: bool

    /** A loaded unit holds an artifact and metadata, and its type is the metadata's. */
    ghost predicate Valid()
      reads this
    {
      isLoaded ==>
        && model.Some?
        && metadata.Some?
        && metadata.value.modelType.Some?
        && modelType == metadata.value.modelType
    }

    ghost predicate IsFresh(name: string)
      reads this
    {
      datasetName == name && modelType.None? && model.None? && metadata.None? && !isLoaded
    }

    constructor (name: string)
      ensures Valid() && IsFresh(name)
    {
      datasetName := name;
      modelType := None;
      model := None;
      metadata := None;
      isLoaded := false;
    }

    /**
     * `load_model`. `modelFile` and `metadataFile` are the outcomes of the two
     * `joblib.load` calls (`None`: the call raised). No failure escapes: it only
     * clears `isLoaded`, and fields assigned before the failure keep their new value.
     */
    method LoadModel(modelFile: Option<Artifact>, metadataFile: Option<Metadata>)
      modifies this
      ensures Valid()
      ensures isLoaded <==> modelFile.Some? && metadataFile.Some? && metadataFile.value.modelType.Some?
      ensures model == if modelFile.Some? then modelFile else old(model)
      ensures metadata == if modelFile.Some? && metadataFile.Some? then metadataFile else old(metadata)
      ensures modelType == if isLoaded then metadataFile.value.modelType else old(modelType)
    {
      if modelFile.None? {
        isLoaded := false;
        return;
      }
      model := modelFile;
      if metadataFile.None? {
        isLoaded := false;
        return;
      }
      metadata := metadataFile;
      if metadataFile.value.modelType.None? {
        isLoaded := false;
        return;
      }
      modelType := metadataFile.value.modelType;
      isLoaded := true;
    }

    /** `predict` on one feature row. */
    function Predict(features: Features): (r: Result<Prediction, ModelError>)
      reads this
      requires Valid()
      ensures !isLoaded ==> r == Err(NotLoaded)
      ensures isLoaded && !IsKnownKind(modelType) ==> r == Err(InvalidModelType)
      ensures r.Ok? ==> isLoaded && IsKnownKind(modelType)
      // classification: (target_names[id], id, max(probabilities))
      ensures isLoaded && modelType == Some(ClassificationKind) ==>
        && (r.Ok? <==> Classifiable(model.value, metadata.value, features))
        && (r.Ok? ==> ClassifiedAs(model.value, metadata.value, features, r.value))
        && (r == Err(ArtifactRaised) <==> !model.value.decide(features).Classified?)
      // regression: the estimator's scalar, with no label and no confidence
      ensures isLoaded && modelType == Some(RegressionKind) ==>
        && (r.Ok? <==> !model.value.decide(features).Raised?)
        && (r.Ok? ==> r.value == Regression(ScalarOf(model.value.decide(features))))
        && (r.Err? ==> r.error == ArtifactRaised)
    {
      if !isLoaded then Err(NotLoaded)
      else if modelType == Some(ClassificationKind) then
        match model.value.decide(features)
        case Classified(id, probs) =>
          if |probs| == 0 then Err(EmptyProbabilities)
          else
            var confidence := Max(probs);
            if metadata.value.targetNames.None? then Err(MissingKey(TargetNamesKey))
            else
              var names := metadata.value.targetNames.value;
              (match PyIndex(names, id)
               case None => Err(IndexOutOfRange(id, |names|))
               case Some(name) => Ok(Classification(name, id, confidence)))
        case _ => Err(ArtifactRaised)
      else if modelType == Some(RegressionKind) then
        var out := model.value.decide(features);
        if out.Raised? then Err(ArtifactRaised) else Ok(Regression(ScalarOf(out)))
      else Err(InvalidModelType)
    }

    /**
     * `predict_batch`. The estimator is called once on the whole batch and raises
     * if it raises on any row; the classification results are then built row by row.
     * Exactly one result per sample, in order, each what Predict gives for that sample.
     */
    method PredictBatch(samples: seq<Features>) returns (r: Result<seq<Prediction>, ModelError>)
      requires Valid()
      ensures !isLoaded ==> r == Err(NotLoaded)
      ensures isLoaded && !IsKnownKind(modelType) ==> r == Err(InvalidModelType)
      ensures r.Ok? ==> |r.value| == |samples|
      ensures r.Ok? ==> forall i :: 0 <= i < |samples| ==> Predict(samples[i]) == Ok(r.value[i])
      ensures r.Ok? <==> isLoaded && IsKnownKind(modelType) && forall i :: 0 <= i < |samples| ==> Predict(samples[i]).Ok?
      // the estimator's exception, raised for the whole batch, comes first
      ensures isLoaded && IsKnownKind(modelType) && (exists i :: 0 <= i < |samples| && Predict(samples[i]) == Err(ArtifactRaised)) ==>
        r == Err(ArtifactRaised)
      ensures isLoaded && modelType == Some(RegressionKind) && r.Err? ==> r.error == ArtifactRaised
      // then the first row, in order, whose lookup or `max` raises
      ensures (&& isLoaded && modelType == Some(ClassificationKind)
               && forall i :: 0 <= i < |samples| ==> model.value.decide(samples[i]).Classified?) ==>
        var first := FirstRowError(metadata.value, DecideAll(model.value, samples));
        && (r.Err? <==> first.Some?)
        && (r.Err? ==> r.error == first.value)
    {
      if !isLoaded {
        return Err(NotLoaded);
      }
      var artifact := model.value;
      if modelType == Some(ClassificationKind) {
        var outputs := DecideAll(artifact, samples);
        if exists i :: 0 <= i < |outputs| && !outputs[i].Classified? {
          var j :| 0 <= j < |outputs| && !outputs[j].Classified?;
          assert Predict(samples[j]).Err?;
          return Err(ArtifactRaised);
        }
        var results: seq<Prediction> := [];
        for i := 0 to |outputs|
          invariant |results| == i
          invariant forall j :: 0 <= j < i ==> Predict(samples[j]) == Ok(results[j])
          invariant FirstRowError(metadata.value, outputs) == FirstRowError(metadata.value, outputs[i..])
        {
          var id, probs := outputs[i].classId, outputs[i].probabilities;
          assert outputs[i..][1..] == outputs[i + 1..];
          if metadata.value.targetNames.None? {
            assert Predict(samples[i]).Err?;
            return Err(MissingKey(TargetNamesKey));
          }
          var names := metadata.value.targetNames.value;
          var found := PyIndex(names, id);
          if found.None? {
            assert Predict(samples[i]).Err?;
            return Err(IndexOutOfRange(id, |names|));
          }
          if |probs| == 0 {
            assert Predict(samples[i]).Err?;
            return Err(EmptyProbabilities);
          }
          results := results + [Classification(found.value, id, Max(probs))];
        }
        return Ok(results);
      } else if modelType == Some(RegressionKind) {
        var outputs := DecideAll(artifact, samples);
        if exists i :: 0 <= i < |outputs| && outputs[i].Raised? {
          var j :| 0 <= j < |outputs| && outputs[j].Raised?;
          assert Predict(samples[j]).Err?;
          return Err(ArtifactRaised);
        }
        return Ok(seq(|outputs|, i requires 0 <= i < |outputs| => Regression(ScalarOf(outputs[i]))));
      } else {
        return Err(InvalidModelType);
      }
    }

    /** `get_model_info`: an explicit "not loaded" marker instead of an exception;
        a missing metadata key raises KeyError, in the order the dictionary is built. */
    function GetModelInfo(): (r: Result<ModelInfo, ModelError>)
      reads this
      requires Valid()
      ensures !isLoaded ==> r == Ok(Unavailable(NotLoadedMessage))
      ensures isLoaded ==>
        var md := metadata.value;
        && (r.Ok? <==> md.featureNames.Some? && md.targetNames.Some? && md.nFeatures.Some?)
        && (r.Ok? ==> r.value == Info(md.featureNames.value, md.targetNames.value, md.nFeatures.value, model.value.className))
        && (md.featureNames.None? ==> r == Err(MissingKey(FeatureNamesKey)))
        && (md.featureNames.Some? && md.targetNames.None? ==> r == Err(MissingKey(TargetNamesKey)))
        && (md.featureNames.Some? && md.targetNames.Some? && md.nFeatures.None? ==> r == Err(MissingKey(NFeaturesKey)))
    {
      if !isLoaded then Ok(Unavailable(NotLoadedMessage))
      else
        var md := metadata.value;
        if md.featureNames.None? then Err(MissingKey(FeatureNamesKey))
        else if md.targetNames.None? then Err(MissingKey(TargetNamesKey))
        else if md.nFeatures.None? then Err(MissingKey(NFeaturesKey))
        else Ok(Info(md.featureNames.value, md.targetNames.value, md.nFeatures.value, model.value.className))
    }
  }

  /** The classification confidence lies in [0, 1] whenever the estimator's probabilities do. */
  lemma ConfidenceInUnitInterval(m: MLModel, features: Features)
    requires m.Valid()
    requires m.Predict(features).Ok? && m.Predict(features).value.Classification?
    requires forall i :: 0 <= i < |m.model.value.decide(features).probabilities| ==>
               0.0 <= m.model.value.decide(features).probabilities[i] <= 1.0
    ensures 0.0 <= m.Predict(features).value.confidence <= 1.0
  {
  }

  /** An estimator that raises on every row of the wrong width makes `predict` raise
      its error for such a row. */
  lemma WrongWidthReachesEstimator(m: MLModel, width: nat, features: Features)
    requires m.Valid() && m.isLoaded && IsKnownKind(m.modelType)
    requires forall x: Features :: |x| != width ==> m.model.value.decide(x).Raised?
    requires |features| != width
    ensures m.Predict(features) == Err(ArtifactRaised)
  {
  }

  /** `predict` reads nothing of the row but what the estimator makes of it: there is
      no feature-count check, so a row of any width the estimator accepts is served. */
  lemma PredictDependsOnlyOnEstimator(m: MLModel, x: Features, y: Features)
    requires m.Valid() && m.isLoaded
    requires m.model.value.decide(x) == m.model.value.decide(y)
    ensures m.Predict(x) == m.Predict(y)
  {
  }

  predicate NoDuplicates(s: seq<string>) {
    forall i, j :: 0 <= i < j < |s| ==> s[i] != s[j]
  }

  /**
   * `ModelRegistry`: a dictionary from model name to MLModel. `names` holds the
   * dictionary's keys in insertion order, `models` its entries.
   */
  class ModelRegistry {
    var names: seq<string>
    var models: map<string, MLModel>

    /** The keys are listed once each, and distinct names hold distinct units. */
    ghost predicate Valid()
      reads this
    {
      && (forall k :: k in models <==> k in names)
      && NoDuplicates(names)
      && (forall k1, k2 :: k1 in models && k2 in models && k1 != k2 ==> models[k1] != models[k2])
    }

    constructor ()
      ensures Valid() && names == [] && models == map[]
    {
      names := [];
      models := map[];
    }

    /** `register_model`: a fresh, unloaded unit under `name`, silently replacing
        any unit already there; no other entry changes. */
    method RegisterModel(name: ModelOption)
      requires Valid()
      modifies this
      ensures Valid()
      ensures name.Value() in models && fresh(models[name.Value()])
      ensures models[name.Value()].IsFresh(name.Value()) && models[name.Value()].Valid()
      ensures models.Keys == old(models.Keys) + {name.Value()}
      ensures forall k :: k in old(models) && k != name.Value() ==> models[k] == old(models[k])
      ensures names == if name.Value() in old(models) then old(names) else old(names) + [name.Value()]
    {
      var key := name.Value();
      var model := new MLModel(key);
      if key !in models {
        names := names + [key];
      }
      models := models[key := model];
    }

    /** `get_model`: the stored unit, or ValueError for an unregistered name. */
    function GetModel(name: string): (r: Result<MLModel, RegistryError>)
      reads this
      ensures r.Ok? <==> name in models
      ensures r.Ok? ==> r.value == models[name]
      ensures r.Err? ==> r.error == NotFound(name)
    {
      if name !in models then Err(NotFound(name)) else Ok(models[name])
    }

    /** `list_models`: every registered name, once each. */
    function ListModels(): (r: seq<string>)
      reads this
      requires Valid()
      ensures forall k :: k in r <==> k in models
      ensures NoDuplicates(r)
      ensures |r| == |models|
    {
      DistinctKeysCount(names, models);
      names
    }
  }

  /** A duplicate-free listing of a map's keys has as many entries as the map. */
  lemma {:induction false} DistinctKeysCount(s: seq<string>, m: map<string, MLModel>)
    requires NoDuplicates(s)
    requires forall k :: k in m <==> k in s
    ensures |s| == |m|
  {
    if s == [] {
      assert m.Keys == {};
    } else {
      var last := s[|s| - 1];
      var init := s[..|s| - 1];
      var m' := m - {last};
      assert forall k :: k in init <==> k in s && k != last by {
        forall k ensures k in init <==> k in s && k != last {
          if k in s && k != last {
            var i :| 0 <= i < |s| && s[i] == k;
            assert i < |s| - 1;
            assert init[i] == k;
          }
        }
      }
      DistinctKeysCount(init, m');
    }
  }

  /** The module-level global registry: `iris` then `diabetes`, both unloaded. */
  method CreateGlobalRegistry() returns (registry: ModelRegistry)
    ensures fresh(registry) && registry.Valid()
    ensures registry.ListModels() == ["iris", "diabetes"]
    ensures forall k :: k in registry.models ==> fresh(registry.models[k]) && registry.models[k].IsFresh(k)
  {
    registry := new ModelRegistry();
    registry.RegisterModel(Iris);
    registry.RegisterModel(Diabetes);
  }
}
