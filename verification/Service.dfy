/**
 * The running service: the one piece of mutable state is the loaded
 * classifier, absent until startup loads it. Every endpoint reads it; none
 * changes it. A ghost log records each call into the classifier, so that the
 * contracts can say which requests reach the model and with what table.
 */
module Service {
  import opened Wrappers
  import opened Features
  import opened ConfidenceBands
  import opened Handlers

  class InferenceService {
    /** The loaded classifier; `None` until startup has loaded one. */
    var model: Option<Classifier>

    /** Every call made into the classifier, in order. */
    ghost var calls: seq<ModelCall>

    /** A fresh process: no classifier loaded, none called. */
    constructor ()
      ensures model.None? && calls == []
    {
      model := None;
      calls := [];
    }

    /**
     * The startup step. `artifact` is what loading the model file produced,
     * `None` if loading raised; on success the classifier is installed,
     * otherwise nothing changes and startup fails with a 500.
     */
    method LoadModel(artifact: Option<Classifier>) returns (r: Outcome<ApiError>)
      modifies this`model
      ensures artifact.Some? ==> r == Pass && model == artifact
      ensures artifact.None? ==> r == Fail(HttpException(500, FailedToLoad)) && model == old(model)
    {
      if artifact.None? {
        return Fail(HttpException(500, FailedToLoad));
      }
      model := artifact;
      r := Pass;
    }

    /** The health endpoint: always answers, reporting whether a classifier is loaded. */
    method Health() returns (h: HealthResponse)
      ensures h.status == "healthy"
      ensures h.modelLoaded <==> model.Some?
    {
      h := HealthResponse("healthy", model.Some?);
    }

    /**
     * The model information endpoint; it reads the classifier's feature names
     * and never scores. The body follows the handler's own sequence of early
     * exits (the loaded-model check, then the name lookup), and the contract
     * proves that sequence equal to `Info`.
     */
    method GetModelInfo() returns (r: Result<ModelInfo, ApiError>)
      ensures r == Info(model)
    {
      if model.None? {
        return Err(HttpException(500, ModelNotLoaded));
      }
      var names := model.value.featureNames;
      if names.None? {
        return Err(HttpException(500, ModelInfoUnavailable));
      }
      r := Ok(ModelInfo(ModelType, names.value, |names.value|, [0, 1], TargetDescription));
    }

    /** The single-prediction endpoint, calling the classifier only for a valid body with a model loaded. */
    method Predict(raw: RawRecord) returns (r: Result<PredictionResponse, ApiError>)
      modifies this`calls
      ensures r == PredictOne(model, raw)
      ensures calls == old(calls) + PredictOneCalls(model, raw)
    {
      var checked := Validate(raw);
      if checked.Err? {
        return Err(InvalidBody(checked.error));
      }
      var row := checked.value;
      if model.None? {
        return Err(PredictFailure(Reraised(500, ModelNotLoaded)));
      }
      var m := model.value;
      calls := calls + [PredictCall([row])];
      var labels := m.predict([row]);
      if labels.None? {
        return Err(PredictFailure(ModelRaised));
      }
      if |labels.value| == 0 {
        return Err(PredictFailure(NoOutputRow));
      }
      calls := calls + [PredictProbaCall([row])];
      var probs := m.predictProba([row]);
      if probs.None? {
        return Err(PredictFailure(ModelRaised));
      }
      if |probs.value| == 0 {
        return Err(PredictFailure(NoOutputRow));
      }
      var p := probs.value[0];
      var band := Name(Confidence(p));
      if !(0.0 <= p <= 1.0) {
        return Err(PredictFailure(ResponseOutOfRange));
      }
      r := Ok(PredictionResponse(labels.value[0], p, band));
    }

    /**
     * The batch endpoint: the loaded-model check, then the cap, then one
     * call of each kind on the whole batch, then the formatting loop.
     */
    method PredictBatch(raws: seq<RawRecord>) returns (r: Result<BatchResponse, ApiError>)
      modifies this`calls
      ensures r == PredictMany(model, raws)
      ensures calls == old(calls) + PredictManyCalls(model, raws)
    {
      var checked := ValidateBatch(raws);
      if checked.Err? {
        return Err(InvalidBatch(checked.error));
      }
      var rows := checked.value;
      if model.None? {
        return Err(BatchFailure(Reraised(500, ModelNotLoaded)));
      }
      if |rows| > MaxBatch {
        return Err(BatchFailure(Reraised(400, BatchTooLarge)));
      }
      var m := model.value;
      calls := calls + [PredictCall(rows)];
      var labels := m.predict(rows);
      if labels.None? {
        return Err(BatchFailure(ModelRaised));
      }
      calls := calls + [PredictProbaCall(rows)];
      var probs := m.predictProba(rows);
      if probs.None? {
        return Err(BatchFailure(ModelRaised));
      }
      var results := FormatResults(labels.value, probs.value);
      r := Ok(BatchResponse(results, |results|));
    }
  }
}
