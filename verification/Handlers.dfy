/**
 * The request handlers of the prediction service, as functions of the
 * loaded model (or its absence) and the request: single prediction, batch
 * prediction and model information, each with the error it raises and the
 * status code a client sees. The trained classifier is an opaque oracle.
 */
module Handlers {
  import opened Wrappers
  import opened Features
  import opened ConfidenceBands

  /** The largest batch the batch endpoint accepts. */
  const MaxBatch: nat := 100

  /**
   * The loaded classifier, seen only through what the handlers use: the
   * labels and the probabilities of hypertension it gives a table of rows
   * (`None` when the call raises), and the feature names its scaler was
   * fitted on (`None` when looking them up raises).
   */
  datatype Classifier = Classifier(
    predict: seq<FeatureRow> -> Option<seq<int>>,
    predictProba: seq<FeatureRow> -> Option<seq<real>>,
    featureNames: Option<seq<string>>)

  /** One call into the classifier, with the table it was given. */
  datatype ModelCall = PredictCall(rows: seq<FeatureRow>) | PredictProbaCall(rows: seq<FeatureRow>)

  /** What an HTTP error says happened. */
  datatype Detail =
    | ModelNotLoaded
    | BatchTooLarge
    | FailedToLoad
    | ModelInfoUnavailable
    | PredictionError(cause: Cause)
    | BatchPredictionError(cause: Cause)

  /** The exception caught by a handler's generic error path and reported inside its 500 error. */
  datatype Cause =
    | Reraised(status: int, detail: Detail)
    | ModelRaised
    | NoOutputRow
    | ResponseOutOfRange

  /** An error returned to the client. */
  datatype ApiError =
    | InvalidBody(violations: seq<Violation>)
    | InvalidBatch(errors: seq<Located>)
    | HttpException(status: int, detail: Detail)

  /** The HTTP status code of an error: request validation failures are 422. */
  function Status(e: ApiError): int {
    match e
    case InvalidBody(_) => 422
    case InvalidBatch(_) => 422
    case HttpException(s, _) => s
  }

  datatype PredictionResponse = PredictionResponse(prediction: int, probability: real, confidence: string)

  datatype BatchEntry = BatchEntry(patientId: nat, prediction: int, probability: real, confidence: string)

  datatype BatchResponse = BatchResponse(predictions: seq<BatchEntry>, totalPatients: nat)

  datatype ModelInfo = ModelInfo(
    modelType: string,
    features: seq<string>,
    numFeatures: nat,
    targetClasses: seq<int>,
    targetDescription: map<int, string>)

  datatype HealthResponse = HealthResponse(status: string, modelLoaded: bool)

  const ModelType: string := "Logistic Regression Pipeline"

  const TargetDescription: map<int, string> := map[0 := "No hypertension", 1 := "Hypertension"]

  function Min(a: nat, b: nat): nat {
    if a <= b then a else b
  }

  /**
   * The classifier, given `rows`, returns a label and a probability at
   * position `i`, and they are `y` and `prob`.
   */
  predicate Reports(m: Classifier, rows: seq<FeatureRow>, i: nat, y: int, prob: real) {
    && m.predict(rows).Some? && i < |m.predict(rows).value| && m.predict(rows).value[i] == y
    && m.predictProba(rows).Some? && i < |m.predictProba(rows).value| && m.predictProba(rows).value[i] == prob
  }

  /** The classifier answers `rows` with one label and one probability per row. */
  predicate OnePerRow(m: Classifier, rows: seq<FeatureRow>) {
    && m.predict(rows).Some? && |m.predict(rows).value| == |rows|
    && m.predictProba(rows).Some? && |m.predictProba(rows).value| == |rows|
  }

  // ---------------------------------------------------------------------------
  // Model information
  // ---------------------------------------------------------------------------

  /**
   * The model information endpoint. Without a model it fails at once with the
   * plain "model not loaded" error (its check stands outside the handler's
   * generic error path); otherwise it reports the scaler's feature names,
   * their count, and the fixed target classes and their description.
   */
  function Info(model: Option<Classifier>): (r: Result<ModelInfo, ApiError>)
    ensures model.None? ==> r == Err(HttpException(500, ModelNotLoaded))
    ensures r.Ok? <==> model.Some? && model.value.featureNames.Some?
    ensures model.Some? && model.value.featureNames.None? ==> r == Err(HttpException(500, ModelInfoUnavailable))
    ensures r.Ok? ==> && model.value.featureNames == Some(r.value.features)
                      && r.value.numFeatures == |r.value.features|
                      && r.value.modelType == ModelType
                      && r.value.targetClasses == [0, 1]
                      && r.value.targetDescription == TargetDescription
  {
    match model
    case None => Err(HttpException(500, ModelNotLoaded))
    case Some(m) =>
      match m.featureNames
      case None => Err(HttpException(500, ModelInfoUnavailable))
      case Some(names) => Ok(ModelInfo(ModelType, names, |names|, [0, 1], TargetDescription))
  }

  // ---------------------------------------------------------------------------
  // Single prediction
  // ---------------------------------------------------------------------------

  /** The error of the single-prediction handler's generic error path. */
  function PredictFailure(c: Cause): ApiError {
    HttpException(500, PredictionError(c))
  }

  /**
   * Inference for one validated row: label and probability come from two
   * calls on a one-row table; the response refuses a probability outside
   * [0, 1], and that refusal too ends in the generic error path.
   */
  function InferOne(m: Classifier, row: FeatureRow): Result<PredictionResponse, ApiError> {
    match m.predict([row])
    case None => Err(PredictFailure(ModelRaised))
    case Some(labels) =>
      if |labels| == 0 then Err(PredictFailure(NoOutputRow))
      else
        match m.predictProba([row])
        case None => Err(PredictFailure(ModelRaised))
        case Some(probs) =>
          if |probs| == 0 then Err(PredictFailure(NoOutputRow))
          else
            var p := probs[0];
            if 0.0 <= p <= 1.0 then Ok(PredictionResponse(labels[0], p, Name(Confidence(p))))
            else Err(PredictFailure(ResponseOutOfRange))
  }

  /**
   * The single-prediction endpoint. The body is validated first (422, even
   * with no model loaded); then a missing model is reported, through the
   * generic error path, as a 500; a success carries the classifier's first
   * label and probability and the band of that probability.
   */
  function PredictOne(model: Option<Classifier>, raw: RawRecord): (r: Result<PredictionResponse, ApiError>)
    ensures Validate(raw).Err? ==> r == Err(InvalidBody(Validate(raw).error))
    ensures Validate(raw).Ok? && model.None? ==>
      r == Err(PredictFailure(Reraised(500, ModelNotLoaded)))
    ensures r.Err? ==> (Status(r.error) == 422 <==> Validate(raw).Err?)
    ensures r.Err? ==> Status(r.error) == 422 || Status(r.error) == 500
    ensures r.Ok? ==> && Validate(raw).Ok? && model.Some?
                      && Reports(model.value, [Validate(raw).value], 0, r.value.prediction, r.value.probability)
                      && 0.0 <= r.value.probability <= 1.0
                      && r.value.confidence == Name(Confidence(r.value.probability))
  {
    match Validate(raw)
    case Err(vs) => Err(InvalidBody(vs))
    case Ok(row) =>
      if model.None? then Err(PredictFailure(Reraised(500, ModelNotLoaded)))
      else InferOne(model.value, row)
  }

  /**
   * The classifier calls a single prediction makes: none for a rejected body
   * or a missing model; otherwise `predict` on the one-row table, then
   * `predict_proba` on the same table if `predict` gave a row.
   */
  function PredictOneCalls(model: Option<Classifier>, raw: RawRecord): (calls: seq<ModelCall>)
    ensures calls != [] ==> Validate(raw).Ok? && model.Some?
    ensures Validate(raw).Ok? && model.Some? ==> calls != [] && calls[0] == PredictCall([Validate(raw).value])
    ensures calls != [] ==> forall c :: c in calls ==> c.rows == [Validate(raw).value]
    ensures |calls| <= 2
    ensures |calls| == 2 ==> calls[1] == PredictProbaCall([Validate(raw).value])
    ensures Validate(raw).Ok? && model.Some? ==>
      (|calls| == 2 <==> model.value.predict([Validate(raw).value]).Some?
                         && |model.value.predict([Validate(raw).value]).value| > 0)
    ensures PredictOne(model, raw).Ok? ==> |calls| == 2
  {
    match Validate(raw)
    case Err(_) => []
    case Ok(row) =>
      if model.None? then []
      else
        var m := model.value;
        var labels := m.predict([row]);
        [PredictCall([row])] + (if labels.Some? && |labels.value| > 0 then [PredictProbaCall([row])] else [])
  }

  /**
   * An illustration of the single path end to end: the sample patient of the
   * test script, through a classifier chosen to answer label 1 with the
   * illustrative probability 0.82, yields exactly that label and probability
   * and the band text "High".
   */
  lemma SampleEndToEnd(m: Classifier)
    requires m.predict([SampleRow()]) == Some([1])
    requires m.predictProba([SampleRow()]) == Some([0.82])
    ensures PredictOne(Some(m), Raw(SampleRow())) == Ok(PredictionResponse(1, 0.82, "High"))
  {
    SampleAccepted();
    SingleAnswer(m, SampleRow(), 1, 0.82);
  }

  /**
   * A row within the schema's ranges, scored by a classifier that answers
   * one label and a probability in [0, 1], is answered with exactly that
   * label and probability and the band of that probability.
   */
  lemma SingleAnswer(m: Classifier, row: FeatureRow, y: int, p: real)
    requires InRange(row)
    requires m.predict([row]) == Some([y]) && m.predictProba([row]) == Some([p])
    requires 0.0 <= p <= 1.0
    ensures PredictOne(Some(m), Raw(row)) == Ok(PredictionResponse(y, p, Name(Confidence(p))))
  {
    ValidateMatchesRanges(row);
  }

  // ---------------------------------------------------------------------------
  // Batch prediction
  // ---------------------------------------------------------------------------

  /** The error of the batch handler's generic error path. */
  function BatchFailure(c: Cause): ApiError {
    HttpException(500, BatchPredictionError(c))
  }

  /** The entries of a batch response: positions of the label and probability columns zipped, each with its band. */
  function Entries(labels: seq<int>, probs: seq<real>): seq<BatchEntry> {
    seq(Min(|labels|, |probs|), i requires 0 <= i < Min(|labels|, |probs|) =>
      BatchEntry(i, labels[i], probs[i], Name(Confidence(probs[i]))))
  }

  /**
   * The loop that formats a batch response: it walks the label and
   * probability columns together, stops at the shorter, and gives entry `i`
   * the identifier `i`, the `i`-th label and probability, and their band.
   */
  method FormatResults(labels: seq<int>, probs: seq<real>) returns (results: seq<BatchEntry>)
    ensures |results| == Min(|labels|, |probs|)
    ensures forall i :: 0 <= i < |results| ==>
      && results[i].patientId == i
      && results[i].prediction == labels[i]
      && results[i].probability == probs[i]
      && results[i].confidence == Name(Confidence(probs[i]))
    ensures results == Entries(labels, probs)
  {
    results := [];
    var i := 0;
    while i < |labels| && i < |probs|
      invariant i <= |labels| && i <= |probs|
      invariant |results| == i
      invariant forall k :: 0 <= k < i ==> results[k] == BatchEntry(k, labels[k], probs[k], Name(Confidence(probs[k])))
    {
      results := results + [BatchEntry(i, labels[i], probs[i], Name(Confidence(probs[i])))];
      i := i + 1;
    }
  }

  /**
   * The batch endpoint. Every element is validated first (422); then a
   * missing model, then a batch over the cap, each re-raised through the
   * generic error path as a 500 (the cap's own 400 survives only inside the
   * detail); then one `predict` and one `predict_proba` on the whole batch,
   * zipped into entries numbered from 0 in input order.
   */
  function PredictMany(model: Option<Classifier>, raws: seq<RawRecord>): (r: Result<BatchResponse, ApiError>)
    ensures ValidateBatch(raws).Err? ==> r == Err(InvalidBatch(ValidateBatch(raws).error))
    ensures ValidateBatch(raws).Ok? && model.None? ==>
      r == Err(BatchFailure(Reraised(500, ModelNotLoaded)))
    ensures ValidateBatch(raws).Ok? && model.Some? && |raws| > MaxBatch ==>
      r == Err(BatchFailure(Reraised(400, BatchTooLarge)))
    ensures r.Err? ==> (Status(r.error) == 422 <==> ValidateBatch(raws).Err?)
    ensures r.Err? ==> Status(r.error) == 422 || Status(r.error) == 500
    ensures r.Ok? ==> && ValidateBatch(raws).Ok? && model.Some? && |raws| <= MaxBatch
                      && model.value.predict(ValidateBatch(raws).value).Some?
                      && model.value.predictProba(ValidateBatch(raws).value).Some?
                      && |r.value.predictions| == Min(|model.value.predict(ValidateBatch(raws).value).value|,
                                                      |model.value.predictProba(ValidateBatch(raws).value).value|)
                      && r.value.totalPatients == |r.value.predictions|
    ensures r.Ok? ==> forall i :: 0 <= i < |r.value.predictions| ==>
      && r.value.predictions[i].patientId == i
      && Reports(model.value, ValidateBatch(raws).value, i,
                 r.value.predictions[i].prediction, r.value.predictions[i].probability)
      && r.value.predictions[i].confidence == Name(Confidence(r.value.predictions[i].probability))
  {
    match ValidateBatch(raws)
    case Err(es) => Err(InvalidBatch(es))
    case Ok(rows) =>
      if model.None? then Err(BatchFailure(Reraised(500, ModelNotLoaded)))
      else if |rows| > MaxBatch then Err(BatchFailure(Reraised(400, BatchTooLarge)))
      else
        var m := model.value;
        match m.predict(rows)
        case None => Err(BatchFailure(ModelRaised))
        case Some(labels) =>
          match m.predictProba(rows)
          case None => Err(BatchFailure(ModelRaised))
          case Some(probs) =>
            var entries := Entries(labels, probs);
            Ok(BatchResponse(entries, |entries|))
  }

  /**
   * The classifier calls a batch prediction makes: none unless the batch is
   * valid, a model is loaded and the batch is within the cap; then one
   * `predict` on the whole batch, and one `predict_proba` on the whole batch
   * if `predict` did not raise.
   */
  function PredictManyCalls(model: Option<Classifier>, raws: seq<RawRecord>): (calls: seq<ModelCall>)
    ensures calls != [] <==> ValidateBatch(raws).Ok? && model.Some? && |raws| <= MaxBatch
    ensures calls != [] ==> calls[0] == PredictCall(ValidateBatch(raws).value)
    ensures calls != [] ==> forall c :: c in calls ==> c.rows == ValidateBatch(raws).value
    ensures |calls| <= 2
    ensures |calls| == 2 ==> calls[1] == PredictProbaCall(ValidateBatch(raws).value)
    ensures calls != [] ==> (|calls| == 2 <==> model.value.predict(ValidateBatch(raws).value).Some?)
    ensures PredictMany(model, raws).Ok? ==> |calls| == 2
  {
    match ValidateBatch(raws)
    case Err(_) => []
    case Ok(rows) =>
      if model.None? || |rows| > MaxBatch then []
      else
        [PredictCall(rows)] + (if model.value.predict(rows).Some? then [PredictProbaCall(rows)] else [])
  }

  /**
   * A valid batch over the cap fails the same way whatever the classifier,
   * and without calling it.
   */
  lemma OversizedBatchIgnoresModel(m1: Classifier, m2: Classifier, raws: seq<RawRecord>)
    requires ValidateBatch(raws).Ok? && |raws| > MaxBatch
    ensures PredictMany(Some(m1), raws) == PredictMany(Some(m2), raws)
    ensures PredictManyCalls(Some(m1), raws) == []
    ensures Status(PredictMany(Some(m1), raws).error) == 500
  {
  }

  /**
   * When the classifier answers the batch with one label and one probability
   * per row, a successful response has exactly one entry per input row,
   * entry `i` is patient `i`, and the total is the batch size.
   */
  lemma BatchCoversEveryRow(m: Classifier, raws: seq<RawRecord>)
    requires PredictMany(Some(m), raws).Ok?
    requires OnePerRow(m, ValidateBatch(raws).value)
    ensures |PredictMany(Some(m), raws).value.predictions| == |raws|
    ensures PredictMany(Some(m), raws).value.totalPatients == |raws|
    ensures forall i :: 0 <= i < |raws| ==> PredictMany(Some(m), raws).value.predictions[i].patientId == i
  {
    var rows := ValidateBatch(raws).value;
    assert |Entries(m.predict(rows).value, m.predictProba(rows).value)| == |raws|;
  }

  /**
   * A valid batch within the cap reaches the classifier, whose failure is
   * then the only way it can fail; if the classifier answers both calls, it
   * succeeds.
   */
  lemma BatchWithinCapProceeds(m: Classifier, raws: seq<RawRecord>)
    requires ValidateBatch(raws).Ok? && |raws| <= MaxBatch
    ensures PredictManyCalls(Some(m), raws) != []
    ensures PredictMany(Some(m), raws).Ok? <==>
      m.predict(ValidateBatch(raws).value).Some? && m.predictProba(ValidateBatch(raws).value).Some?
  {
  }

  /**
   * The classifier scores each row of a table on its own: on `rows`, row `i`
   * gets the label and the probability it gets when scored alone.
   */
  predicate RowWise(m: Classifier, rows: seq<FeatureRow>) {
    && OnePerRow(m, rows)
    && forall i :: 0 <= i < |rows| ==>
         && m.predict([rows[i]]) == Some([m.predict(rows).value[i]])
         && m.predictProba([rows[i]]) == Some([m.predictProba(rows).value[i]])
  }

  /**
   * For a classifier that scores rows independently, entry `i` of a batch
   * response is what the single endpoint answers for element `i`, with the
   * same band; the single endpoint alone refuses a probability outside [0, 1].
   */
  lemma BatchMatchesSingle(m: Classifier, raws: seq<RawRecord>, i: nat)
    requires PredictMany(Some(m), raws).Ok?
    requires RowWise(m, ValidateBatch(raws).value)
    requires i < |raws|
    ensures i < |PredictMany(Some(m), raws).value.predictions|
    ensures var e := PredictMany(Some(m), raws).value.predictions[i];
      PredictOne(Some(m), raws[i]) ==
        if 0.0 <= e.probability <= 1.0 then Ok(PredictionResponse(e.prediction, e.probability, e.confidence))
        else Err(PredictFailure(ResponseOutOfRange))
  {
    var rows := ValidateBatch(raws).value;
    BatchCoversEveryRow(m, raws);
    assert Validate(raws[i]) == Ok(rows[i]);
  }
}
