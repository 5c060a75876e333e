# Hypertension prediction service: a verified model of its request handling

The service wraps a pre-trained hypertension classifier in an HTTP API. It
loads the classifier once at startup and then serves four endpoints:

- `/health` reports whether a classifier is loaded.
- `/model-info` describes the loaded classifier.
- `/predict` scores one patient record.
- `/predict-batch` scores up to 100 patient records at once.

Each patient record has thirteen clinical features, and each feature has an
inclusive range. Every prediction carries a confidence band (Low, Medium or
High) that is computed from the predicted probability alone.

This project models that request handling in Dafny, treating the classifier
as an opaque oracle:

- `Wrappers.dfy` holds the `Option`, `Result` and `Outcome` types.
- `Features.dfy` models the request schema. A body is accepted only when all
  thirteen fields are present and in range. Otherwise it is rejected with one
  violation per offending field (missing, below its minimum, or above its
  maximum), listed in the fields' declaration order. Values are never clamped. A batch collects the violations of
  every element, each located by its position.
- `ConfidenceBands.dfy` models the threshold chain that maps a probability to
  a band.
- `Handlers.dfy` models the model-info, single and batch endpoints as
  functions. Each function takes the loaded classifier (or its absence) and
  the request. It gives the response or the error, including the HTTP status
  a client sees. For the two prediction endpoints, a companion function gives
  the exact sequence of classifier calls the request makes. This file holds
  the batch-formatting loop as a method, and the lemmas that relate the
  endpoints.
- `Service.dfy` models the process state. The class `InferenceService` holds
  the optional classifier and a ghost log of the calls made into it. Its
  methods are the startup step and the four endpoints. `GetModelInfo`,
  `Predict` and `PredictBatch` are each proved equal to their function in
  `Handlers.dfy`. `Health` and `LoadModel` state their results directly.

The classifier is a datatype of three parts:

- `predict` gives the labels for a table of rows.
- `predictProba` gives the probability of hypertension for each row.
- `featureNames` gives the feature names the classifier was fitted on.

Each part is `None` when the corresponding call in the service raises.
Probabilities are exact reals.

Ordering and status codes follow the code:

- Request bodies are validated before a handler runs. So an invalid body gets
  422 even when no classifier is loaded.
- In `/predict` and `/predict-batch`, the "model not loaded" error (500) and
  the batch-size error (400) are raised inside the handler's `try` block. The
  generic `except` re-raises them as 500, keeping the original only inside
  the error detail. So the handler raises 400 at the cap (main.py:153), but
  the generic `except` at main.py:187-189 turns it into a 500. The model
  follows the code.
- `/model-info` checks for a loaded classifier before its `try` block, so its
  "model not loaded" error is a plain 500.
- The single-prediction response declares its probability to lie in
  [0, 1]. A probability outside that range makes building the response fail,
  which also ends in a 500. The batch path has no such check.
- Responses carry the band as the text the service reports ("Low", "Medium"
  or "High"). `ConfidenceBands.Name` gives that text for the `Band` datatype.
- The batch loop pairs labels with probabilities and stops at the shorter
  column, like Python's `zip`. When the classifier gives one output per row,
  a successful batch has exactly one entry per input row.

## Model

| member | source | states |
|---|---|---|
| `Features.Check` | main.py:15-27 | A field check passes exactly when the field is present and within its inclusive bounds; a failure names the field, and it is `Missing` exactly when the field was left out |
| `Features.ViolationsExact` | main.py:14-27 | Checking a list of fields finds each failing field's violation, finds nothing for a passing field, and finds nothing at all exactly when every field passes |
| `Features.Validate` | main.py:14-27 | A body is accepted exactly when all thirteen fields are admissible; the accepted row then carries the submitted values unchanged (no clamping) and lies in the schema's ranges; a rejection names at least one violation |
| `Features.RejectionReasons` | main.py:14-27 | A rejected body reports exactly the failing field checks, one per offending field, with the reason for each |
| `Features.ValidateMatchesRanges` | main.py:15-27 | A complete body is accepted exactly when its row satisfies the thirteen ranges written out field by field (age [0,120], sex [0,1], cp [0,3], trestbps [0,300], chol [0,600], fbs [0,1], restecg [0,2], thalach [0,300], exang [0,1], oldpeak [-10,10], slope [0,2], ca [0,4], thal [0,3]); it is then accepted unchanged |
| `Features.MissingFieldRejected` | main.py:15-27 | Leaving out any field rejects the body and reports that field as missing |
| `Features.OutOfRangeRejected` | main.py:15-27 | A value outside its range rejects the body (it is never clamped) and is reported as below the minimum or above the maximum, whichever it is |
| `Features.ViolationsInOrder` | main.py:14-27 | Checking fields listed in declaration order reports their violations in that order, at most one per field |
| `Features.RejectionOrder` | main.py:14-27 | A rejected body lists its violations in the declaration order of the fields, and never reports a field twice |
| `Features.CollectExact` | main.py:142 | A located violation is collected from a batch exactly when it occurs in the element at that position |
| `Features.ValidateBatch` | main.py:142 | A batch is accepted exactly when every element is; an accepted batch keeps its length and order, element by element; a rejected one reports exactly the violations of all failing elements, located by position |
| `Features.SampleAccepted` | test_api.py:53-67 | The test script's sample patient is a valid body and is accepted unchanged |
| `Features.SampleRejected` | test_api.py:164-178 | The test script's body without `cp` is rejected, with `cp` reported missing |
| `Features.AgeBoundary` | main.py:15 | At the edge of the inclusive age bound, the sample patient aged 120 is accepted unchanged, and aged 150 is rejected with age above its maximum |
| `ConfidenceBands.Confidence` | main.py:97-103 | The band is High exactly when p < 0.3 or p > 0.7, Medium exactly when 0.3 <= p < 0.4 or 0.6 < p <= 0.7, Low exactly when 0.4 <= p <= 0.6; so every p has exactly one band, determined by p alone |
| `ConfidenceBands.Name` | main.py:99-103 | A band is reported as one of the texts "Low", "Medium" and "High"; the responses carry this text |
| `ConfidenceBands.NameInjective` | main.py:99-103 | Distinct bands are reported with distinct texts |
| `ConfidenceBands.BandsByMargin` | main.py:98-103 | The band depends only on the distance from 0.5 (High beyond 0.2, Medium beyond 0.1, Low otherwise), so p and 1 - p have the same band |
| `ConfidenceBands.BandMonotoneInMargin` | main.py:98-103 | A probability at least as far from 0.5 as another never has a lower band |
| `ConfidenceBands.BoundaryBands` | main.py:98-103 | At the thresholds themselves, 0.3 and 0.7 are Medium and 0.4 and 0.6 are Low; of the illustrative values between and beyond them, 0.45 is Low and 0.75, 0.82, 0 and 1 are High |
| `Handlers.Info` | main.py:117-139 | Without a classifier, model-info fails with a plain 500 "model not loaded"; if the feature-name lookup fails it is a 500; otherwise it reports those feature names, a count equal to their number, the model type, target classes [0, 1] and the fixed target description |
| `Handlers.PredictOne` | main.py:75-115 | An invalid body is a 422 carrying its violations, before anything else; a valid body with no classifier is a 500 wrapping "model not loaded"; every error is 422 or 500; a success carries the classifier's first label and probability for the one-row table, a probability in [0, 1], and the text of that probability's band |
| `Handlers.PredictOneCalls` | main.py:85-95 | A single prediction calls the classifier only for a valid body with a classifier loaded. It then calls `predict` on the one-row table of the validated body. It calls `predict_proba` on the same table second, exactly when `predict` answered with at least one row. No other call is made, and a success made both |
| `Handlers.SingleAnswer` | main.py:94-111 | An in-range row, for which the classifier gives one label and a probability in [0, 1], is answered with exactly that label, that probability and the text of its band |
| `Handlers.SampleEndToEnd` | main.py:94-111 | An illustration: the test script's sample patient, through a classifier chosen to answer label 1 with the illustrative probability 0.82, yields prediction 1, probability 0.82 and confidence "High" |
| `Handlers.FormatResults` | main.py:163-178 | The formatting loop gives one entry per position of the shorter of the label and probability columns; entry i has patient id i, the i-th label, the i-th probability and the text of that probability's band |
| `Handlers.PredictMany` | main.py:141-189 | An invalid batch is a 422 before anything else. A valid batch with no classifier is a 500 wrapping "model not loaded". A valid batch over 100 rows with a classifier is a 500 wrapping the 400 "batch too large". Every error is 422 or 500. A success has at most 100 rows, as many entries as the shorter output column and a total equal to that count; entry i is patient i with the classifier's i-th label and probability for the whole batch, and the text of that probability's band |
| `Handlers.PredictManyCalls` | main.py:148-161 | A batch reaches the classifier exactly when it is valid, a classifier is loaded and it has at most 100 rows. `predict` on the whole batch comes first. `predict_proba` on the whole batch comes second, exactly when `predict` answered. No other call is made, and a success made both |
| `Handlers.OversizedBatchIgnoresModel` | main.py:148-153 | A valid batch over the cap gets the same 500 whatever the classifier, and makes no classifier call |
| `Handlers.BatchCoversEveryRow` | main.py:164-185 | When the classifier answers one label and one probability per row, a successful batch response has exactly one entry per input row, entry i is patient i, and the total is the batch size |
| `Handlers.BatchWithinCapProceeds` | main.py:152-161 | A valid batch of at most 100 rows reaches the classifier, and succeeds exactly when both classifier calls answer |
| `Handlers.BatchMatchesSingle` | main.py:94-103 | For a classifier that scores rows independently, entry i of a batch response is what the single endpoint answers for element i, with the same band text; only the single endpoint refuses a probability outside [0, 1] |
| `Service.InferenceService.constructor` | main.py:43-44 | A fresh process holds no classifier and has made no classifier call |
| `Service.InferenceService.LoadModel` | main.py:46-55 | A successful load installs the classifier; a failed load leaves the state unchanged and fails startup with a 500 |
| `Service.InferenceService.Health` | main.py:67-73 | Health never fails, reports status "healthy", and reports a model as loaded exactly when a classifier is held |
| `Service.InferenceService.GetModelInfo` | main.py:117-139 | The model-info endpoint answers as `Handlers.Info` of the current state, and changes nothing |
| `Service.InferenceService.Predict` | main.py:75-115 | The single endpoint answers as `Handlers.PredictOne` of the current state, and the call log grows by exactly `Handlers.PredictOneCalls`; the classifier is not changed |
| `Service.InferenceService.PredictBatch` | main.py:141-189 | The batch endpoint answers as `Handlers.PredictMany` of the current state, builds its entries with the formatting loop, and the call log grows by exactly `Handlers.PredictManyCalls`; the classifier is not changed |

## Left out

- Loading the model file (`joblib.load`) is not modelled. Its result is a parameter of `LoadModel`, and a failed load does not abort the process here.
- The trained classifier is an oracle with no properties assumed. Labels are not assumed to be in {0, 1}. Probabilities are not assumed to be in [0, 1] or consistent with the label. Output lengths are not assumed to match the input. The lemmas that need such facts state them as preconditions.
- Building the DataFrame, its column order, and reading `feature_names_in_` from the scaler step are not modelled. They become the classifier's functions and its `featureNames` part.
- JSON parsing and Pydantic's lax numeric coercion are not modelled. Integer fields arrive as `int`, float fields as `real`, and a missing field as `None`.
- The texts of error messages are not modelled; errors are datatypes. In particular, the interpolated exception text that the generic error paths put into their details is not.
- Floating-point rounding is not modelled: probabilities and the float features are exact reals. `int(prediction)` and `float(probability)` are identities here.
- Routing, async handling, startup-event wiring, logging and concurrent requests are not modelled. The classifier is never written after startup, so requests cannot interfere.
- The static root endpoint is not modelled, because it returns fixed text.
- The Streamlit dashboard, the example client and the test script are not part of this model. The test script's sample body and its body without `cp` are restated as lemmas (`Features.SampleAccepted`, `Features.SampleRejected`). The other values in the lemmas are boundary or illustrative values.
