/**
 * The prediction page's state and its two event handlers (frontend/src/app/Home/Page.tsx,
 * lines 6-34 and 59-68): the form record, the loading flag, the last result and the last
 * error. `handlePredict` is split at its awaits (`fetch` at line 51, `response.json()` at
 * line 63): BeginPredict is the synchronous part that runs on the click, Complete is the
 * remainder, run once both have settled; a failure at either await is a `Threw` outcome.
 */
module Page {
  import opened Wrappers
  import opened Normalizer
  import opened Classifier

  /** The message of the error thrown on a non-ok status. */
  const RequestFailed := "Prediction request failed"

  /** What is shown when the caught error has an empty message. */
  const GenericError := "An error occurred during prediction"

  /**
   * How the request settled. `Ok(None)` is an ok response whose body is JSON `null`;
   * `Threw(m)` is a fetch or JSON-parsing error with message `m` (empty when it has none).
   */
  datatype Outcome = Ok(body: Option<Response>) | NotOk | Threw(message: string)

  /** `err.message || 'An error occurred during prediction'`. */
  function CaughtMessage(message: string): (shown: string)
    ensures shown != ""
    ensures message != "" ==> shown == message
    ensures message == "" ==> shown == GenericError
  {
    if message != "" then message else GenericError
  }

  /** The message the catch block records for an outcome that is not ok. */
  function FailureMessage(outcome: Outcome): (shown: string)
    requires !outcome.Ok?
    ensures outcome.NotOk? ==> shown == RequestFailed
    ensures outcome.Threw? ==> shown == CaughtMessage(outcome.message)
  {
    match outcome
    case NotOk => CaughtMessage(RequestFailed)
    case Threw(m) => CaughtMessage(m)
  }

  /** What the page shows of its state: the submit button, the error banner, the result panel. */
  datatype Screen = Screen(
    submitEnabled: bool,
    submitText: string,
    errorBanner: Option<string>,
    resultPanel: Option<RenderModel>)

  class PredictionPage {
    var formData: FormData
    var isLoading: bool
    var predictionResult: Option<Response>
    var error: Option<string>

    /**
     * The page invariant: the machine type is one of the select's two options; while a
     * request is in flight neither a result nor an error is held; never both at once;
     * a recorded error is never empty.
     */
    ghost predicate Valid()
      reads this
    {
      && Lookup(formData, MachineType) in {Some("L"), Some("M")}
      && (isLoading ==> predictionResult == None && error == None)
      && !(predictionResult.Some? && error.Some?)
      && (error.Some? ==> error.value != "")
    }

    constructor ()
      ensures Valid()
      ensures formData == InitialForm
      ensures !isLoading && predictionResult == None && error == None
    {
      formData := InitialForm;
      isLoading := false;
      predictionResult := None;
      error := None;
    }

    /**
     * `handleInputChange`: input `id` now holds `value`, every other field is as it was.
     * The machine-type select only offers "L" and "M".
     */
    method InputChange(id: string, value: string)
      requires Valid()
      requires id == MachineType ==> value in {"L", "M"}
      modifies this
      ensures Valid()
      ensures formData == old(formData)[id := value]
      ensures Lookup(formData, id) == Some(value)
      ensures forall k :: k != id ==> Lookup(formData, k) == old(Lookup(formData, k))
      ensures isLoading == old(isLoading) && predictionResult == old(predictionResult) && error == old(error)
    {
      formData := formData[id := value];
    }

    /**
     * The part of `handlePredict` before the request is sent: enter loading, clear the
     * previous error and result, and build the payload from the current form. The button
     * that triggers it is disabled while loading.
     */
    method BeginPredict(parseFloat: string -> Option<real>) returns (payload: PredictionRequest)
      requires Valid()
      requires !isLoading
      modifies this
      ensures Valid()
      ensures isLoading && error == None && predictionResult == None
      ensures formData == old(formData)
      ensures payload == Normalize(formData, parseFloat)
      ensures payload.typeL != payload.typeM
    {
      isLoading := true;
      error := None;
      predictionResult := None;
      payload := Normalize(formData, parseFloat);
      ExactlyOneMachineType(formData, parseFloat);
    }

    /**
     * The rest of `handlePredict` once the request has settled: an ok response stores its
     * body; a non-ok status throws "Prediction request failed", which the catch block
     * records; any other error records its own message, or the generic one when that is
     * empty. The finally block leaves loading.
     */
    method Complete(outcome: Outcome)
      requires Valid()
      requires isLoading
      modifies this
      ensures Valid()
      ensures !isLoading
      ensures formData == old(formData)
      ensures outcome.Ok? ==> predictionResult == outcome.body && error == None
      ensures outcome.NotOk? ==> error == Some(RequestFailed) && predictionResult == None
      ensures outcome.Threw? ==> error == Some(CaughtMessage(outcome.message)) && predictionResult == None
      ensures predictionResult.Some? != error.Some? <==> outcome != Ok(None)
    {
      if outcome.Ok? {
        predictionResult := outcome.body;
      } else {
        error := Some(FailureMessage(outcome));
      }
      isLoading := false;
    }

    /**
     * What is rendered: the button is disabled and reads "Processing..." while loading;
     * the banner shows a non-empty error; the panel shows the classified result.
     */
    function View(): (s: Screen)
      reads this
      ensures s.submitEnabled <==> !isLoading
      ensures s.submitText == if isLoading then "Processing..." else "Run Prediction"
      ensures s.errorBanner.Some? <==> error.Some? && error.value != ""
      ensures s.errorBanner.Some? ==> s.errorBanner == error
      ensures s.resultPanel.Some? <==> predictionResult.Some?
      ensures predictionResult.Some? ==> s.resultPanel == Some(Classify(predictionResult.value))
      ensures Valid() ==> !(s.errorBanner.Some? && s.resultPanel.Some?)
      ensures Valid() && isLoading ==> s.errorBanner == None && s.resultPanel == None
    {
      Screen(
        submitEnabled := !isLoading,
        submitText := if isLoading then "Processing..." else "Run Prediction",
        errorBanner := if error.Some? && error.value != "" then error else None,
        resultPanel := if predictionResult.Some? then Some(Classify(predictionResult.value)) else None)
    }
  }

  /**
   * A session: edit the form, submit, and settle with a non-ok status. The payload reflects
   * the edits and the screen ends with the request-failed banner and no result panel.
   */
  method FailedSubmission(parseFloat: string -> Option<real>) returns (page: PredictionPage, payload: PredictionRequest)
    ensures payload.vehicleName == "Truck-01" && payload.typeL && !payload.typeM
    ensures page.View() == Screen(true, "Run Prediction", Some(RequestFailed), None)
  {
    page := new PredictionPage();
    page.InputChange(VehicleName, "Truck-01");
    page.InputChange(MachineType, "L");
    payload := page.BeginPredict(parseFloat);
    page.Complete(NotOk);
  }
}
