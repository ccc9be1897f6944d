/**
 * The CancerForm component's state and its three handlers: a change event,
 * the submit that builds the request, and the settling of that request.
 */
module Component {
  import opened Wrappers
  import opened Payload
  import opened Prediction
  import opened FormData

  class CancerForm {
    /** The raw form values, keyed by control name. */
    var formData: map<string, string>
    /** The result on display; `None` until a submission succeeds. */
    var predictionResult: Option<PredictionResult>

    /** Every change event since the session started, in order. */
    ghost var changes: seq<Change>
    /** Every settled submission since the session started, in order of arrival. */
    ghost var outcomes: seq<Outcome>

    /**
     * The state is the replay of the session's events: the form is the initial
     * form with every change applied, and the display is what the settled
     * outcomes left.
     */
    ghost predicate Valid()
      reads this
    {
      && formData == FormAfter(changes)
      && predictionResult == ResultAfter(None, outcomes)
    }

    /** Session start: every field "", no result shown. */
    constructor ()
      ensures Valid()
      ensures formData == InitialForm() && predictionResult == None
      ensures changes == [] && outcomes == []
    {
      formData := InitialForm();
      predictionResult := None;
      changes := [];
      outcomes := [];
    }

    /** A change event on the control `name`: replaces that one entry, nothing else. */
    method HandleChange(name: string, value: string)
      requires Valid()
      modifies this
      ensures Valid()
      ensures formData == old(formData)[name := value]
      ensures name in FieldNames ==> formData.Keys == old(formData).Keys
      ensures predictionResult == old(predictionResult)
      ensures changes == old(changes) + [Change(name, value)] && outcomes == old(outcomes)
    {
      formData := formData[name := value];
      changes := changes + [Change(name, value)];
    }

    /** The submit: the request posted to the endpoint, built from the current form. */
    method HandleSubmit() returns (request: PredictionRequest)
      requires Valid()
      ensures request == Encode(ToFormInput(formData))
      ensures WireShape(request)
      ensures request.age == formData["age"] && request.quadrant == formData["quadrant"]
    {
      var f := ToFormInput(formData);
      request := Encode(f);
    }

    /**
     * The promise chain of a submission settles: on success the shown result is
     * replaced; on any failure (the catch branch) it is left untouched.
     */
    method ReceiveResponse(outcome: Outcome)
      requires Valid()
      modifies this
      ensures Valid()
      ensures Succeeds(outcome) ==> predictionResult == Interpret(outcome)
      ensures !Succeeds(outcome) ==> predictionResult == old(predictionResult)
      ensures formData == old(formData)
      ensures outcomes == old(outcomes) + [outcome] && changes == old(changes)
    {
      var r := Interpret(outcome);
      if r.Some? {
        predictionResult := r;
      }
      outcomes := outcomes + [outcome];
      assert outcomes[..|outcomes| - 1] == old(outcomes);
    }
  }

  /** A session in which the user fills in two fields (a dropdown and a text field) and submits twice. */
  method Session(body: ResponseBody)
    requires |body.probability| > 0 && |body.probability[0]| >= 2
  {
    var form := new CancerForm();
    form.HandleChange("tumorSize", "small");
    form.HandleChange("name", "A. Patient");
    var request := form.HandleSubmit();
    assert request.tumorSize == 1 && request.invasiveNodes == 3;
    form.ReceiveResponse(Parsed(body));
    var shown := form.predictionResult;
    assert shown.Some? && shown.value.prediction == Label(body.prediction);
    request := form.HandleSubmit();
    form.ReceiveResponse(Rejected);
    assert form.predictionResult == shown;
  }
}
