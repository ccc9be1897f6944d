/**
 * The form-state mapping of the cancer calculator: thirteen named fields, all
 * empty at session start, each change event replacing the value under one name.
 */
module FormData {
  import opened Wrappers
  import opened Payload

  /** The names under which the form keeps its values. */
  const FieldNames: set<string> := {
    "patientId", "name", "address", "country", "state", "zone",
    "age", "breast", "quadrant", "tumorSize", "invasiveNodes", "history", "menopause"}

  /** The names the request is built from; the remaining six identify the patient. */
  const ClinicalFieldNames: set<string> := {
    "age", "breast", "quadrant", "tumorSize", "invasiveNodes", "history", "menopause"}

  /** One change event: the changed control's name and its new value. */
  datatype Change = Change(name: string, value: string)

  /** The state at session start: exactly the thirteen names, each mapped to "". */
  function InitialForm(): (m: map<string, string>)
    ensures m.Keys == FieldNames
    ensures forall k :: k in m ==> m[k] == ""
  {
    map k | k in FieldNames :: ""
  }

  /**
   * The state after the change events, applied in order to the initial state;
   * whatever the events, all thirteen names stay present.
   */
  function FormAfter(changes: seq<Change>): (m: map<string, string>)
    ensures FieldNames <= m.Keys
    decreases |changes|
  {
    if changes == [] then InitialForm()
    else
      var last := changes[|changes| - 1];
      FormAfter(changes[..|changes| - 1])[last.name := last.value]
  }

  /** The value of the last event that changed `k`, if any. */
  function LastWrite(changes: seq<Change>, k: string): Option<string>
    decreases |changes|
  {
    if changes == [] then None
    else if changes[|changes| - 1].name == k then Some(changes[|changes| - 1].value)
    else LastWrite(changes[..|changes| - 1], k)
  }

  /**
   * Last write wins: a name holds the value of the last change to it, or "" if it
   * was never changed; the names present are the thirteen plus any changed name.
   */
  lemma {:induction false} FormAfterValue(changes: seq<Change>, k: string)
    ensures k in FormAfter(changes) <==> k in FieldNames || LastWrite(changes, k).Some?
    ensures k in FormAfter(changes) ==>
      FormAfter(changes)[k] == if LastWrite(changes, k).Some? then LastWrite(changes, k).value else ""
  {
    if changes != [] {
      FormAfterValue(changes[..|changes| - 1], k);
    }
  }

  /** Changes under the thirteen names keep the key set exactly the thirteen names. */
  lemma {:induction false} FormAfterKeys(changes: seq<Change>)
    requires forall i :: 0 <= i < |changes| ==> changes[i].name in FieldNames
    ensures FormAfter(changes).Keys == FieldNames
  {
    if changes != [] {
      FormAfterKeys(changes[..|changes| - 1]);
    }
  }

  /** Reads the form values out of the state (`formData.age`, `formData.tumorSize`, ...). */
  function ToFormInput(m: map<string, string>): (f: FormInput)
    requires FieldNames <= m.Keys
    ensures f.age == m["age"] && f.breast == m["breast"] && f.quadrant == m["quadrant"]
    ensures f.tumorSize == m["tumorSize"] && f.invasiveNodes == m["invasiveNodes"]
    ensures f.history == m["history"] && f.menopause == m["menopause"]
  {
    FormInput(
      m["patientId"], m["name"], m["address"], m["country"], m["state"], m["zone"],
      m["age"], m["breast"], m["quadrant"], m["tumorSize"], m["invasiveNodes"],
      m["history"], m["menopause"])
  }

  /** Writes a form record back as the state map, one entry per control name. */
  function FromFormInput(f: FormInput): (m: map<string, string>)
    ensures m.Keys == FieldNames
  {
    map[
      "patientId" := f.patientId, "name" := f.name, "address" := f.address,
      "country" := f.country, "state" := f.state, "zone" := f.zone,
      "age" := f.age, "breast" := f.breast, "quadrant" := f.quadrant,
      "tumorSize" := f.tumorSize, "invasiveNodes" := f.invasiveNodes,
      "history" := f.history, "menopause" := f.menopause]
  }

  /**
   * The record and a map over exactly the thirteen names are inverse views of
   * the form state: reading the record loses nothing the map holds.
   */
  lemma FormInputRoundTrip(f: FormInput, m: map<string, string>)
    ensures ToFormInput(FromFormInput(f)) == f
    ensures m.Keys == FieldNames ==> FromFormInput(ToFormInput(m)) == m
  {
  }

  /** The request built from a fresh form is the all-unset request. */
  lemma InitialRequest()
    ensures Encode(ToFormInput(InitialForm())) == PredictionRequest("", 3, 3, 1, "", 1, 1)
  {
  }

  /**
   * A change under any name outside the seven clinical ones (an identity field,
   * or a name the form does not have) leaves the request unchanged.
   */
  lemma NonClinicalChangeKeepsRequest(m: map<string, string>, name: string, value: string)
    requires FieldNames <= m.Keys
    requires name !in ClinicalFieldNames
    ensures Encode(ToFormInput(m[name := value])) == Encode(ToFormInput(m))
  {
  }
}
