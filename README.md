# Cancer calculator form — a Dafny model

This project models the logic inside the `CancerForm` React component of the
cancer calculator: the form state that holds thirteen string fields, the
encoder that turns those fields into the seven-field request posted to the
prediction endpoint, the decoding of the endpoint's answer into the displayed
result, and the rule that only a successful submission replaces that result.

Modules:

- `Wrappers` (`wrappers.dfy`): `Option`, standing for the component's `null`.
- `Payload` (`payload.dfy`): `FormInput`, `PredictionRequest`, the lookup
  tables (`TumorSizeCode`, `InvasiveNodesCode`, `BreastCode`, `YesNoCode`),
  `Encode`, and lemmas about ordinal order, the unset placeholder, and which
  fields reach the request.
- `Prediction` (`prediction.dfy`): the parsed response body, `Label`,
  `Interpret` (the success continuation, including the throw when the
  probability pair is missing), and `ResultAfter`, the displayed result after
  a sequence of settled submissions, with last-success-wins lemmas.
- `FormData` (`form_data.dfy`): the field names, the initial state, `FormAfter`
  (the state after a sequence of change events), a reference definition
  `LastWrite`, and the last-write-wins lemmas connecting them.
- `Component` (`component.dfy`): class `CancerForm` with the two pieces of
  component state, `formData` (a `map<string, string>`) and
  `predictionResult` (an `Option`), and the handlers. Its invariant `Valid()`
  ties the state to the replay of the session's change events and settled
  submissions recorded in ghost fields.

The network is a parameter: `HandleSubmit` returns the request that would be
posted, and `ReceiveResponse` takes the way the request settled (`Rejected`,
or `Parsed` with the JSON body) in whatever order responses arrive.
`Component.Session` is an example client, not a model of a source function:
it fills in two fields, submits twice, and shows that a later failed
submission leaves the earlier result on display.

Behaviour reproduced as written, not corrected:

- An unset dropdown (`""`, the "Select" option) codes the same as its
  highest-coded option: tumor size 3 ("large"), invasive nodes 3 ("high"),
  breast 1 ("right"), history and menopause 1 ("yes", listed before "no").
  `UnsetCodesAsHighest` states it.
- The HTTP status is never checked: the request resolves on any status and
  its body is parsed. A non-2xx response therefore fails only when its body
  does not parse as JSON or lacks a numeric pair at `probability[0]`; a
  non-2xx response with a well-shaped body replaces the displayed result.
- A name outside the thirteen passed to the change handler adds a new key to
  the form state (object spread); the thirteen keys stay present either way.

## Model

| member | source | states |
|---|---|---|
| Payload.TumorSizeCode | src/components/CancerForm.js:33-38 | the code is in 1..3; it is 1 iff the input is "small", 2 iff "medium", 3 iff neither (so "large", "" and any other string) |
| Payload.InvasiveNodesCode | src/components/CancerForm.js:39-46 | the code is in 0..3; 0 iff "none", 1 iff "low", 2 iff "moderate", 3 iff none of those ("high", "" and any other string) |
| Payload.BreastCode | src/components/CancerForm.js:47 | the code is 0 or 1, and 0 iff the input is "left" |
| Payload.YesNoCode | src/components/CancerForm.js:49-50 | the history and menopause code is 0 or 1, and 0 iff the input is "no" |
| Payload.Encode | src/components/CancerForm.js:31-51 | total; every coded field is within the range the endpoint accepts, and age and quadrant are passed through verbatim |
| Payload.TumorSizeIsOrdinal | src/components/CancerForm.js:211-221 | the dropdown's options small, medium, large are coded 1, 2, 3 in display order, strictly increasing |
| Payload.InvasiveNodesIsOrdinal | src/components/CancerForm.js:224-236 | the options none, low, moderate, high are coded 0, 1, 2, 3 in display order, strictly increasing |
| Payload.UnsetCodesAsHighest | src/components/CancerForm.js:33-50 | the "Select" placeholder codes like the highest-coded option of each dropdown: large, high, right, yes |
| Payload.EncodeIgnoresIdentity | src/components/CancerForm.js:31-51 | two forms that agree on the seven clinical fields give the same request, whatever their six identity fields |
| Payload.EncodeInjectiveOnSelections | src/components/CancerForm.js:31-51 | when every dropdown holds an offered option, two forms give the same request iff they agree on the seven clinical fields |
| Prediction.Label | src/components/CancerForm.js:66 | the label is "Positive" iff the prediction is 1 and "Negative" iff it is anything else |
| Prediction.Interpret | src/components/CancerForm.js:61-78 | a result exists iff a body was parsed and its first probability entry has at least two elements; the result holds the label and the negative and positive probabilities from that pair |
| Prediction.Settle | src/components/CancerForm.js:61-83 | one settling: a successful outcome shows its interpretation, a failed one keeps the result shown before |
| Prediction.ResultAfter | src/components/CancerForm.js:61-83 | the result after a sequence of settlings: once a result is shown it is never cleared, and every shown result is the initial one or the interpretation of one of the outcomes |
| Prediction.FailuresKeepResult | src/components/CancerForm.js:79-83 | submissions that all fail leave the displayed result as it was |
| Prediction.TrailingFailuresKeepResult | src/components/CancerForm.js:74-83 | failures settling after a point do not change the result displayed at that point |
| Prediction.LastSuccessWins | src/components/CancerForm.js:74-83 | the displayed result is that of the last successful submission to settle, regardless of later failures |
| Prediction.ResultShownIff | src/components/CancerForm.js:20 | a result is displayed iff one was displayed initially or some submission succeeded; starting from null, iff some submission succeeded |
| FormData.InitialForm | src/components/CancerForm.js:4-18 | the initial state has exactly the thirteen keys, each mapped to "" |
| FormData.FormAfter | src/components/CancerForm.js:4-25 | the state after a sequence of change events always contains all thirteen names |
| FormData.FormAfterValue | src/components/CancerForm.js:22-25 | after any sequence of change events, each name holds the value of the last change to it, or "" if never changed; the keys are the thirteen plus any changed name |
| FormData.FormAfterKeys | src/components/CancerForm.js:4-25 | changes under the thirteen names keep the key set exactly the thirteen names |
| FormData.ToFormInput | src/components/CancerForm.js:32-50 | a projection: the seven clinical values of the form record are the map's entries under their own names |
| FormData.FromFormInput | src/components/CancerForm.js:4-18 | writing a form record back as the state map gives exactly the thirteen names |
| FormData.FormInputRoundTrip | src/components/CancerForm.js:4-50 | the record and a map over exactly the thirteen names are inverse views of the form state: record to map to record is the identity, and map to record to map is the identity |
| FormData.InitialRequest | src/components/CancerForm.js:4-18 | submitting a fresh form sends age "", quadrant "" and the all-unset codes 3, 3, 1, 1, 1 |
| FormData.NonClinicalChangeKeepsRequest | src/components/CancerForm.js:22-51 | a change under an identity field, or under a name the form does not have, does not change the request |
| Component.CancerForm.constructor | src/components/CancerForm.js:4-20 | the session starts with the initial form and no result, and the invariant holds |
| Component.CancerForm.HandleChange | src/components/CancerForm.js:22-25 | the one named entry is replaced, every other entry and the displayed result are unchanged, the key set is unchanged for one of the thirteen names, and the invariant is kept |
| Component.CancerForm.HandleSubmit | src/components/CancerForm.js:27-51 | the request is the encoding of the current form; it has the endpoint's shape and carries the form's age and quadrant; nothing changes |
| Component.CancerForm.ReceiveResponse | src/components/CancerForm.js:61-83 | on success the displayed result is replaced by the interpreted response; on failure it is untouched; the form is untouched; the invariant is kept |

## Left out

- The POST itself, its headers and JSON serialisation and parsing: network I/O. The response is a parameter of `ReceiveResponse`; a body that is not JSON, is `null`, or lacks `probability` is the `Rejected` outcome.
- `toFixed(2)` formatting of the probabilities: floating-point formatting. The result keeps the two probabilities as the reals read from the body.
- Prediction.Interpret: the body's `prediction` is an integer and the probabilities are reals; a JSON string or other non-number in those places (strict `=== 1` makes every non-number "Negative", and `toFixed` on a non-number throws) is not modelled.
- `console.log`, `console.error` and `alert`: side-effecting output.
- Interleaving of overlapping submissions: the model takes responses in order of arrival (`ReceiveResponse` may be called in any order after any number of `HandleSubmit` calls), and does not pair a response with the request that produced it.
- The JSX rendering, the React hook mechanics and `e.preventDefault()`; `src/App.js`, which only renders the component.
