/**
 * The submission encoder of the cancer calculator form: the thirteen raw string
 * fields the user fills in, and the seven-field record that is posted to the
 * prediction endpoint.
 */
module Payload {

  /** The raw form values, one per control; every value is a string ("" when unset). */
  datatype FormInput = FormInput(
    patientId: string, name: string, address: string,
    country: string, state: string, zone: string,
    age: string, breast: string, quadrant: string,
    tumorSize: string, invasiveNodes: string,
    history: string, menopause: string)

  /** The body of the prediction request. */
  datatype PredictionRequest = PredictionRequest(
    age: string, tumorSize: int, invasiveNodes: int, breast: int,
    quadrant: string, history: int, menopause: int)

  /** The non-placeholder options of the tumor size dropdown, in display order. */
  const TumorSizeOptions: seq<string> := ["small", "medium", "large"]
  /** The non-placeholder options of the invasive nodes dropdown, in display order. */
  const InvasiveNodesOptions: seq<string> := ["none", "low", "moderate", "high"]
  /** The non-placeholder options of the breast dropdown, in display order. */
  const BreastOptions: seq<string> := ["left", "right"]
  /** The non-placeholder options of the history and menopause dropdowns, in display order. */
  const YesNoOptions: seq<string> := ["yes", "no"]
  /** The value of every dropdown's "Select" placeholder. */
  const Unset: string := ""

  /** Tumor size: small is 1, medium is 2, any other string (large, unset, junk) is 3. */
  function TumorSizeCode(s: string): (c: int)
    ensures 1 <= c <= 3
    ensures c == 1 <==> s == "small"
    ensures c == 2 <==> s == "medium"
    ensures c == 3 <==> s != "small" && s != "medium"
  {
    if s == "small" then 1 else if s == "medium" then 2 else 3
  }

  /** Invasive nodes: none 0, low 1, moderate 2, any other string (high, unset, junk) 3. */
  function InvasiveNodesCode(s: string): (c: int)
    ensures 0 <= c <= 3
    ensures c == 0 <==> s == "none"
    ensures c == 1 <==> s == "low"
    ensures c == 2 <==> s == "moderate"
    ensures c == 3 <==> s != "none" && s != "low" && s != "moderate"
  {
    if s == "none" then 0 else if s == "low" then 1 else if s == "moderate" then 2 else 3
  }

  /** Breast side: left is 0, anything else (right, unset) is 1. */
  function BreastCode(s: string): (c: int)
    ensures c == 0 || c == 1
    ensures c == 0 <==> s == "left"
  {
    if s == "left" then 0 else 1
  }

  /** History and menopause flags: "no" is 0, anything else (yes, unset) is 1. */
  function YesNoCode(s: string): (c: int)
    ensures c == 0 || c == 1
    ensures c == 0 <==> s == "no"
  {
    if s == "no" then 0 else 1
  }

  /** The shape the endpoint accepts: each coded field within its range. */
  predicate WireShape(r: PredictionRequest) {
    && 1 <= r.tumorSize <= 3
    && 0 <= r.invasiveNodes <= 3
    && 0 <= r.breast <= 1
    && 0 <= r.history <= 1
    && 0 <= r.menopause <= 1
  }

  /** True when two inputs agree on the seven fields the request is built from. */
  predicate SameClinicalFields(f: FormInput, g: FormInput) {
    && f.age == g.age && f.breast == g.breast && f.quadrant == g.quadrant
    && f.tumorSize == g.tumorSize && f.invasiveNodes == g.invasiveNodes
    && f.history == g.history && f.menopause == g.menopause
  }

  /** True when every dropdown of the form holds one of its offered, non-placeholder options. */
  predicate Selected(f: FormInput) {
    && f.breast in BreastOptions
    && f.tumorSize in TumorSizeOptions
    && f.invasiveNodes in InvasiveNodesOptions
    && f.history in YesNoOptions
    && f.menopause in YesNoOptions
  }

  /**
   * Builds the request: age and quadrant verbatim, the five categorical fields
   * coded, the six identity fields dropped. Total: it never fails.
   */
  function Encode(f: FormInput): (r: PredictionRequest)
    ensures WireShape(r)
    ensures r.age == f.age && r.quadrant == f.quadrant
  {
    PredictionRequest(
      f.age,
      TumorSizeCode(f.tumorSize),
      InvasiveNodesCode(f.invasiveNodes),
      BreastCode(f.breast),
      f.quadrant,
      YesNoCode(f.history),
      YesNoCode(f.menopause))
  }

  /** The i-th option of a dropdown is coded as base + i: codes follow the display order. */
  predicate Ordinal(code: string -> int, options: seq<string>, base: int) {
    forall i :: 0 <= i < |options| ==> code(options[i]) == base + i
  }

  /** small < medium < large is coded 1 < 2 < 3. */
  lemma TumorSizeIsOrdinal()
    ensures Ordinal(TumorSizeCode, TumorSizeOptions, 1)
    ensures forall i, j :: 0 <= i < j < |TumorSizeOptions| ==>
      TumorSizeCode(TumorSizeOptions[i]) < TumorSizeCode(TumorSizeOptions[j])
  {
  }

  /** none < low < moderate < high is coded 0 < 1 < 2 < 3. */
  lemma InvasiveNodesIsOrdinal()
    ensures Ordinal(InvasiveNodesCode, InvasiveNodesOptions, 0)
    ensures forall i, j :: 0 <= i < j < |InvasiveNodesOptions| ==>
      InvasiveNodesCode(InvasiveNodesOptions[i]) < InvasiveNodesCode(InvasiveNodesOptions[j])
  {
  }

  /**
   * An unset dropdown is indistinguishable, in the request, from its
   * highest-coded option: the "Select" placeholder of tumor size and invasive
   * nodes codes like "large" and "high" (their last options), that of breast
   * like "right", and those of history and menopause like "yes" (their first
   * options, since "yes" is listed before "no").
   */
  lemma UnsetCodesAsHighest()
    ensures TumorSizeCode(Unset) == TumorSizeCode("large") == 3
    ensures InvasiveNodesCode(Unset) == InvasiveNodesCode("high") == 3
    ensures BreastCode(Unset) == BreastCode("right") == 1
    ensures YesNoCode(Unset) == YesNoCode("yes") == 1
  {
  }

  /** The identity fields never reach the request: only the seven clinical fields matter. */
  lemma EncodeIgnoresIdentity(f: FormInput, g: FormInput)
    requires SameClinicalFields(f, g)
    ensures Encode(f) == Encode(g)
  {
  }

  /**
   * Conversely, on a form whose dropdowns all hold offered options, the request
   * determines the seven clinical fields: different selections give different requests.
   */
  lemma EncodeInjectiveOnSelections(f: FormInput, g: FormInput)
    requires Selected(f) && Selected(g)
    ensures Encode(f) == Encode(g) <==> SameClinicalFields(f, g)
  {
  }
}
