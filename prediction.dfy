/**
 * Interpretation of the prediction endpoint's answer, and the rule by which the
 * displayed result evolves: a parsed, well-shaped response replaces it, anything
 * else (network failure, unparsable body, a body lacking the probability pair)
 * leaves it as it was.
 */
module Prediction {
  import opened Wrappers

  /**
   * The parsed JSON body: `prediction` and `probability`, whose first element is
   * the pair [negative-class probability, positive-class probability].
   */
  datatype ResponseBody = ResponseBody(prediction: int, probability: seq<seq<real>>)

  /**
   * How one submission settles: the promise chain rejected before a body was
   * parsed (network error, non-JSON body, null body), or a body was parsed.
   */
  datatype Outcome = Rejected | Parsed(body: ResponseBody)

  /** The record shown under "Prediction Results". */
  datatype PredictionResult = PredictionResult(
    prediction: string, positiveProbability: real, negativeProbability: real)

  /** The displayed label: "Positive" exactly when the model predicted class 1. */
  function Label(p: int): (s: string)
    ensures s == "Positive" || s == "Negative"
    ensures s == "Positive" <==> p == 1
    ensures s == "Negative" <==> p != 1
  {
    if p == 1 then "Positive" else "Negative"
  }

  /**
   * The success continuation: reading `probability[0][1]` and `probability[0][0]`
   * throws when either is missing, and a throw there is handled by the same
   * catch as a network error, so such a body yields no result.
   */
  function Interpret(o: Outcome): (r: Option<PredictionResult>)
    ensures r.Some? <==> o.Parsed? && |o.body.probability| > 0 && |o.body.probability[0]| >= 2
    ensures r.Some? ==> r.value.prediction == Label(o.body.prediction)
    ensures r.Some? ==> r.value.negativeProbability == o.body.probability[0][0]
    ensures r.Some? ==> r.value.positiveProbability == o.body.probability[0][1]
  {
    match o
    case Rejected => None
    case Parsed(body) =>
      if |body.probability| > 0 && |body.probability[0]| >= 2 then
        var pair := body.probability[0];
        Some(PredictionResult(Label(body.prediction), pair[1], pair[0]))
      else
        None
  }

  /** True when the outcome assigns a new result. */
  predicate Succeeds(o: Outcome) {
    Interpret(o).Some?
  }

  /**
   * The displayed result after one outcome settles, given the one shown before:
   * a success shows its interpretation, a failure keeps what was shown.
   */
  function Settle(shown: Option<PredictionResult>, o: Outcome): (r: Option<PredictionResult>)
    ensures Succeeds(o) ==> r == Interpret(o) && r.Some?
    ensures !Succeeds(o) ==> r == shown
  {
    if Succeeds(o) then Interpret(o) else shown
  }

  /**
   * The displayed result after the outcomes settle in the given order (the order
   * in which the responses arrive), starting from `shown`. A shown result is
   * never cleared, and every result shown is the initial one or the
   * interpretation of one of the outcomes.
   */
  function ResultAfter(shown: Option<PredictionResult>, outcomes: seq<Outcome>): (r: Option<PredictionResult>)
    ensures shown.Some? ==> r.Some?
    ensures r == shown || exists i :: 0 <= i < |outcomes| && r == Interpret(outcomes[i])
    decreases |outcomes|
  {
    if outcomes == [] then shown
    else Settle(ResultAfter(shown, outcomes[..|outcomes| - 1]), outcomes[|outcomes| - 1])
  }

  /** Failures never touch the display: outcomes that all fail leave it as it was. */
  lemma FailuresKeepResult(shown: Option<PredictionResult>, outcomes: seq<Outcome>)
    requires forall i :: 0 <= i < |outcomes| ==> !Succeeds(outcomes[i])
    ensures ResultAfter(shown, outcomes) == shown
  {
  }

  /** Failures settling after a given point do not change what that point showed. */
  lemma {:induction false} TrailingFailuresKeepResult(shown: Option<PredictionResult>, outcomes: seq<Outcome>, k: nat)
    requires k <= |outcomes|
    requires forall i :: k <= i < |outcomes| ==> !Succeeds(outcomes[i])
    ensures ResultAfter(shown, outcomes) == ResultAfter(shown, outcomes[..k])
  {
    if k < |outcomes| {
      var prefix := outcomes[..|outcomes| - 1];
      assert prefix[..k] == outcomes[..k];
      TrailingFailuresKeepResult(shown, prefix, k);
    } else {
      assert outcomes[..k] == outcomes;
    }
  }

  /**
   * Last resolved wins: the display shows the result of the last successful
   * outcome, whatever failed after it and whatever came before it.
   */
  lemma {:induction false} LastSuccessWins(shown: Option<PredictionResult>, outcomes: seq<Outcome>, k: nat)
    requires k < |outcomes| && Succeeds(outcomes[k])
    requires forall i :: k < i < |outcomes| ==> !Succeeds(outcomes[i])
    ensures ResultAfter(shown, outcomes) == Interpret(outcomes[k])
  {
    TrailingFailuresKeepResult(shown, outcomes, k + 1);
    assert outcomes[..k + 1][..k] == outcomes[..k];
  }

  /** A result is shown exactly when the initial display had one or some outcome succeeded. */
  lemma {:induction false} ResultShownIff(shown: Option<PredictionResult>, outcomes: seq<Outcome>)
    ensures ResultAfter(shown, outcomes).Some? <==>
      shown.Some? || exists i :: 0 <= i < |outcomes| && Succeeds(outcomes[i])
  {
    if outcomes != [] {
      var prefix := outcomes[..|outcomes| - 1];
      ResultShownIff(shown, prefix);
      if exists i :: 0 <= i < |prefix| && Succeeds(prefix[i]) {
        var i :| 0 <= i < |prefix| && Succeeds(prefix[i]);
        assert Succeeds(outcomes[i]);
      }
      if exists i :: 0 <= i < |outcomes| && Succeeds(outcomes[i]) {
        var i :| 0 <= i < |outcomes| && Succeeds(outcomes[i]);
        if i < |prefix| { assert Succeeds(prefix[i]); }
      }
    }
  }
}
