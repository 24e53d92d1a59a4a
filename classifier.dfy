/**
 * How the prediction page turns the service's JSON answer into what it shows
 * (frontend/src/app/Home/Page.tsx, lines 249-307): a verdict, the overall risk, one
 * card per reported failure mode or a single "None Detected" placeholder, and the
 * narrative report.
 */
module Classifier {
  import opened Wrappers
  import Coerce

  /** A JSON scalar, as far as the page compares one: `failure === 1` is true only of the number 1. */
  datatype Scalar = Number(n: real) | Boolean(b: bool) | Text(s: string)

  /**
   * The `prediction` object. An absent or null key is None; `failureTypes` lists the
   * entries of the `failure_types` object in the order `Object.entries` yields them. Keys
   * of a parsed JSON object are distinct (`DistinctKeys`); the type alone does not demand it.
   */
  datatype Prediction = Prediction(
    failure: Option<Scalar>,
    failureProbability: Option<real>,
    failureTypes: Option<seq<(string, real)>>)

  /** The response body: the `prediction` object and the `report` text, each possibly absent. */
  datatype Response = Response(prediction: Option<Prediction>, report: Option<string>)

  datatype Verdict = MaintenanceRequired | SystemHealthy

  /** A failure-mode card: the code (the card's key), its display name, shown as "<name> RISK", and its percentage. */
  datatype Card = Card(code: string, name: string, percent: real)

  /** The failure-mode area of the result panel. */
  datatype ModeDisplay = ModeCards(cards: seq<Card>) | NoneDetected

  datatype RenderModel = RenderModel(
    verdict: Verdict,
    overallRisk: real,
    modes: ModeDisplay,
    report: Option<string>)

  /** The labels of the four failure codes the page knows. */
  const KnownLabels: map<string, string> :=
    map["TWF" := "Tool Wear", "HDF" := "Heat Dissipation", "PWF" := "Power", "OSF" := "Overstrain"]

  /** `prediction?.failure`: absent when the response has no `prediction` object. */
  function FailureOf(resp: Response): (failure: Option<Scalar>)
    ensures resp.prediction.None? ==> failure.None?
    ensures resp.prediction.Some? ==> failure == resp.prediction.value.failure
  {
    if resp.prediction.Some? then resp.prediction.value.failure else None
  }

  /** `prediction?.failure_probability`: absent when the response has no `prediction` object. */
  function ProbabilityOf(resp: Response): (probability: Option<real>)
    ensures resp.prediction.None? ==> probability.None?
    ensures resp.prediction.Some? ==> probability == resp.prediction.value.failureProbability
  {
    if resp.prediction.Some? then resp.prediction.value.failureProbability else None
  }

  /** `prediction?.failure_types`: absent when the response has no `prediction` object. */
  function TypesOf(resp: Response): (types: Option<seq<(string, real)>>)
    ensures resp.prediction.None? ==> types.None?
    ensures resp.prediction.Some? ==> types == resp.prediction.value.failureTypes
  {
    if resp.prediction.Some? then resp.prediction.value.failureTypes else None
  }

  /**
   * `prediction?.failure === 1`: the one test every part of the panel branches on.
   * The comparison is strict, so only the number 1 passes.
   */
  predicate FailureFlagged(resp: Response)
    ensures FailureFlagged(resp) <==>
      resp.prediction.Some? && resp.prediction.value.failure == Some(Number(1.0))
    ensures FailureFlagged(resp) ==> !resp.prediction.value.failure.value.Boolean?
  {
    FailureOf(resp) == Some(Number(1.0))
  }

  /** The ternary chain that names a failure code; unknown codes are shown as they are. */
  function Label(code: string): (name: string)
    ensures code in KnownLabels ==> name == KnownLabels[code]
    ensures code !in KnownLabels ==> name == code
  {
    if code == "TWF" then "Tool Wear"
    else if code == "HDF" then "Heat Dissipation"
    else if code == "PWF" then "Power"
    else if code == "OSF" then "Overstrain"
    else code
  }

  /** A label differs from its code exactly when the code is one of the four known ones. */
  lemma LabelKeepsExactlyUnknownCodes(code: string)
    ensures Label(code) == code <==> code !in KnownLabels
  {
  }

  /** `Object.entries(failure_types).map(...)`: one card per entry, in entry order. */
  function Cards(entries: seq<(string, real)>): (cards: seq<Card>)
    ensures |cards| == |entries|
    ensures forall i :: 0 <= i < |cards| ==>
      cards[i].code == entries[i].0 && cards[i].name == Label(entries[i].0) &&
      cards[i].percent == entries[i].1 * 100.0
  {
    if entries == [] then []
    else [Card(entries[0].0, Label(entries[0].0), entries[0].1 * 100.0)] + Cards(entries[1..])
  }

  /** The result panel for a response. */
  function Classify(resp: Response): (view: RenderModel)
    ensures view.verdict == MaintenanceRequired <==> FailureFlagged(resp)
    ensures ProbabilityOf(resp).Some? ==> view.overallRisk == ProbabilityOf(resp).value * 100.0
    ensures ProbabilityOf(resp).None? ==> view.overallRisk == 0.0
    ensures view.modes.ModeCards? <==>
      FailureFlagged(resp) && TypesOf(resp).Some? && |TypesOf(resp).value| > 0
    ensures view.modes.ModeCards? ==>
      var entries := TypesOf(resp).value;
      |view.modes.cards| == |entries| &&
      forall i :: 0 <= i < |entries| ==>
        view.modes.cards[i] == Card(entries[i].0, Label(entries[i].0), entries[i].1 * 100.0)
    ensures view.report == resp.report
  {
    var flagged := FailureFlagged(resp);
    var types := TypesOf(resp);
    RenderModel(
      verdict := if flagged then MaintenanceRequired else SystemHealthy,
      overallRisk := Coerce.OrZero(ProbabilityOf(resp)) * 100.0,
      modes := if flagged && types.Some? && |types.value| > 0 then ModeCards(Cards(types.value)) else NoneDetected,
      report := resp.report)
  }

  /** How many cards the failure-mode area shows. */
  function ModeCardCount(modes: ModeDisplay): nat
  {
    match modes
    case ModeCards(cards) => |cards|
    case NoneDetected => 1
  }

  /**
   * The failure-mode area is never empty: it shows one card per reported mode when the
   * machine is flagged and modes are reported, and exactly one placeholder otherwise.
   */
  lemma ModeAreaNeverEmpty(resp: Response)
    ensures ModeCardCount(Classify(resp).modes) >= 1
    ensures Classify(resp).modes == NoneDetected <==>
      !FailureFlagged(resp) || TypesOf(resp) == None || TypesOf(resp) == Some([])
  {
  }

  /** The codes the cards carry, and the keys of the `failure_types` entries. */
  ghost function CardCodes(cards: seq<Card>): set<string>
  {
    set c | c in cards :: c.code
  }

  ghost function EntryKeys(entries: seq<(string, real)>): set<string>
  {
    set e | e in entries :: e.0
  }

  /** The cards show exactly the reported codes. */
  lemma CardCodesAreKeys(entries: seq<(string, real)>)
    ensures CardCodes(Cards(entries)) == EntryKeys(entries)
  {
    var cards := Cards(entries);
    forall k | k in CardCodes(cards)
      ensures k in EntryKeys(entries)
    {
      var c :| c in cards && c.code == k;
      var i :| 0 <= i < |cards| && cards[i] == c;
      assert entries[i] in entries;
    }
    forall k | k in EntryKeys(entries)
      ensures k in CardCodes(cards)
    {
      var e :| e in entries && e.0 == k;
      var i :| 0 <= i < |entries| && entries[i] == e;
      assert cards[i] in cards;
    }
  }

  /** The entries of a JSON object: no key occurs twice. */
  ghost predicate DistinctKeys(entries: seq<(string, real)>)
  {
    forall i, j :: 0 <= i < j < |entries| ==> entries[i].0 != entries[j].0
  }

  /** Distinct keys give distinct card codes, which the cards use as their React keys. */
  lemma DistinctKeysGiveDistinctCards(entries: seq<(string, real)>)
    requires DistinctKeys(entries)
    ensures forall i, j :: 0 <= i < j < |Cards(entries)| ==> Cards(entries)[i].code != Cards(entries)[j].code
  {
  }

  /** A healthy verdict ignores whatever `failure_types` holds. */
  lemma HealthyIgnoresFailureTypes(p: Prediction, report: Option<string>, types: Option<seq<(string, real)>>)
    requires p.failure != Some(Number(1.0))
    ensures Classify(Response(Some(p), report)) == Classify(Response(Some(p.(failureTypes := types)), report))
    ensures Classify(Response(Some(p), report)).modes == NoneDetected
  {
  }

  /** A probability in [0, 1] gives an overall risk in [0, 100] percent. */
  lemma RiskIsPercentage(resp: Response)
    requires ProbabilityOf(resp).Some? ==> 0.0 <= ProbabilityOf(resp).value <= 1.0
    ensures 0.0 <= Classify(resp).overallRisk <= 100.0
  {
  }

  /** The comparison is strict: a boolean `true` flag is classified as healthy. */
  lemma BooleanFlagIsHealthy(p: Prediction, report: Option<string>)
    requires p.failure == Some(Boolean(true))
    ensures Classify(Response(Some(p), report)).verdict == SystemHealthy
  {
  }

  /** A response without a `prediction` object: healthy, 0 risk, the placeholder. */
  lemma MissingPredictionIsHealthy(report: Option<string>)
    ensures Classify(Response(None, report)) == RenderModel(SystemHealthy, 0.0, NoneDetected, report)
  {
  }

  /** A flagged machine with two reported modes, a tool-wear one and a heat-dissipation one. */
  lemma FlaggedWithTwoModes()
    ensures Classify(Response(Some(Prediction(Some(Number(1.0)), Some(0.87), Some([("TWF", 0.6), ("HDF", 0.3)]))), Some("...")))
      == RenderModel(MaintenanceRequired, 87.0,
                     ModeCards([Card("TWF", "Tool Wear", 60.0), Card("HDF", "Heat Dissipation", 30.0)]),
                     Some("..."))
  {
  }

  /** A flagged machine with an empty `failure_types` object shows the placeholder, not zero cards. */
  lemma FlaggedWithoutModes()
    ensures Classify(Response(Some(Prediction(Some(Number(1.0)), Some(0.5), Some([]))), Some("...")))
      == RenderModel(MaintenanceRequired, 50.0, NoneDetected, Some("..."))
  {
  }
}
