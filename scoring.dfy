/** What the HTTP service (AI/service.py) and the Streamlit page
    (AI/app.py) share: the record handed to the data model, the reading of
    the data model's answer, the risk labels, and the blend of the data
    score with the idea score. */
module Scoring {

  import opened Wrappers

  /** The `startup_data` dictionary both front ends build. */
  datatype StartupData = StartupData(
    homepageUrl: string, categoryList: string, subcategory: string,
    fundingTotalUsd: string, fundingRounds: int,
    countryCode: string, stateCode: string, region: string, city: string)

  const PlaceholderHomepage: string := "http://example.com"

  /** The dictionary `predict_success_score` returns: the current version
      fills the two probability keys, an older one only `success_score`. */
  datatype ModelOutput = ModelOutput(
    probability: Option<real>, probabilityPercent: Option<real>, successScore: Option<real>)

  /** What `predict_success_score` returns for probability `q`. */
  function CurrentOutput(q: real): ModelOutput {
    ModelOutput(Some(q), Some(q * 100.0), None)
  }

  /** The probability and the 0..100 data score read off the answer. */
  datatype DataModelScore = DataModelScore(p: real, dataScore: real)

  /** The output is self-consistent: a percent, when given beside the
      probability, is that probability times 100. */
  predicate PercentAgrees(out: ModelOutput) {
    out.probability.Some? && out.probabilityPercent.Some? ==>
      out.probabilityPercent.value == out.probability.value * 100.0
  }

  /** The `if "success_probability" in result` branch and its legacy
      `success_score` alternative. Whenever the answer is self-consistent
      the data score is the probability on a 0..100 scale. */
  function ReadModelOutput(out: ModelOutput): (s: DataModelScore)
    ensures out.probability.Some? ==> s.p == out.probability.value
    ensures out.probability.Some? && out.probabilityPercent.Some? ==> s.dataScore == out.probabilityPercent.value
    ensures out.probability.None? ==> s.dataScore == out.successScore.GetOr(0.0)
    ensures PercentAgrees(out) ==> s.dataScore == 100.0 * s.p
  {
    match out.probability
    case Some(p) => DataModelScore(p, out.probabilityPercent.GetOr(p * 100.0))
    case None =>
      var data := out.successScore.GetOr(0.0);
      DataModelScore(data / 100.0, data)
  }

  /** The current data model's answer reads back as its probability. */
  lemma CurrentOutputReadsBack(q: real)
    ensures ReadModelOutput(CurrentOutput(q)) == DataModelScore(q, 100.0 * q)
  {
  }

  datatype RiskLevel = High | Moderate | Low

  /** The label shown for a band: its Norwegian name followed by " risiko". */
  function RiskLabel(r: RiskLevel): (text: string)
    ensures |text| > |RiskSuffix| && text[|text| - |RiskSuffix|..] == RiskSuffix
  {
    match r
    case High => "Høy risiko"
    case Moderate => "Moderat risiko"
    case Low => "Lav risiko"
  }

  const RiskSuffix: string := " risiko"

  /** Different bands have different labels, so the label identifies the band. */
  lemma RiskLabelsDiffer(a: RiskLevel, b: RiskLevel)
    requires a != b
    ensures RiskLabel(a) != RiskLabel(b)
  {
    assert RiskLabel(a)[0] != RiskLabel(b)[0];
  }

  const DataWeight: real := 0.65
  const IdeaWeight: real := 0.35

  /** `0.65 * data_score + 0.35 * idea_score`, unrounded: a weighted mean,
      so it lies between its two inputs. */
  function Blend(dataScore: real, ideaScore: real): (r: real)
    ensures dataScore <= ideaScore ==> dataScore <= r <= ideaScore
    ensures ideaScore <= dataScore ==> ideaScore <= r <= dataScore
    ensures dataScore == ideaScore ==> r == dataScore
  {
    DataWeight * dataScore + IdeaWeight * ideaScore
  }
}
