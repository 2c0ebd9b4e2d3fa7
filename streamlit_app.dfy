/** The submit branch of the Streamlit page (AI/app.py): the same pipeline
    as the HTTP service with its own normalisation, its own phrasing of the
    risk band, and no protection against a failing data model or VC
    evaluation (an exception ends the script run). */
module StreamlitApp {

  import opened Wrappers
  import opened PyStrings
  import opened OllamaExplainer
  import opened Scoring
  import Service

  /** The form's values: text inputs are strings ("" when left empty), the
      two number inputs are non-negative integers. */
  datatype Form = Form(
    market: string, techService: string, country: string, region: string, city: string,
    fundingTotal: nat, fundingRounds: nat, idea: string)

  /** The collaborators: the category list, the model's reply to each of
      the three prompts, Python's runtime for the VC reply, the data model
      and the markdown rendering of a VC result. */
  datatype AppEnv = AppEnv(
    categories: seq<string>,
    marketReply: LlmReply, techReply: LlmReply, vcReply: LlmReply,
    rt: PyRuntime,
    predict: StartupData -> Result<ModelOutput, string>,
    renderVc: VcResult -> string)

  /** `mapped or (raw or "Unknown")`: never empty. */
  function AppMapped(mapped: Option<string>, raw: string): (r: string)
    ensures r != ""
    ensures mapped.Some? && mapped.value != "" ==> r == mapped.value
    ensures (mapped.None? || mapped.value == "") && raw != "" ==> r == raw
  {
    if mapped.Some? && mapped.value != "" then mapped.value
    else if raw != "" then raw else "Unknown"
  }

  /** `x.strip() if x.strip() != "" else "Unknown"`: never empty. */
  function AppLocation(x: string): (r: string)
    ensures r != ""
    ensures IsBlank(x) ==> r == "Unknown"
    ensures !IsBlank(x) ==> r == Strip(x)
  {
    if Strip(x) != "" then Strip(x) else "Unknown"
  }

  /** The two front ends normalise a location the same way except on a
      non-empty, whitespace-only value, which the service turns into ""
      and the page into "Unknown". */
  lemma LocationRulesDifferOnlyOnWhitespace(x: string)
    ensures Service.ServiceLocation(Some(x)) != AppLocation(x) <==> x != "" && IsBlank(x)
    ensures x != "" && IsBlank(x) ==> Service.ServiceLocation(Some(x)) == "" && AppLocation(x) == "Unknown"
  {
    StripKeepsUnknown();
  }

  /** The page's phrasing of the risk band: "Høy" below 0.33, "Moderat"
      below 0.66, "Lav" otherwise. */
  function AppRiskLevel(p: real): (r: RiskLevel)
    ensures r == High <==> p < 0.33
    ensures r == Moderate <==> 0.33 <= p < 0.66
    ensures r == Low <==> p >= 0.66
  {
    if p < 0.33 then High else if p < 0.66 then Moderate else Low
  }

  /** The two phrasings give the same band (and label) for every
      probability. */
  lemma RiskBandsAgree(p: real)
    ensures AppRiskLevel(p) == Service.ServiceRiskLevel(p)
    ensures RiskLabel(AppRiskLevel(p)) == RiskLabel(Service.ServiceRiskLevel(p))
  {
    if p < 0.33 {
      assert AppRiskLevel(p) == High && Service.ServiceRiskLevel(p) == High;
    } else if p < 0.66 {
      assert AppRiskLevel(p) == Moderate && Service.ServiceRiskLevel(p) == Moderate;
    } else {
      assert AppRiskLevel(p) == Low && Service.ServiceRiskLevel(p) == Low;
    }
  }

  /** The record the page hands to the data model. */
  function AppStartupData(form: Form, mappedMarket: Option<string>, mappedTech: Option<string>): (d: StartupData)
    ensures d.categoryList == AppMapped(mappedMarket, form.market)
    ensures d.subcategory == AppMapped(mappedTech, form.techService)
    ensures d.fundingTotalUsd == NatToDecimal(form.fundingTotal) && DecimalValue(d.fundingTotalUsd) == form.fundingTotal
    ensures d.fundingRounds == form.fundingRounds
    ensures d.countryCode == AppLocation(form.country) && d.region == AppLocation(form.region)
    ensures d.city == AppLocation(form.city) && d.stateCode == ""
  {
    DecimalRoundTrip(form.fundingTotal);
    StartupData(
      PlaceholderHomepage,
      AppMapped(mappedMarket, form.market),
      AppMapped(mappedTech, form.techService),
      NatToDecimal(form.fundingTotal),
      form.fundingRounds,
      AppLocation(form.country), "", AppLocation(form.region), AppLocation(form.city))
  }

  /** What the page shows after a submit. */
  datatype Submission = Submission(
    startup: StartupData, dataScore: real, p: real, risk: RiskLevel,
    ideaScore: Option<real>, combinedScore: real, explanation: string)

  const NoPitchExplanation: string :=
    "Ingen VC-vurdering er gjort fordi det ikke ble skrevet inn noen idé/pitch. "
    + "Totalvurderingen er derfor kun basert på historiske data."

  /** The mapped categories and the record of a submitted form. */
  function StartupDataOf(form: Form, env: AppEnv): StartupData {
    var market := MappedCategory(form.market, env.categories, env.marketReply);
    var tech := MappedCategory(form.techService, env.categories, env.techReply);
    AppStartupData(form, market, tech)
  }

  /** Each category field of the record is a listed category, else the
      form's text, else "Unknown". */
  lemma FormCategoriesAreListedOrRaw(form: Form, env: AppEnv)
    ensures var d := StartupDataOf(form, env);
      && (d.categoryList in env.categories || d.categoryList == form.market || d.categoryList == "Unknown")
      && (d.subcategory in env.categories || d.subcategory == form.techService || d.subcategory == "Unknown")
  {
  }

  /** The VC step of the page: skipped (no result) for a blank pitch,
      `Err` when the evaluation raises. */
  function AppVc(idea: string, reply: LlmReply, rt: PyRuntime): (r: Result<Option<VcResult>, string>)
    ensures Strip(idea) == "" <==> r == Ok(None)
    ensures Strip(idea) != "" ==> (r.Ok? <==> VcEvaluate(idea, reply, rt).Ok?)
    ensures r.Ok? && r.value.Some? ==> r.value.value == VcEvaluate(idea, reply, rt).value && Consistent(r.value.value)
  {
    if idea != "" && Strip(idea) != "" then
      match VcEvaluate(idea, reply, rt)
      case Err(e) => Err(e)
      case Ok(v) => Ok(Some(v))
    else Ok(None)
  }

  /** `if submitted:`. `Err` is an exception from the data model or from
      the VC evaluation, neither of which is caught. A VC evaluation runs
      exactly when the pitch is non-blank; with its result the combined
      score is the 0.65/0.35 blend weighting the data score at 0.65 (and
      lies between the two scores), and without one it is the data score. */
  function Submit(form: Form, env: AppEnv): (r: Result<Submission, string>)
    ensures r.Ok? <==> env.predict(StartupDataOf(form, env)).Ok? && AppVc(form.idea, env.vcReply, env.rt).Ok?
    ensures r.Ok? ==>
      var s := ReadModelOutput(env.predict(StartupDataOf(form, env)).value);
      && r.value.startup == StartupDataOf(form, env)
      && r.value.p == s.p && r.value.dataScore == s.dataScore
      && r.value.risk == AppRiskLevel(s.p)
      && (r.value.ideaScore.Some? <==> Strip(form.idea) != "")
      && (r.value.ideaScore.None? ==>
            r.value.combinedScore == s.dataScore && r.value.explanation == NoPitchExplanation)
      && (r.value.ideaScore.Some? ==>
            r.value.combinedScore == Blend(s.dataScore, r.value.ideaScore.value))
    ensures r.Ok? && r.value.ideaScore.Some? ==>
      var v := AppVc(form.idea, env.vcReply, env.rt).value.value;
      && r.value.ideaScore.value == v.overallScore && v.overallScore == OverallOf(v)
      && r.value.explanation == env.renderVc(v)
  {
    var startup := StartupDataOf(form, env);
    match env.predict(startup)
    case Err(e) => Err(e)
    case Ok(out) =>
      var s := ReadModelOutput(out);
      var risk := AppRiskLevel(s.p);
      match AppVc(form.idea, env.vcReply, env.rt)
      case Err(e) => Err(e)
      case Ok(None) =>
        Ok(Submission(startup, s.dataScore, s.p, risk, None, s.dataScore, NoPitchExplanation))
      case Ok(Some(v)) =>
        Ok(Submission(startup, s.dataScore, s.p, risk, Some(v.overallScore),
                      Blend(s.dataScore, v.overallScore), env.renderVc(v)))
  }
}
