/** The `/analyze` endpoint (AI/service.py): category mapping of the free
    text fields, the `startup_data` record, the data model's score and risk
    band, the optional VC evaluation and the blend of the two. The data
    model, the language model's replies and `json.dumps` are collaborators
    in `ServiceEnv`. */
module Service {

  import opened Wrappers
  import opened PyStrings
  import opened OllamaExplainer
  import opened Scoring

  /** `IdeaRequest`; `title` and `content` have `min_length=1`. */
  datatype IdeaRequest = IdeaRequest(
    title: string, content: string,
    market: Option<string>, techService: Option<string>, teamDescription: Option<string>,
    country: Option<string>, region: Option<string>, city: Option<string>,
    fundingTotal: Option<real>, fundingRounds: Option<int>)

  /** The field constraints the framework checks before `analyze` runs. */
  predicate ValidRequest(req: IdeaRequest) {
    |req.title| >= 1 && |req.content| >= 1
  }

  /** `AnalysisResponse` */
  datatype AnalysisResponse = AnalysisResponse(
    score: real, strengths: seq<string>, weaknesses: seq<string>, summary: string,
    explanation: Option<string>, dataScore: Option<real>, ideaScore: Option<real>,
    combinedScore: Option<real>)

  /** The collaborators: the category list, the model's reply to each of
      the three prompts, Python's runtime for the VC reply, the data model,
      `str()` of a float and `json.dumps` of a VC result. */
  datatype ServiceEnv = ServiceEnv(
    categories: seq<string>,
    marketReply: LlmReply, techReply: LlmReply, vcReply: LlmReply,
    rt: PyRuntime,
    predict: StartupData -> Result<ModelOutput, string>,
    showFloat: real -> string,
    dumps: VcResult -> string)

  /** Python's `a or b` with an optional string. */
  function OrText(a: Option<string>, b: string): (r: string)
    ensures a.Some? && a.value != "" ==> r == a.value
    ensures a.None? || a.value == "" ==> r == b
  {
    if a.Some? && a.value != "" then a.value else b
  }

  /** `idea_text`: the content, followed by the stripped team description
      when there is a non-blank one. The content always comes first. */
  function IdeaText(req: IdeaRequest): (r: string)
    ensures IsPrefix(req.content, r)
    ensures req.teamDescription.None? || Strip(req.teamDescription.value) == "" ==> r == req.content
    ensures req.teamDescription.Some? && Strip(req.teamDescription.value) != "" ==>
      r == req.content + "\n\nTeam: " + Strip(req.teamDescription.value)
  {
    if req.teamDescription.Some? && req.teamDescription.value != "" && Strip(req.teamDescription.value) != "" then
      var r := req.content + "\n\nTeam: " + Strip(req.teamDescription.value);
      assert r[..|req.content|] == req.content;
      r
    else
      assert req.content[..|req.content|] == req.content;
      req.content
  }

  /** `(x or "Unknown").strip()`: a whitespace-only value becomes "". */
  function ServiceLocation(x: Option<string>): (r: string)
    ensures x.Some? && x.value != "" ==> r == Strip(x.value)
    ensures x.Some? && x.value != "" && IsBlank(x.value) ==> r == ""
  {
    Strip(OrText(x, Unknown))
  }

  /** A missing or empty location is sent as "Unknown". */
  lemma MissingLocationIsUnknown(x: Option<string>)
    requires x.None? || x.value == ""
    ensures ServiceLocation(x) == Unknown
  {
    StripKeepsUnknown();
  }

  /** `str(req.funding_total or 0)` */
  function FundingTotalText(x: Option<real>, showFloat: real -> string): (r: string)
    ensures x.None? || x.value == 0.0 ==> r == "0"
    ensures x.Some? && x.value != 0.0 ==> r == showFloat(x.value)
  {
    if x.None? || x.value == 0.0 then "0" else showFloat(x.value)
  }

  /** The record `analyze` hands to the data model. */
  function ServiceStartupData(req: IdeaRequest, mappedMarket: Option<string>, mappedTech: Option<string>,
                              showFloat: real -> string): (d: StartupData)
    ensures d.categoryList == OrText(mappedMarket, OrText(req.market, Unknown))
    ensures d.subcategory == OrText(mappedTech, OrText(req.techService, Unknown))
    ensures d.categoryList != "" && d.subcategory != ""
    ensures d.fundingTotalUsd ==
      if req.fundingTotal.None? || req.fundingTotal.value == 0.0 then "0" else showFloat(req.fundingTotal.value)
    ensures d.fundingRounds == (if req.fundingRounds.None? then 0 else req.fundingRounds.value)
    ensures d.countryCode == ServiceLocation(req.country) && d.region == ServiceLocation(req.region)
    ensures d.city == ServiceLocation(req.city) && d.stateCode == ""
  {
    var category := OrText(mappedMarket, OrText(req.market, Unknown));
    var subcategory := OrText(mappedTech, OrText(req.techService, Unknown));
    assert |Unknown| == 7;
    StartupData(
      PlaceholderHomepage, category, subcategory,
      FundingTotalText(req.fundingTotal, showFloat),
      if req.fundingRounds.None? then 0 else req.fundingRounds.value,
      ServiceLocation(req.country), "", ServiceLocation(req.region), ServiceLocation(req.city))
  }

  /** The risk band `analyze` computes (and leaves out of its response):
      "Lav" from 0.66, "Moderat" from 0.33, "Høy" below. */
  function ServiceRiskLevel(p: real): (r: RiskLevel)
    ensures r == Low <==> p >= 0.66
    ensures r == Moderate <==> 0.33 <= p < 0.66
    ensures r == High <==> p < 0.33
  {
    if p >= 0.66 then Low else if p >= 0.33 then Moderate else High
  }

  /** The mapped categories and the data record of a request. */
  function StartupDataFor(req: IdeaRequest, env: ServiceEnv): StartupData {
    var market := MappedCategory(OrText(req.market, ""), env.categories, env.marketReply);
    var tech := MappedCategory(OrText(req.techService, ""), env.categories, env.techReply);
    ServiceStartupData(req, market, tech, env.showFloat)
  }

  /** Each category field of the record is a listed category, else the raw
      field, else "Unknown". */
  lemma RecordCategoriesAreListedOrRaw(req: IdeaRequest, env: ServiceEnv)
    ensures var d := StartupDataFor(req, env);
      && (d.categoryList in env.categories || d.categoryList == OrText(req.market, Unknown))
      && (d.subcategory in env.categories || d.subcategory == OrText(req.techService, Unknown))
  {
  }

  /** The VC step: only for a non-blank idea text, and any exception it
      raises counts as no result. */
  function ServiceVc(ideaText: string, reply: LlmReply, rt: PyRuntime): (v: Option<VcResult>)
    ensures Strip(ideaText) == "" ==> v.None?
    ensures v.Some? ==> VcEvaluate(ideaText, reply, rt) == Ok(v.value) && Consistent(v.value)
    ensures Strip(ideaText) != "" ==> (v.Some? <==> VcEvaluate(ideaText, reply, rt).Ok?)
  {
    if ideaText != "" && Strip(ideaText) != "" then
      match VcEvaluate(ideaText, reply, rt)
      case Ok(v) => Some(v)
      case Err(_) => None
    else None
  }

  const NoVcSummary: string := "Ingen VC-vurdering (Ollama kjører ikke eller ingen idé oppgitt). Viser kun data-score."
  const NoVcStrength: string := "Historiske mønstre indikerer moderat/lav risiko basert på oppgitte tall."
  const NoVcWeakness: string := "Ingen idé-basert vurdering er gjort."

  const DataModelError: string := "Feil i data-modellen: "

  /** The response built from the data score and the VC result, if any. */
  function Response(data: real, vc: Option<VcResult>, dumps: VcResult -> string): (resp: AnalysisResponse)
    ensures resp.combinedScore == Some(resp.score) && resp.dataScore == Some(data)
    ensures vc.None? ==>
      && resp.score == data && resp.ideaScore.None? && resp.explanation.None? && resp.summary == NoVcSummary
      && resp.strengths == [NoVcStrength] && resp.weaknesses == [NoVcWeakness]
    ensures vc.Some? ==>
      && resp.ideaScore == Some(vc.value.overallScore) && resp.score == Blend(data, vc.value.overallScore)
      && resp.strengths == [vc.value.team.comment] && resp.weaknesses == [vc.value.product.comment]
      && resp.summary == vc.value.overallComment && resp.explanation == Some(dumps(vc.value))
  {
    match vc
    case Some(v) =>
      var combined := Blend(data, v.overallScore);
      AnalysisResponse(combined, [v.team.comment], [v.product.comment], v.overallComment,
                       Some(dumps(v)), Some(data), Some(v.overallScore), Some(combined))
    case None =>
      AnalysisResponse(data, [NoVcStrength], [NoVcWeakness], NoVcSummary, None, Some(data), None, Some(data))
  }

  /** `analyze`. `Err` is the HTTP 500 raised when the data model fails.
      Otherwise the score is the combined score; with a VC result it is the
      0.65/0.35 blend of the data score and the VC overall score (which
      `Blend` shows lies between them), the strengths and weaknesses are the team and
      product comments, and the idea score is the mean of the VC blocks;
      without one it is the data score alone. */
  function Analyze(req: IdeaRequest, env: ServiceEnv): (r: Result<AnalysisResponse, string>)
    requires ValidRequest(req)
    ensures r.Err? <==> env.predict(StartupDataFor(req, env)).Err?
    ensures r.Ok? ==>
      var data := ReadModelOutput(env.predict(StartupDataFor(req, env)).value).dataScore;
      && r.value.combinedScore == Some(r.value.score)
      && r.value.dataScore == Some(data)
      && (r.value.ideaScore.None? ==>
            r.value.score == data && r.value.explanation.None? && r.value.summary == NoVcSummary
            && r.value.strengths == [NoVcStrength] && r.value.weaknesses == [NoVcWeakness])
      && (r.value.ideaScore.Some? ==>
            && Strip(IdeaText(req)) != ""
            && r.value.score == Blend(data, r.value.ideaScore.value))
    ensures r.Ok? ==>
      match ServiceVc(IdeaText(req), env.vcReply, env.rt)
      case None => r.value.ideaScore.None?
      case Some(v) =>
        && r.value.ideaScore == Some(v.overallScore) && Consistent(v)
        && r.value.strengths == [v.team.comment] && r.value.weaknesses == [v.product.comment]
        && r.value.summary == v.overallComment
  {
    match env.predict(StartupDataFor(req, env))
    case Err(e) => Err(DataModelError + e)
    case Ok(out) =>
      var data := ReadModelOutput(out).dataScore;
      var vc := ServiceVc(IdeaText(req), env.vcReply, env.rt);
      Ok(Response(data, vc, env.dumps))
  }
}
