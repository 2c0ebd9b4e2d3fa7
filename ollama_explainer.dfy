/** The deterministic part of the language-model helpers
    (AI/ollama_explainer.py): the guards in front of each model call, and
    what is made of the model's reply afterwards. A call to the model is
    represented by its outcome, `LlmReply`; JSON parsing and Python's
    `float()`/`str()` conversions are the collaborators in `PyRuntime`. */
module OllamaExplainer {

  import opened Wrappers
  import opened PyStrings

  /** The outcome of one request to the model: any exception (connection,
      HTTP status, malformed outer JSON) with its text, or the `response`
      field of the reply ("" when the field is absent). */
  datatype LlmReply = Failed(error: string) | Replied(text: string)

  // ---------------------------------------------------------------------
  // score_idea_with_ollama
  // ---------------------------------------------------------------------

  const WeakIdeaScore: real := 10.0
  const NeutralIdeaScore: real := 50.0

  /** The guard of `score_idea_with_ollama` and `vc_evaluate_startup_with_ollama`:
      empty, blank, or fewer than five words. The first two tests are
      implied by the third, so a pitch is weak exactly when it has fewer
      than five words. */
  predicate IsWeakPitch(text: string)
    ensures IsWeakPitch(text) <==> WordCount(text) < 5
  {
    WordCountZeroIffBlank(text);
    text == "" || Strip(text) == "" || WordCount(text) < 5
  }

  /** `max(0, min(100, n))` for the natural number a digit run gives. */
  function Clamp(n: nat): (r: nat)
    ensures r <= 100 && (n <= 100 ==> r == n) && (n > 100 ==> r == 100)
  {
    if n > 100 then 100 else n
  }

  /** Python's default limit on the digits `int()` converts from a string
      (`sys.get_int_max_str_digits()`); a longer run raises ValueError. */
  const MaxIntDigits: nat := 4300

  /** `score_idea_with_ollama`: 10 for a weak pitch without asking the model;
      otherwise the first digit run of the reply clamped to 0..100, or 50
      when there is none, when `int()` refuses a run of more than 4300
      digits, or when the request failed. Always within 0..100. */
  function ScoreIdea(ideaText: string, reply: LlmReply): (score: real)
    ensures 0.0 <= score <= 100.0
    ensures IsWeakPitch(ideaText) ==> score == WeakIdeaScore
    ensures !IsWeakPitch(ideaText) && reply.Failed? ==> score == NeutralIdeaScore
    ensures !IsWeakPitch(ideaText) && reply.Replied? ==>
      match FirstDigitRun(Strip(reply.text))
      case None => score == NeutralIdeaScore
      case Some(digits) =>
        score == if |digits| > MaxIntDigits then NeutralIdeaScore else Clamp(DecimalValue(digits)) as real
  {
    if IsWeakPitch(ideaText) then WeakIdeaScore
    else
      match reply
      case Failed(_) => NeutralIdeaScore
      case Replied(text) =>
        match FirstDigitRun(Strip(text))
        case None => NeutralIdeaScore
        case Some(digits) =>
          if |digits| > MaxIntDigits then NeutralIdeaScore else Clamp(DecimalValue(digits)) as real
  }

  /** A minus sign is not read: the reply "-5" scores 5. */
  lemma MinusSignIsIgnored(ideaText: string)
    requires !IsWeakPitch(ideaText)
    ensures ScoreIdea(ideaText, Replied("-5")) == 5.0
  {
    var reply := Replied("-5");
    StripKeepsMinusFive();
    FirstRunOfMinusFive();
    assert FirstDigitRun(Strip(reply.text)) == Some("5");
  }

  lemma StripKeepsMinusFive()
    ensures Strip("-5") == "-5"
  {
    assert !IsSpace("-5"[0]) && !IsSpace("-5"[1]);
    assert StripLeft("-5") == "-5";
    assert StripRight("-5") == "-5";
  }

  lemma FirstRunOfMinusFive()
    ensures FirstDigitRun("-5") == Some("5")
  {
    var s := "-5";
    assert !IsDigit(s[0]) && IsDigit(s[1]);
    assert FirstDigitIndex(s[1..]) == 0;
    assert FirstDigitIndex(s) == 1;
    assert s[1..][1..] == [];
    assert LeadingDigits(s[1..]) == "5";
  }

  // ---------------------------------------------------------------------
  // map_text_to_category_with_llama
  // ---------------------------------------------------------------------

  /** `raw.strip().strip('"').strip("'")`: a part of the reply, empty for a
      blank reply, that neither starts nor ends with a single quote. */
  function CleanAnswer(raw: string): (r: string)
    ensures |r| <= |raw|
    ensures IsBlank(raw) ==> r == ""
    ensures r != "" ==> r[0] != '\'' && r[|r| - 1] != '\''
  {
    StripChar(StripChar(Strip(raw), '"'), '\'')
  }

  /** First pass: equal ignoring case. */
  predicate ExactHit(answer: string, category: string) {
    Lower(answer) == Lower(category)
  }

  /** Second pass: either one, lower-cased, occurs inside the other. */
  predicate PartialHit(answer: string, category: string) {
    Contains(Lower(category), Lower(answer)) || Contains(Lower(answer), Lower(category))
  }

  /** An exact hit is also a partial one, so the exact pass only decides
      which category wins, never whether one does. */
  lemma ExactHitIsPartialHit(answer: string, category: string)
    requires ExactHit(answer, category)
    ensures PartialHit(answer, category)
  {
    assert IsPrefix(Lower(answer), Lower(category)[0..]);
  }

  /** The index of the first exact hit, or `|categories|`. */
  function FirstExact(answer: string, categories: seq<string>): (k: nat)
    ensures k <= |categories|
    ensures forall j :: 0 <= j < k ==> !ExactHit(answer, categories[j])
    ensures k < |categories| ==> ExactHit(answer, categories[k])
  {
    if categories == [] || ExactHit(answer, categories[0]) then 0
    else 1 + FirstExact(answer, categories[1..])
  }

  /** The index of the first partial hit, or `|categories|`. */
  function FirstPartial(answer: string, categories: seq<string>): (k: nat)
    ensures k <= |categories|
    ensures forall j :: 0 <= j < k ==> !PartialHit(answer, categories[j])
    ensures k < |categories| ==> PartialHit(answer, categories[k])
  {
    if categories == [] || PartialHit(answer, categories[0]) then 0
    else 1 + FirstPartial(answer, categories[1..])
  }

  /** The two passes over the category list: the first exact hit, else
      the first partial hit, else None. */
  function MatchCategory(answer: string, categories: seq<string>): (r: Option<string>)
    ensures r.Some? ==> r.value in categories && PartialHit(answer, r.value)
  {
    var e := FirstExact(answer, categories);
    if e < |categories| then
      ExactHitIsPartialHit(answer, categories[e]);
      Some(categories[e])
    else
      var p := FirstPartial(answer, categories);
      if p < |categories| then Some(categories[p]) else None
  }

  /** `map_text_to_category_with_llama`: None for blank text, a failed
      request, or an answer that is empty once whitespace and quotes are
      stripped; otherwise the match of the cleaned answer. */
  function MappedCategory(text: string, categories: seq<string>, reply: LlmReply): (r: Option<string>)
    ensures text == "" || Strip(text) == "" ==> r == None
    ensures reply.Failed? ==> r == None
    ensures reply.Replied? && CleanAnswer(reply.text) == "" ==> r == None
    ensures r.Some? ==> r.value in categories
    ensures Strip(text) != "" && reply.Replied? && CleanAnswer(reply.text) != "" ==>
      r == MatchCategory(CleanAnswer(reply.text), categories)
  {
    if text == "" || Strip(text) == "" then None
    else
      match reply
      case Failed(_) => None
      case Replied(raw) =>
        var answer := CleanAnswer(raw);
        if answer == "" then None else MatchCategory(answer, categories)
  }

  /** The first exact hit wins, whatever partial hits come before it. */
  lemma ExactHitWins(answer: string, categories: seq<string>, k: nat)
    requires k < |categories| && ExactHit(answer, categories[k])
    requires forall j :: 0 <= j < k ==> !ExactHit(answer, categories[j])
    ensures MatchCategory(answer, categories) == Some(categories[k])
  {
    var e := FirstExact(answer, categories);
    if e < k {
    } else if k < e {
    }
  }

  /** With no exact hit anywhere, the first partial hit wins. */
  lemma FirstPartialHitWins(answer: string, categories: seq<string>, k: nat)
    requires forall j :: 0 <= j < |categories| ==> !ExactHit(answer, categories[j])
    requires k < |categories| && PartialHit(answer, categories[k])
    requires forall j :: 0 <= j < k ==> !PartialHit(answer, categories[j])
    ensures MatchCategory(answer, categories) == Some(categories[k])
  {
    var p := FirstPartial(answer, categories);
    if p < k {
    } else if k < p {
    }
  }

  /** The match is None exactly when no category is even a partial hit, and
      otherwise one of the listed categories, verbatim. */
  lemma MatchIsNoneOnlyWithoutHits(answer: string, categories: seq<string>)
    ensures MatchCategory(answer, categories).None? <==>
      forall j :: 0 <= j < |categories| ==> !PartialHit(answer, categories[j])
    ensures MatchCategory(answer, categories).Some? ==> MatchCategory(answer, categories).value in categories
  {
    if MatchCategory(answer, categories).None? {
      forall j | 0 <= j < |categories| ensures !PartialHit(answer, categories[j]) {
        assert !ExactHit(answer, categories[j]);
      }
    } else {
      var e := FirstExact(answer, categories);
      if e < |categories| {
        ExactHitIsPartialHit(answer, categories[e]);
      }
    }
  }

  /** The loops of `map_text_to_category_with_llama`, with their early
      returns. */
  method MapTextToCategory(text: string, categories: seq<string>, reply: LlmReply) returns (r: Option<string>)
    ensures r == MappedCategory(text, categories, reply)
  {
    if text == "" || Strip(text) == "" {
      return None;
    }
    if reply.Failed? {
      return None;
    }
    var answer := CleanAnswer(reply.text);
    if answer == "" {
      return None;
    }
    r := MatchAnswer(answer, categories);
  }

  /** The two passes of `map_text_to_category_with_llama` over the
      categories, each returning at its first hit. */
  method MatchAnswer(answer: string, categories: seq<string>) returns (r: Option<string>)
    ensures r == MatchCategory(answer, categories)
  {
    var i := 0;
    while i < |categories|
      invariant 0 <= i <= |categories|
      invariant forall j :: 0 <= j < i ==> !ExactHit(answer, categories[j])
    {
      if ExactHit(answer, categories[i]) {
        ExactHitWins(answer, categories, i);
        return Some(categories[i]);
      }
      i := i + 1;
    }
    i := 0;
    while i < |categories|
      invariant 0 <= i <= |categories|
      invariant forall j :: 0 <= j < |categories| ==> !ExactHit(answer, categories[j])
      invariant forall j :: 0 <= j < i ==> !PartialHit(answer, categories[j])
    {
      if PartialHit(answer, categories[i]) {
        FirstPartialHitWins(answer, categories, i);
        return Some(categories[i]);
      }
      i := i + 1;
    }
    MatchIsNoneOnlyWithoutHits(answer, categories);
    return None;
  }

  // ---------------------------------------------------------------------
  // vc_evaluate_startup_with_ollama
  // ---------------------------------------------------------------------

  /** A value `json.loads` can return; a JSON number without a fraction or
      exponent becomes a Python `int`, any other a `float`. */
  datatype Json =
    | JNull
    | JBool(b: bool)
    | JInt(i: int)
    | JFloat(x: real)
    | JStr(s: string)
    | JList(items: seq<Json>)
    | JObject(fields: map<string, Json>)

  /** Python's runtime pieces the parser relies on: `json.loads` (None when
      it raises), `float()` of a string and of an `int` (None when it raises
      ValueError or OverflowError), and `str()` of a number, list or dict. */
  datatype PyRuntime = PyRuntime(
    loads: string -> Option<Json>,
    floatOfString: string -> Option<real>,
    floatOfInt: int -> Option<real>,
    render: Json -> string)

  /** Python truthiness of a JSON value. */
  predicate Truthy(v: Json) {
    match v
    case JNull => false
    case JBool(b) => b
    case JInt(i) => i != 0
    case JFloat(x) => x != 0.0
    case JStr(s) => s != ""
    case JList(items) => items != []
    case JObject(fields) => fields != map[]
  }

  /** `float(v)`; `Err` is the TypeError, ValueError or OverflowError it
      raises. */
  function PyFloat(v: Json, rt: PyRuntime): (r: Result<real, string>)
    ensures r.Err? <==>
      v.JNull? || v.JList? || v.JObject?
      || (v.JStr? && rt.floatOfString(v.s).None?) || (v.JInt? && rt.floatOfInt(v.i).None?)
    ensures v.JFloat? ==> r == Ok(v.x)
    ensures v.JBool? ==> r == Ok(if v.b then 1.0 else 0.0)
  {
    match v
    case JFloat(x) => Ok(x)
    case JInt(i) => if rt.floatOfInt(i).Some? then Ok(rt.floatOfInt(i).value) else Err("OverflowError")
    case JBool(b) => Ok(if b then 1.0 else 0.0)
    case JStr(s) => if rt.floatOfString(s).Some? then Ok(rt.floatOfString(s).value) else Err("ValueError")
    case _ => Err("TypeError")
  }

  /** `str(v)` */
  function PyStr(v: Json, rt: PyRuntime): (r: string)
    ensures v.JStr? ==> r == v.s
    ensures v.JNull? ==> r == "None"
    ensures v.JBool? ==> r == if v.b then "True" else "False"
  {
    match v
    case JStr(s) => s
    case JNull => "None"
    case JBool(b) => if b then "True" else "False"
    case _ => rt.render(v)
  }

  datatype Block = Block(score: real, comment: string)

  datatype VcResult = VcResult(
    team: Block, market: Block, product: Block, potential: Block, valuation: Block,
    productMarketFit: Block, overallScore: real, overallComment: string)

  const DefaultBlockScore: real := 5.0
  const NoComment: string := "Ingen kommentar."

  /** `data.get(name, {}) or {}`: the stored value or an empty dict, and
      never a falsy value other than the empty dict. */
  function BlockOf(data: map<string, Json>, name: string): (r: Json)
    ensures r == JObject(map[]) || (name in data && r == data[name])
    ensures Truthy(r) || r == JObject(map[])
  {
    if name in data && Truthy(data[name]) then data[name] else JObject(map[])
  }

  /** `parse_block`: fails (the exception escapes) unless the block is a
      dict whose score converts; a missing score is 5.0, and an absent or
      empty comment becomes "Ingen kommentar.", so the comment is never
      empty. */
  function ParseBlock(data: map<string, Json>, name: string, rt: PyRuntime): (r: Result<Block, string>)
    ensures r.Ok? <==>
      (BlockOf(data, name).JObject? &&
       ("score" in BlockOf(data, name).fields ==> PyFloat(BlockOf(data, name).fields["score"], rt).Ok?))
    ensures r.Ok? ==> r.value.comment != ""
    ensures r.Ok? && "score" !in BlockOf(data, name).fields ==> r.value.score == DefaultBlockScore
    ensures r.Ok? && "comment" !in BlockOf(data, name).fields ==> r.value.comment == NoComment
    ensures r.Ok? && "score" in BlockOf(data, name).fields ==>
      r.value.score == PyFloat(BlockOf(data, name).fields["score"], rt).value
    ensures r.Ok? && "comment" in BlockOf(data, name).fields ==>
      var shown := PyStr(BlockOf(data, name).fields["comment"], rt);
      r.value.comment == if shown == "" then NoComment else shown
    ensures name !in data ==> r == Ok(Block(DefaultBlockScore, NoComment))
  {
    match BlockOf(data, name)
    case JObject(block) =>
      var score := if "score" in block then PyFloat(block["score"], rt) else Ok(DefaultBlockScore);
      var comment := if "comment" in block then PyStr(block["comment"], rt) else "";
      if score.Err? then Err(score.error)
      else Ok(Block(score.value, if comment == "" then NoComment else comment))
    case _ => Err("AttributeError")
  }

  /** `round(avg * 10, 2)` without the rounding: the mean of the six block
      scores on a 0..100 scale. */
  function OverallScore(team: real, market: real, product: real, potential: real,
                        valuation: real, fit: real): (r: real)
    ensures (team == market && market == product && product == potential && potential == valuation
             && valuation == fit) ==> r == 10.0 * team
  {
    (team + market + product + potential + valuation + fit) / 6.0 * 10.0
  }

  /** The overall score recomputed from the blocks of a result: on 0..100
      when every block score is on 0..10. */
  function OverallOf(v: VcResult): (r: real)
    ensures (&& 0.0 <= v.team.score <= 10.0 && 0.0 <= v.market.score <= 10.0
             && 0.0 <= v.product.score <= 10.0 && 0.0 <= v.potential.score <= 10.0
             && 0.0 <= v.valuation.score <= 10.0 && 0.0 <= v.productMarketFit.score <= 10.0)
            ==> 0.0 <= r <= 100.0
  {
    OverallScore(v.team.score, v.market.score, v.product.score, v.potential.score,
                 v.valuation.score, v.productMarketFit.score)
  }

  /** Six scores on the 0..10 scale give an overall score on 0..100. */
  lemma OverallScoreInRange(team: real, market: real, product: real, potential: real,
                            valuation: real, fit: real)
    requires 0.0 <= team <= 10.0 && 0.0 <= market <= 10.0 && 0.0 <= product <= 10.0
    requires 0.0 <= potential <= 10.0 && 0.0 <= valuation <= 10.0 && 0.0 <= fit <= 10.0
    ensures 0.0 <= OverallScore(team, market, product, potential, valuation, fit) <= 100.0
  {
  }

  const NoTeam: string := "Ingen reell pitch eller beskrivelse av team."
  const NoMarket: string := "Ingen beskrivelse av marked eller kunde."
  const NoProduct: string := "Ingen produkt- eller tjenestebeskrivelse."
  const NoPotential: string := "Ingen informasjon om potensial eller forretningsmodell."
  const NoValuation: string := "Ingen informasjon om finansiering, verdsettelse eller exit."
  const NoFit: string := "Ingen beskrivelse av hvordan produktet passer markedet."
  const NoPitchComment: string := "Svært svak vurdering – det er i praksis ingen pitch å vurdere."

  /** The answer to a pitch that is empty or shorter than five words. */
  function WeakPitchResult(): (v: VcResult)
    ensures Consistent(v) && v.overallScore == 10.0
  {
    VcResult(
      Block(1.0, NoTeam), Block(1.0, NoMarket), Block(1.0, NoProduct),
      Block(1.0, NoPotential), Block(1.0, NoValuation), Block(1.0, NoFit),
      10.0, NoPitchComment)
  }

  const EvaluationError: string := "Feil under vurdering."
  const FallbackComment: string := "Standardverdi pga teknisk feil i VC-vurderingen."

  /** The answer when the request, the JSON extraction or `json.loads` fails. */
  function FallbackResult(): (v: VcResult)
    ensures Consistent(v) && v.overallScore == 50.0
  {
    VcResult(
      Block(5.0, EvaluationError), Block(5.0, EvaluationError), Block(5.0, EvaluationError),
      Block(5.0, EvaluationError), Block(5.0, EvaluationError), Block(5.0, EvaluationError),
      50.0, FallbackComment)
  }

  const AverageComment: string := "Gjennomsnittlig vurdering basert på fem VC-kriterier pluss product–market fit."

  /** `raw[raw.find("{") : raw.rfind("}") + 1]`, or None when the guard
      `start == -1 or end == -1` raises: a part of the reply, present
      exactly when the reply has a "{". */
  function JsonSlice(raw: string): (r: Option<string>)
    ensures r.None? <==> '{' !in raw
    ensures r.Some? ==> |r.value| <= |raw|
  {
    var start := Find(raw, '{');
    var end := RFind(raw, '}') + 1;
    if start == -1 || end == -1 then None else Some(PySlice(raw, start, end))
  }

  /** The `end == -1` test never fires: only a missing "{" makes the guard
      raise. With a "{" but no "}" the slice is empty (and `json.loads`
      fails on it). */
  lemma JsonSliceGuard(raw: string)
    ensures RFind(raw, '}') + 1 >= 0
    ensures JsonSlice(raw).None? <==> '{' !in raw
    ensures '{' in raw && '}' !in raw ==> JsonSlice(raw) == Some("")
  {
    if '{' in raw && '}' !in raw {
      assert RFind(raw, '}') == -1;
      assert JsonSlice(raw) == Some(PySlice(raw, Find(raw, '{'), 0));
    }
  }

  /** With a "}" after the first "{", the slice runs from that "{" to the
      last "}". */
  lemma JsonSliceBraces(raw: string)
    requires 0 <= Find(raw, '{') < RFind(raw, '}')
    ensures var s := JsonSlice(raw).value;
      s == raw[Find(raw, '{')..RFind(raw, '}') + 1] && s[0] == '{' && s[|s| - 1] == '}'
  {
    BraceSlice(raw, Find(raw, '{'), RFind(raw, '}') + 1, JsonSlice(raw));
  }

  /** A slice from a "{" to a "}" inclusive starts and ends with them. */
  lemma BraceSlice(raw: string, start: int, end: int, js: Option<string>)
    requires 0 <= start < end - 1 < |raw| && raw[start] == '{' && raw[end - 1] == '}'
    requires js == Some(PySlice(raw, start, end))
    ensures js.value == raw[start..end] && js.value[0] == '{' && js.value[|js.value| - 1] == '}'
  {
  }

  /** What every result promises, the two canned ones included: its overall
      score is the mean of its six block scores, and no comment is empty. */
  predicate Consistent(v: VcResult) {
    && v.overallScore == OverallOf(v)
    && v.team.comment != "" && v.market.comment != "" && v.product.comment != ""
    && v.potential.comment != "" && v.valuation.comment != "" && v.productMarketFit.comment != ""
    && v.overallComment != ""
  }

  /** The six `parse_block` calls in order and the average. */
  function BuildResult(data: Json, rt: PyRuntime): (r: Result<VcResult, string>)
    ensures r.Ok? ==> Consistent(r.value)
    ensures !data.JObject? ==> r.Err?
  {
    match data
    case JObject(fields) =>
      var team := ParseBlock(fields, "team", rt);
      var market := ParseBlock(fields, "market", rt);
      var product := ParseBlock(fields, "product", rt);
      var potential := ParseBlock(fields, "potential", rt);
      var valuation := ParseBlock(fields, "valuation", rt);
      var fit := ParseBlock(fields, "product_market_fit", rt);
      if team.Err? then Err(team.error)
      else if market.Err? then Err(market.error)
      else if product.Err? then Err(product.error)
      else if potential.Err? then Err(potential.error)
      else if valuation.Err? then Err(valuation.error)
      else if fit.Err? then Err(fit.error)
      else
        var v := VcResult(team.value, market.value, product.value, potential.value,
                          valuation.value, fit.value, 0.0, AverageComment);
        Ok(v.(overallScore := OverallOf(v)))
    case _ => Err("AttributeError")
  }

  /** A dict gives a result exactly when all six blocks parse, and the
      result is made of those blocks, in order, with the fixed overall
      comment. */
  lemma BuildResultBlocks(fields: map<string, Json>, rt: PyRuntime)
    ensures var r := BuildResult(JObject(fields), rt);
      && (r.Ok? <==>
            ParseBlock(fields, "team", rt).Ok? && ParseBlock(fields, "market", rt).Ok?
            && ParseBlock(fields, "product", rt).Ok? && ParseBlock(fields, "potential", rt).Ok?
            && ParseBlock(fields, "valuation", rt).Ok? && ParseBlock(fields, "product_market_fit", rt).Ok?)
      && (r.Ok? ==>
            && r.value.team == ParseBlock(fields, "team", rt).value
            && r.value.market == ParseBlock(fields, "market", rt).value
            && r.value.product == ParseBlock(fields, "product", rt).value
            && r.value.potential == ParseBlock(fields, "potential", rt).value
            && r.value.valuation == ParseBlock(fields, "valuation", rt).value
            && r.value.productMarketFit == ParseBlock(fields, "product_market_fit", rt).value
            && r.value.overallComment == AverageComment)
  {
  }

  /** `vc_evaluate_startup_with_ollama`: `Err` is an exception raised by
      `parse_block`, which is outside the function's own `try`. */
  function VcEvaluate(ideaText: string, reply: LlmReply, rt: PyRuntime): (r: Result<VcResult, string>)
    ensures r.Ok? ==> Consistent(r.value)
    ensures IsWeakPitch(ideaText) ==> r == Ok(WeakPitchResult())
    ensures !IsWeakPitch(ideaText) && reply.Failed? ==> r == Ok(FallbackResult())
    ensures !IsWeakPitch(ideaText) && reply.Replied? ==> r == EvaluateReply(Strip(reply.text), rt)
  {
    if IsWeakPitch(ideaText) then Ok(WeakPitchResult())
    else
      match reply
      case Failed(_) => Ok(FallbackResult())
      case Replied(text) => EvaluateReply(Strip(text), rt)
  }

  /** The part of `vc_evaluate_startup_with_ollama` after a reply arrived:
      without a "{" in it, or when `json.loads` rejects the slice, the
      fallback result; otherwise the parsed blocks. */
  function EvaluateReply(raw: string, rt: PyRuntime): (r: Result<VcResult, string>)
    ensures r.Ok? ==> Consistent(r.value)
    ensures '{' !in raw ==> r == Ok(FallbackResult())
    ensures '{' in raw && rt.loads(JsonSlice(raw).value).None? ==> r == Ok(FallbackResult())
    ensures '{' in raw && rt.loads(JsonSlice(raw).value).Some? ==>
      r == BuildResult(rt.loads(JsonSlice(raw).value).value, rt)
  {
    JsonSliceGuard(raw);
    match JsonSlice(raw)
    case None => Ok(FallbackResult())
    case Some(js) =>
      match rt.loads(js)
      case None => Ok(FallbackResult())
      case Some(data) => BuildResult(data, rt)
  }

  /** What Python's `json.loads` guarantees on the strings it is given here:
      it raises on the empty string, and a text starting with "{" parses,
      if at all, to a dict. */
  ghost predicate ValidRuntime(rt: PyRuntime) {
    && rt.loads("") == None
    && forall s :: s != "" && s[0] == '{' && rt.loads(s).Some? ==> rt.loads(s).value.JObject?
  }

  /** A reply with a "{" but no "}" gives the fallback result. */
  lemma BraceWithoutCloseFallsBack(raw: string, rt: PyRuntime)
    requires ValidRuntime(rt)
    requires '{' in raw && '}' !in raw
    ensures EvaluateReply(raw, rt) == Ok(FallbackResult())
  {
    JsonSliceGuard(raw);
  }

  /** The only error a reply can produce is a `parse_block` failure on a
      parsed dict: the slice then starts with "{", so `json.loads` gives a
      dict, never a list or a scalar. */
  lemma ParsedReplyIsObject(raw: string, rt: PyRuntime)
    requires ValidRuntime(rt)
    ensures EvaluateReply(raw, rt).Err? ==>
      && '{' in raw
      && rt.loads(JsonSlice(raw).value).Some?
      && rt.loads(JsonSlice(raw).value).value.JObject?
  {
    JsonSliceGuard(raw);
    if '{' in raw && rt.loads(JsonSlice(raw).value).Some? {
      NonEmptySliceStartsWithBrace(raw);
    }
  }

  lemma NonEmptySliceStartsWithBrace(raw: string)
    requires '{' in raw && JsonSlice(raw).Some? && JsonSlice(raw).value != ""
    ensures JsonSlice(raw).value[0] == '{'
  {
    JsonSliceGuard(raw);
    var start, last := Find(raw, '{'), RFind(raw, '}');
    assert JsonSlice(raw).value == PySlice(raw, start, last + 1);
    assert raw[start] == '{' && raw[last] == '}';
    JsonSliceBraces(raw);
  }

  // ---------------------------------------------------------------------
  // explain_prediction
  // ---------------------------------------------------------------------

  /** `str(startup_data.get(key))` for the nine keys the context lists
      ("None" for an absent key). */
  datatype StartupFields = StartupFields(
    category: string, country: string, region: string, city: string,
    fundingTotal: string, fundingRounds: string, foundedAt: string,
    firstFundingAt: string, lastFundingAt: string)

  /** The data model's result as `explain_prediction` reads it. */
  datatype Prediction = Prediction(successProbability: real, successScore: real, riskLevel: string)

  const NoExplanation: string := "Klarte ikke å generere en forklaring fra modellen."

  const StartupHeading: string := "Strukturert informasjon om startupen:"
  const MarketLabel: string := "- Marked / hovedkategori: "
  const CountryLabel: string := "- Land: "
  const RegionLabel: string := "- Region: "
  const CityLabel: string := "- By: "
  const FundingTotalLabel: string := "- Total funding (USD): "
  const FundingRoundsLabel: string := "- Antall funding-runder: "
  const FoundedLabel: string := "- Stiftelsesdato: "
  const FirstFundingLabel: string := "- Dato for første funding: "
  const LastFundingLabel: string := "- Dato for siste funding: "
  const PredictionHeading: string := "Data-basert prediksjon (historiske mønstre):"
  const ProbabilityLabel: string := "- Sannsynlighet for suksess (data-modell): "
  const DataScoreLabel: string := "- Suksess-score (0–100, data-modell): "
  const RiskLevelLabel: string := "- Risikonivå (data-modell): "
  const IdeaScoreHeading: string := "Idé-basert vurdering (språkmodell):"
  const IdeaScoreLabel: string := "- Idé-score (0–100): "
  const CombinedHeading: string := "Kombinert vurdering:"
  const CombinedLabel: string := "- Total suksess-score (kombinert): "
  const PitchHeading: string := "Gründerens idé / pitch:"

  /** The fifteen lines every context starts with. `formatFixed(x, n)` is
      `f"{x:.nf}"`. */
  function DataLines(info: StartupFields, result: Prediction, formatFixed: (real, nat) -> string): (lines: seq<string>)
    ensures |lines| == 15
  {
    [ StartupHeading,
      MarketLabel + info.category,
      CountryLabel + info.country,
      RegionLabel + info.region,
      CityLabel + info.city,
      FundingTotalLabel + info.fundingTotal,
      FundingRoundsLabel + info.fundingRounds,
      FoundedLabel + info.foundedAt,
      FirstFundingLabel + info.firstFundingAt,
      LastFundingLabel + info.lastFundingAt,
      "",
      PredictionHeading,
      ProbabilityLabel + formatFixed(result.successProbability, 3),
      DataScoreLabel + formatFixed(result.successScore, 2),
      RiskLevelLabel + result.riskLevel ]
  }

  function IdeaScoreSection(shown: string): (lines: seq<string>)
    ensures |lines| == 3
  {
    ["", IdeaScoreHeading, IdeaScoreLabel + shown]
  }

  function CombinedSection(shown: string): (lines: seq<string>)
    ensures |lines| == 3
  {
    ["", CombinedHeading, CombinedLabel + shown]
  }

  function PitchSection(pitch: string): (lines: seq<string>)
    ensures |lines| == 3
  {
    ["", PitchHeading, pitch]
  }

  predicate HasPitch(ideaText: Option<string>) {
    ideaText.Some? && ideaText.value != "" && Strip(ideaText.value) != ""
  }

  /** The context `explain_prediction` assembles: the data lines, then each
      optional section whose input is given. */
  function ContextLines(info: StartupFields, result: Prediction, ideaText: Option<string>,
                        ideaScore: Option<real>, finalScore: Option<real>,
                        formatFixed: (real, nat) -> string): (lines: seq<string>)
    ensures |lines| >= 15 && lines[..15] == DataLines(info, result, formatFixed)
  {
    DataLines(info, result, formatFixed)
    + (if ideaScore.Some? then IdeaScoreSection(formatFixed(ideaScore.value, 2)) else [])
    + (if finalScore.Some? then CombinedSection(formatFixed(finalScore.value, 2)) else [])
    + (if HasPitch(ideaText) then PitchSection(Strip(ideaText.value)) else [])
  }

  /** Where each part of the context sits: the fifteen data lines first,
      then the idea-score section, the combined section and the pitch
      section in that order, three lines each, present exactly when their
      input is given. */
  lemma ContextLayout(info: StartupFields, result: Prediction, ideaText: Option<string>,
                      ideaScore: Option<real>, finalScore: Option<real>,
                      formatFixed: (real, nat) -> string)
    ensures var lines := ContextLines(info, result, ideaText, ideaScore, finalScore, formatFixed);
      && |lines| == 15 + (if ideaScore.Some? then 3 else 0) + (if finalScore.Some? then 3 else 0)
                       + (if HasPitch(ideaText) then 3 else 0)
      && lines[..15] == DataLines(info, result, formatFixed)
      && (ideaScore.Some? ==> lines[15..18] == IdeaScoreSection(formatFixed(ideaScore.value, 2)))
      && (finalScore.Some? ==>
            var at := if ideaScore.Some? then 18 else 15;
            lines[at..at + 3] == CombinedSection(formatFixed(finalScore.value, 2)))
      && (HasPitch(ideaText) ==> lines[|lines| - 3..] == PitchSection(Strip(ideaText.value)))
  {
    var d := DataLines(info, result, formatFixed);
    var i := if ideaScore.Some? then IdeaScoreSection(formatFixed(ideaScore.value, 2)) else [];
    var c := if finalScore.Some? then CombinedSection(formatFixed(finalScore.value, 2)) else [];
    var p := if HasPitch(ideaText) then PitchSection(Strip(ideaText.value)) else [];
    assert ContextLines(info, result, ideaText, ideaScore, finalScore, formatFixed) == d + i + c + p;
    assert |i| == (if ideaScore.Some? then 3 else 0) && |c| == (if finalScore.Some? then 3 else 0);
    SectionsLayout(d, i, c, p);
  }

  lemma SectionsLayout(d: seq<string>, i: seq<string>, c: seq<string>, p: seq<string>)
    ensures var lines := d + i + c + p;
      && lines[..|d|] == d
      && lines[|d|..|d| + |i|] == i
      && lines[|d| + |i|..|d| + |i| + |c|] == c
      && lines[|lines| - |p|..] == p
  {
    var lines := d + i + c + p;
    assert lines[..|d|] == d;
    assert lines[|d|..|d| + |i|] == i;
    assert lines[|d| + |i|..|d| + |i| + |c|] == c;
    assert lines[|lines| - |p|..] == p;
  }

  /** `explain_prediction`: builds the context line by line (see
      `ContextLayout` for where each section sits) and turns the model's
      reply into an explanation that is never empty. */
  method ExplainPrediction(info: StartupFields, result: Prediction, ideaText: Option<string>,
                           ideaScore: Option<real>, finalScore: Option<real>,
                           formatFixed: (real, nat) -> string, reply: LlmReply)
    returns (lines: seq<string>, explanation: string)
    ensures lines == ContextLines(info, result, ideaText, ideaScore, finalScore, formatFixed)
    ensures explanation != ""
    ensures reply.Replied? && Strip(reply.text) != "" ==> explanation == Strip(reply.text)
    ensures reply.Replied? && Strip(reply.text) == "" ==> explanation == NoExplanation
    ensures reply.Failed? ==> explanation == "(Feil ved kall til Ollama: " + reply.error + ")"
  {
    var d := DataLines(info, result, formatFixed);
    var i := if ideaScore.Some? then IdeaScoreSection(formatFixed(ideaScore.value, 2)) else [];
    var c := if finalScore.Some? then CombinedSection(formatFixed(finalScore.value, 2)) else [];
    var p := if HasPitch(ideaText) then PitchSection(Strip(ideaText.value)) else [];
    lines := d;
    if ideaScore.Some? {
      lines := lines + IdeaScoreSection(formatFixed(ideaScore.value, 2));
    }
    assert lines == d + i;
    if finalScore.Some? {
      lines := lines + CombinedSection(formatFixed(finalScore.value, 2));
    }
    assert lines == d + i + c;
    if HasPitch(ideaText) {
      lines := lines + PitchSection(Strip(ideaText.value));
    }
    assert lines == d + i + c + p;
    match reply {
      case Failed(e) =>
        explanation := "(Feil ved kall til Ollama: " + e + ")";
      case Replied(text) =>
        var t := Strip(text);
        explanation := if t != "" then t else NoExplanation;
    }
  }
}
