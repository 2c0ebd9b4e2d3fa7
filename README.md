# Startup Success AI — a Dafny model of its core

The system lets founders register, log in and submit a startup idea. It
then scores the startup in two ways. A CatBoost model trained on
historical Crunchbase-like data gives a **data score**. A local language
model (Llama through Ollama) gives a venture-capital style **idea score**.
The two are blended into one combined score.

This project models the deterministic core of that system in Dafny 4.11:

- **Accounts** (`accounts.dfy`, from `dist/server.js`): the account and idea
  endpoints of the Fastify server. `Accounts.Server` is a class whose user
  table, e-mail index, idea table and autoincrement counters are fields.
  Its methods are the handlers, and each method's `ensures` states the
  full reply and the new tables.
  - The invariant `Valid()` says the e-mail index matches the user table,
    so addresses are unique.
  - Every idea belongs to an existing user.
  - Argon2 hashing and JWT signing and verification are functions the
    server is built with.
- **OllamaExplainer** (`ollama_explainer.dfy`, from `AI/ollama_explainer.py`):
  everything that happens around a call to the language model. A model
  call is represented by its outcome, `LlmReply`.
  - The weak-pitch guard.
  - Reading a number out of the idea-score reply.
  - The two-pass category matching.
  - The VC evaluation: JSON slicing, `parse_block`, the average, and the
    canned weak-pitch and fallback results.
  - The context that `explain_prediction` builds, and how it treats the
    reply.
- **TrainStartupModel** (`train_startup_model.dfy`, from
  `AI/train_startup_model.py`): the label rule of `build_target`,
  `_extract_main_category`, and `preprocess_features` in both train and
  predict mode. A pandas frame is modelled as a row count plus an ordered
  list of named, typed columns.
- **Scoring**, **Service** and **StreamlitApp** (`scoring.dfy`, `service.dfy`,
  `streamlit_app.dfy`, from `AI/service.py` and `AI/app.py`): the two front
  ends.
  - Each builds a `startup_data` record, reads the data model's answer,
    bands the risk, optionally runs the VC evaluation, and blends the
    scores.
  - The data model, the language model's replies and rendering are
    collaborators passed in as parameters.
- **PyStrings** and **Wrappers**: the Python and JavaScript string semantics
  the core relies on (`strip`, `split`, `lower`, `in`, `find`, `rfind`,
  slicing, `\d+`, `int`/`str` of naturals, `.length`), plus `Option` and
  `Result`.

The comment at `AI/app.py:169` says the blend gives 65 % weight to the VC
assessment. The code on the next line gives 0.65 to the data score. The
model follows the code.

## Model

| member | source | states |
|---|---|---|
| Accounts.BearerToken | dist/server.js:19-24 | A token is found exactly when the header starts with "Bearer ", and the header is then that prefix followed by the token. |
| Accounts.BearerTokenRoundTrip | dist/server.js:24 | Removing the prefix undoes adding it: the header "Bearer " + t yields t. |
| Accounts.Authenticate | dist/server.js:18-46 | Succeeds iff there is a bearer token and its verified payload is an object with both `id` and `email`, and then yields exactly those claims. Each failure is a 401 with its own message: missing bearer, throwing verify, wrong payload shape. |
| Accounts.IndexedEmailsAreUnique | dist/server.js:56-59 | A matching e-mail index implies that no two users share an address. |
| Accounts.InsertKeepsIndex | dist/server.js:60-63 | Adding a row under a fresh id and a free address keeps the index matching the table. |
| Accounts.UpdateKeepsIndex | dist/server.js:107-124 | Rewriting a row to an address that is free or already its own keeps the index matching. |
| Accounts.Server.RequireUser | dist/server.js:18-46 | The outcome is `Authenticate` of the request's header. On success the claims are stored on the request; otherwise the request is unchanged. |
| Accounts.Server.Register | dist/server.js:48-66 | Refuses, in this order and without changing any table: a missing field (400), a password shorter than 8 UTF-16 units (400), a registered address (409). Otherwise it adds exactly one row under the next id with the hashed password, indexes the address, and replies 201 with a token for `{id, email}`. Keeps `Valid()`. |
| Accounts.Server.Login | dist/server.js:67-82 | A missing field gives 400. The reply is 200 iff the address is registered and the password matches its hash. The 200 reply carries a token for the stored `{id, email}`; an unknown address and a wrong password get the same 401. Writes nothing. |
| Accounts.Server.GetMe | dist/server.js:83-96 | Authentication failures pass through. A token id without a row gives 404. Otherwise the reply is the row's id, e-mail and timestamps, never its hash. |
| Accounts.Server.UpdateMe | dist/server.js:97-126 | Refuses, in this order and without changing anything: nothing to update (400), an address held by another user (409), a short password (400). A token id without a row makes the update throw (500). On success only the supplied fields of the caller's row change, `updatedAt` is set, and the reply is 200. Keeps `Valid()`. |
| Accounts.Server.CreateIdea | dist/server.js:127-151 | The reply is 201 iff the caller is authenticated, gives a title and a content, and has a user row. Then exactly one idea, owned by the token's id and with no AI reply, is added under the next id. Every refusal leaves the tables unchanged. Keeps `Valid()`. |
| OllamaExplainer.IsWeakPitch | AI/ollama_explainer.py:149 | The three-part guard (empty, blank, fewer than five words) holds exactly when the text has fewer than five words. The same guard appears at AI/ollama_explainer.py:297. |
| OllamaExplainer.Clamp | AI/ollama_explainer.py:217 | The result is at most 100, equals n when n ≤ 100, and is 100 otherwise. |
| OllamaExplainer.ScoreIdea | AI/ollama_explainer.py:141-222 | The score is always within 0..100. It is 10 for a weak pitch. It is 50 when the request fails, when the stripped reply has no digit, or when its first digit run is longer than the 4300 digits `int()` accepts. Otherwise it is the value of the first digit run, clamped. |
| OllamaExplainer.MinusSignIsIgnored | AI/ollama_explainer.py:213-218 | The reply "-5" to a real pitch scores 5: the regular expression does not read a sign. |
| PyStrings.FirstDigitRun | AI/ollama_explainer.py:213-215 | `re.search(r"\d+")` finds no run iff the text has no digit. A run it finds is non-empty and all digits. |
| PyStrings.FirstDigitRunIsLeftmostRun | AI/ollama_explainer.py:213-215 | The run found is `s[i..j]` with no digit before `i` and no digit at `j`: the leftmost maximal digit run. |
| PyStrings.SignIsIgnored | AI/ollama_explainer.py:213 | A leading "-" does not change the digit run found. |
| PyStrings.WordCountZeroIffBlank | AI/ollama_explainer.py:149 | `len(s.split())` is 0 exactly when `s` is whitespace only. |
| PyStrings.WordCount | AI/ollama_explainer.py:149 | `len(s.split())` is at most the length of `s`. |
| PyStrings.WordCountCountsWordStarts | AI/ollama_explainer.py:149 | `len(s.split())` is the number of word starts: non-space characters at the start or after a space. |
| PyStrings.StripLeft | AI/ollama_explainer.py:210 | `lstrip()` removes a blank prefix, leaving a suffix that does not start with whitespace. |
| PyStrings.StripRight | AI/ollama_explainer.py:210 | `rstrip()` removes a blank suffix, leaving a prefix that does not end with whitespace. |
| PyStrings.Strip | AI/ollama_explainer.py:210 | `strip()` is empty exactly for a blank string. Otherwise it neither starts nor ends with whitespace. |
| PyStrings.StripKeepsUnknown | AI/service.py:77-80 | The default "Unknown" is unchanged by `strip()`. |
| PyStrings.Lower | AI/ollama_explainer.py:275 | `lower()` keeps the length and lowers each character. |
| PyStrings.Contains | AI/ollama_explainer.py:280 | `needle in hay` holds only when the needle is no longer than the haystack. |
| PyStrings.JsLength | dist/server.js:53 | JavaScript `.length` counts UTF-16 units: between one and two per character. |
| PyStrings.DecimalValue | AI/ollama_explainer.py:216 | `int()` of a run of k digits is below 10^k. |
| PyStrings.NatToDecimal | AI/app.py:125 | `str(n)` is a non-empty string of digits. |
| OllamaExplainer.ExactHitIsPartialHit | AI/ollama_explainer.py:273-281 | A case-insensitive exact hit is also a partial (substring) hit. |
| OllamaExplainer.CleanAnswer | AI/ollama_explainer.py:264-265 | The cleaned answer is no longer than the reply, is empty for a blank reply, and neither starts nor ends with a single quote. |
| PyStrings.StripChar | AI/ollama_explainer.py:265 | `s.strip(c)` is no longer than `s` and neither starts nor ends with `c`. |
| PyStrings.StripCharCutsRuns | AI/ollama_explainer.py:265 | `s.strip(c)` is the slice of `s` left after its leading and trailing runs of `c`: everything cut off is `c`. |
| OllamaExplainer.FirstExact | AI/ollama_explainer.py:274-276 | The index of the first exact hit: no earlier category hits, and the index is the list length when none does. |
| OllamaExplainer.FirstPartial | AI/ollama_explainer.py:279-281 | The index of the first partial hit, with the same first-hit facts. |
| OllamaExplainer.MatchCategory | AI/ollama_explainer.py:273-283 | Any match is a listed category that the answer hits at least partially. |
| OllamaExplainer.ExactHitWins | AI/ollama_explainer.py:273-276 | When category k is the first exact hit, the match is category k, whatever partial hits come before it. |
| OllamaExplainer.FirstPartialHitWins | AI/ollama_explainer.py:278-281 | With no exact hit anywhere, the first partial hit is the match. |
| OllamaExplainer.MatchIsNoneOnlyWithoutHits | AI/ollama_explainer.py:273-283 | The match is None iff no category is even a partial hit; otherwise it is a listed category, verbatim. |
| OllamaExplainer.MappedCategory | AI/ollama_explainer.py:224-287 | None for blank text, a failed request, or an answer that is empty after stripping whitespace and quotes. Otherwise it is the match of the cleaned answer, and any result is a member of the category list. |
| OllamaExplainer.MapTextToCategory | AI/ollama_explainer.py:224-287 | The method with the early returns computes `MappedCategory`. |
| OllamaExplainer.MatchAnswer | AI/ollama_explainer.py:273-283 | The two loops, each returning at its first hit, compute the first exact hit, else the first partial hit, else None. |
| OllamaExplainer.PyFloat | AI/ollama_explainer.py:413 | `float()` fails exactly on None, a list, a dict, an unparsable string or an int too large for a float; a float stays itself and a bool becomes 1.0 or 0.0. |
| OllamaExplainer.PyStr | AI/ollama_explainer.py:414 | `str()` keeps a string, gives "None" for None and "True"/"False" for a bool. |
| OllamaExplainer.BlockOf | AI/ollama_explainer.py:412 | The block is the stored value or an empty dict, and never a falsy value other than the empty dict. |
| OllamaExplainer.ParseBlock | AI/ollama_explainer.py:411-415 | Succeeds iff the block (`data.get(name, {}) or {}`) is a dict whose score, if present, converts with `float()`. A present score becomes that `float()` value and a missing one 5.0. A present comment becomes its `str()`, unless that is empty; an empty or missing comment becomes "Ingen kommentar.", so the comment is never empty. A missing block gives (5.0, "Ingen kommentar."). |
| OllamaExplainer.OverallScore | AI/ollama_explainer.py:424-433 | When all six block scores equal s, the overall score is 10·s. |
| OllamaExplainer.OverallOf | AI/ollama_explainer.py:424-433 | The overall score of a result is on 0..100 whenever its six block scores are on 0..10. |
| OllamaExplainer.OverallScoreInRange | AI/ollama_explainer.py:424-433 | Six block scores in 0..10 give an overall score in 0..100. |
| OllamaExplainer.WeakPitchResult | AI/ollama_explainer.py:297-310 | The weak-pitch answer: every block scores 1.0, the overall score is 10.0, which is the mean of the blocks, and no comment is empty. |
| OllamaExplainer.FallbackResult | AI/ollama_explainer.py:393-407 | The fallback answer: every block scores 5.0, the overall score is 50.0, which is the mean of the blocks, and no comment is empty. |
| OllamaExplainer.JsonSlice | AI/ollama_explainer.py:385-390 | There is a slice exactly when the reply has a "{", and it is no longer than the reply. |
| OllamaExplainer.JsonSliceGuard | AI/ollama_explainer.py:385-391 | `end` is never -1, so only a missing "{" makes the guard raise. A "{" without any "}" yields the empty slice. |
| OllamaExplainer.JsonSliceBraces | AI/ollama_explainer.py:385-390 | When a "}" follows the first "{", the slice runs from that "{" to the last "}" and starts and ends with them. |
| OllamaExplainer.BuildResult | AI/ollama_explainer.py:411-444 | Any result has the mean of its six block scores as its overall score and no empty comment. Data that is not a dict is an error. |
| OllamaExplainer.BuildResultBlocks | AI/ollama_explainer.py:417-444 | A dict gives a result iff all six `parse_block` calls succeed. The result is then made of those six blocks, in order, with the fixed overall comment. |
| OllamaExplainer.EvaluateReply | AI/ollama_explainer.py:379-444 | For a reply with no "{", or with a slice that `json.loads` rejects, the result is the fallback. Otherwise it is `BuildResult` of the parsed JSON, and every result is consistent. |
| OllamaExplainer.BraceWithoutCloseFallsBack | AI/ollama_explainer.py:385-407 | When `json.loads` rejects the empty string, a reply with a "{" but no "}" gives the fallback result. |
| OllamaExplainer.ParsedReplyIsObject | AI/ollama_explainer.py:385-412 | When `json.loads` maps text starting with "{" to a dict, an error from a reply can only come from `parse_block` on a parsed dict, never from a list or scalar. |
| OllamaExplainer.VcEvaluate | AI/ollama_explainer.py:290-444 | A weak pitch gives the weak-pitch result and a failed request the fallback. Otherwise the stripped reply is evaluated. Every success is consistent. An error is an exception escaping `parse_block`. |
| OllamaExplainer.ContextLayout | AI/ollama_explainer.py:58-92 | The context is 15 data lines. The idea-score, combined and pitch sections follow in that order, three lines each, each present exactly when its input is given. |
| OllamaExplainer.DataLines | AI/ollama_explainer.py:60-75 | The data part of the context has exactly fifteen lines. |
| OllamaExplainer.ContextLines | AI/ollama_explainer.py:58-92 | The context starts with the fifteen `DataLines`. |
| OllamaExplainer.ExplainPrediction | AI/ollama_explainer.py:47-138 | The method builds exactly `ContextLines`. The explanation is never empty: the stripped reply, or the fixed text for a blank reply, or the error text for a failed call. |
| PyStrings.Find | AI/ollama_explainer.py:385 | `find` returns -1 iff the character is absent, and otherwise its first index. |
| PyStrings.RFind | AI/ollama_explainer.py:386 | `rfind` returns -1 iff the character is absent, and otherwise its last index. |
| PyStrings.PySlice | AI/ollama_explainer.py:390 | Python slicing with non-negative bounds: the plain slice when bounds are in order, and "" when `end <= start`. |
| TrainStartupModel.AgeYears | AI/train_startup_model.py:94-95 | Age times 365.25 is the day difference. The age is 0 when either date is missing. |
| TrainStartupModel.Status | AI/train_startup_model.py:90-91 | A missing status is "unknown". A present one is lowered. |
| TrainStartupModel.RowTarget | AI/train_startup_model.py:97-112 | The decision table: acquired or ipo gives success; operating gives success at age ≥ min years, otherwise unknown; anything else gives failure. Unknown implies success 0. |
| TrainStartupModel.BuildTarget | AI/train_startup_model.py:77-112 | The two masked assignments and the unknown mask give each row exactly `RowTarget`, with one entry per row. |
| TrainStartupModel.ExtractMainCategory | AI/train_startup_model.py:119-125 | "Unknown" for a non-string or blank value. Otherwise the stripped text before the first "|", or the whole stripped text when there is no "|". The result never contains "|". |
| PyStrings.StripKeepsAbsent | AI/train_startup_model.py:124 | Stripping adds no character, so the first segment of a split on "\|" has no "\|". |
| TrainStartupModel.IndexOf | AI/train_startup_model.py:221 | `list.index`: the first position of the value, and the list length iff the value is absent. |
| TrainStartupModel.SetColumn | AI/train_startup_model.py:158-187 | `df[name] = c` keeps the column order when the name exists and appends the name otherwise. |
| TrainStartupModel.SetColumnFacts | AI/train_startup_model.py:158-187 | Assigning a column keeps the frame well formed. The column of that name becomes c, and every other column is unchanged. |
| TrainStartupModel.Select | AI/train_startup_model.py:203 | `df[names]` has exactly those columns, in that order. |
| TrainStartupModel.SelectWellFormed | AI/train_startup_model.py:203 | Selecting distinct names of a well-formed frame gives a well-formed frame. |
| TrainStartupModel.ToNumeric | AI/train_startup_model.py:163-165 | `to_numeric(errors="coerce")` leaves no string. Numbers and missing values stay; a string becomes its parsed number, or missing when it does not parse. |
| TrainStartupModel.DashToMissing | AI/train_startup_model.py:160-161 | "-" and "" become missing, and every other value stays. |
| TrainStartupModel.FillNum | AI/train_startup_model.py:212 | `fillna(v)` turns a missing value into v and keeps every other value. |
| TrainStartupModel.LogCell | AI/train_startup_model.py:168-170 | `log1p` of the value clipped at 0. A missing or negative value gives `log1p(0)`. |
| TrainStartupModel.AsCategoryIdempotent | AI/train_startup_model.py:244-245 | Converting a categorical column again is a no-op, so the predict-mode category loop does not change step 5's strings. |
| TrainStartupModel.AsCategoryCell | AI/train_startup_model.py:209 | `.fillna("Unknown").astype(str)`: a string stays itself, a missing value becomes "Unknown", and a number becomes its `str()`. |
| TrainStartupModel.AsNumberCell | AI/train_startup_model.py:249 | `to_numeric(errors="coerce").fillna(0.0)`: a number stays itself, a parseable string becomes its number, and a missing value or an unparseable string becomes 0. |
| TrainStartupModel.AsCategoryColumn | AI/train_startup_model.py:209 | An object column of the same name and length whose every cell is `AsCategoryCell` of the old one. |
| TrainStartupModel.AsNumberColumn | AI/train_startup_model.py:249 | A numeric column of the same name and length whose every cell is `AsNumberCell` of the old one. |
| TrainStartupModel.FillColumn | AI/train_startup_model.py:212 | Same name, dtype and length, with every cell `FillNum` of the old one at 0.0. |
| TrainStartupModel.TypedColumn | AI/train_startup_model.py:207-212 | Step 5 keeps each column's name, dtype and length. An object column gets `AsCategoryCell` of each cell and a numeric one `FillNum` at 0.0. A well-typed column has no missing value afterwards. |
| TrainStartupModel.TypedFrame | AI/train_startup_model.py:205-212 | Step 5 keeps the row count and the column names, and types every column with `TypedColumn`. |
| TrainStartupModel.TypedFrameFacts | AI/train_startup_model.py:205-212 | Step 5 keeps a frame well formed and leaves no missing cell in any column. |
| TrainStartupModel.TypedFrameKeepsValues | AI/train_startup_model.py:205-212 | Step 5 keeps every string, and every number in a numeric column. A missing value becomes "Unknown" or 0.0 by dtype. |
| TrainStartupModel.FundingStep | AI/train_startup_model.py:156-173 | `funding_total_usd` becomes `to_numeric` with "-" and "" treated as missing, or 0.0 when absent. `funding_total_log` is `log1p` of the clipped number, or 0.0 when the source column is absent. No other column changes. |
| TrainStartupModel.RoundsStep | AI/train_startup_model.py:175-181 | `funding_rounds` is `to_numeric(...).fillna(0)` of the old column, or 0.0 everywhere when it is absent, so it is numeric in every row. No other column changes. |
| TrainStartupModel.RoundsStepValues | AI/train_startup_model.py:175-179 | A number of rounds stays, a parseable string becomes its number, and a missing or non-numeric value becomes 0. |
| TrainStartupModel.CategoryStep | AI/train_startup_model.py:183-187 | `main_category` is `_extract_main_category` of `category_list` row by row, or "Unknown" everywhere when that column is absent. No other column changes. |
| TrainStartupModel.Engineer | AI/train_startup_model.py:156-187 | Steps 1 to 3 keep a frame well formed and always produce the four columns `funding_total_usd`, `funding_total_log`, `funding_rounds` and `main_category`. |
| TrainStartupModel.KeepPresent | AI/train_startup_model.py:201 | The kept names are exactly the candidates that are present. With distinct candidates they are distinct and appear in candidate order. |
| TrainStartupModel.Prepared | AI/train_startup_model.py:154-212 | Steps 1 to 5 give a well-formed frame whose columns are the candidates present after steps 1 to 3. The four engineered columns are always among them, and no cell is missing. |
| TrainStartupModel.ObjectNames | AI/train_startup_model.py:220 | `select_dtypes(include=["object"])` lists exactly the names of the object columns. |
| TrainStartupModel.TrainMetadata | AI/train_startup_model.py:214-227 | `feature_cols` is the column order. A column is in `cat_features` iff it has object dtype. Each index points at its categorical column. |
| TrainStartupModel.ApplyDtypes | AI/train_startup_model.py:205-212 | The object-column loop followed by the numeric fill computes `TypedFrame`. |
| TrainStartupModel.PredictColumn | AI/train_startup_model.py:232-249 | A predict-mode column has the metadata's dtype and no missing value. A prepared column keeps its length, and each cell becomes `AsCategoryCell` or `AsNumberCell` of the prepared cell. A feature that preparation did not produce is all "Unknown" or all 0.0. |
| TrainStartupModel.BaseColumn | AI/train_startup_model.py:232-238 | The prepared column when it exists. Otherwise a column of that name, one cell per row, all "Unknown" for a categorical feature and all 0.0 otherwise. |
| TrainStartupModel.AddMissingColumns | AI/train_startup_model.py:232-238 | After the first loop every feature column exists. Existing columns are untouched, and added ones are "Unknown" for a categorical feature and 0.0 otherwise. |
| TrainStartupModel.CategoricalPass | AI/train_startup_model.py:244-245 | Succeeds iff every categorical feature is a feature column (otherwise KeyError), and converts exactly those columns. |
| TrainStartupModel.NumericPass | AI/train_startup_model.py:247-249 | Converts every non-categorical column to numbers, giving `PredictColumn` for each name. |
| TrainStartupModel.AlignToMetadata | AI/train_startup_model.py:228-249 | Succeeds iff the categorical features are listed. The result then has exactly the metadata's columns, in its order, each being `PredictColumn`. |
| TrainStartupModel.AddColumn | AI/train_startup_model.py:236-238 | Adding a column under a fresh name keeps the names distinct and every existing column unchanged. |
| TrainStartupModel.PreprocessFeatures | AI/train_startup_model.py:128-251 | Train mode returns `Prepared` and the metadata read off it. Predict mode is an error iff the metadata is missing (ValueError) or names an unlisted categorical feature (KeyError). Otherwise it returns the metadata's columns, in its order. |
| Scoring.ReadModelOutput | AI/service.py:89-94 | With a probability, p is that probability, and the data score is the percent when one is given. Without a probability, the data score is the legacy `success_score`, or 0. Whenever the percent agrees with the probability, the data score is 100·p. |
| Scoring.CurrentOutputReadsBack | AI/train_startup_model.py:405-408 | The answer `predict_success_score` returns for probability q reads back as (q, 100·q). |
| Scoring.Blend | AI/service.py:113 | `0.65·data + 0.35·idea` lies between its two inputs and equals them when they are equal. |
| Scoring.RiskLabel | AI/app.py:149-155 | Each band's label ends in " risiko". |
| Scoring.RiskLabelsDiffer | AI/app.py:149-155 | Different bands have different labels. |
| Service.OrText | AI/service.py:73-74 | Python's `a or b`: a when it is a non-empty string, b otherwise. |
| Service.IdeaText | AI/service.py:67-69 | The content always comes first. "\n\nTeam: " and the stripped team description are appended exactly when that description is non-blank. |
| Service.ServiceLocation | AI/service.py:77-80 | `(x or "Unknown").strip()`: a non-empty value is stripped, so a whitespace-only value becomes "". |
| Service.MissingLocationIsUnknown | AI/service.py:77-80 | A missing or empty location is sent as "Unknown". |
| Service.FundingTotalText | AI/service.py:75 | `str(req.funding_total or 0)`: "0" for a missing or zero total, `str()` of the total otherwise. |
| Service.ServiceStartupData | AI/service.py:71-81 | The category and subcategory are the mapped value, else the raw value, else "Unknown", so never empty. `funding_total_usd` is "0" for a missing or zero total and `str()` of the total otherwise. Rounds default to 0. Each location is `ServiceLocation` of its field, and `state_code` is "". |
| Service.ServiceRiskLevel | AI/service.py:96-100 | Low iff p ≥ 0.66, Moderate iff 0.33 ≤ p < 0.66, High iff p < 0.33. |
| Service.RecordCategoriesAreListedOrRaw | AI/service.py:64-81 | Each category field of the record is a listed category, else the raw field, else "Unknown". |
| Service.ServiceVc | AI/service.py:102-109 | A blank idea text gives no VC result. For any other text there is a result iff `VcEvaluate` succeeds; the result is its consistent value, and an exception counts as no result. |
| Service.Response | AI/service.py:111-135 | With a VC result: the blended score, the team and product comments, the overall comment and the JSON dump. Without one: the data score and the fixed texts. `combined_score` is always the score. |
| Service.Analyze | AI/service.py:62-135 | An error (HTTP 500) iff the data model fails. Otherwise the data score and combined score are reported. A VC result, present only for a non-blank idea text, gives the blended score, the mean of its blocks as idea score, and non-empty team and product comments as strengths and weaknesses. Without one the score is the data score. |
| StreamlitApp.AppMapped | AI/app.py:106-116 | `mapped or (raw or "Unknown")`: never empty, and the mapped value when there is one. |
| StreamlitApp.AppLocation | AI/app.py:128-131 | The stripped value, or "Unknown" when it is blank: never empty. |
| StreamlitApp.LocationRulesDifferOnlyOnWhitespace | AI/app.py:128-131 | The page and the service normalise a location differently exactly on a non-empty whitespace-only value, which the service turns into "" and the page into "Unknown". |
| StreamlitApp.AppRiskLevel | AI/app.py:149-155 | High iff p < 0.33, Moderate iff 0.33 ≤ p < 0.66, Low iff p ≥ 0.66. |
| StreamlitApp.RiskBandsAgree | AI/app.py:149-155 | The page's and the service's banding give the same band and label for every p. |
| StreamlitApp.AppStartupData | AI/app.py:122-132 | The category fields are `AppMapped` of the mapped and raw values. `funding_total_usd` is `str()` of the number and reads back to it with `int()`. `funding_rounds` is the form value. Each location is `AppLocation` of the form field, and `state_code` is "". |
| StreamlitApp.FormCategoriesAreListedOrRaw | AI/app.py:106-132 | Each category field of the record is a listed category, else the form's text, else "Unknown". |
| PyStrings.DecimalRoundTrip | AI/app.py:126 | `int(str(n)) == n` for a natural number. |
| StreamlitApp.AppVc | AI/app.py:160-164 | No VC step iff the pitch is blank. Otherwise it succeeds iff `VcEvaluate` does, then with its consistent result. |
| StreamlitApp.Submit | AI/app.py:101-202 | Succeeds iff the data model and the VC step both succeed; neither exception is caught. An idea score exists iff the pitch is non-blank, and it is the mean of the VC blocks. The combined score is then the blend and the explanation the rendering of the VC result. Otherwise the combined score is the data score, with the fixed explanation. |

## Left out

- HTTP, Ollama requests, file and model loading, logging and printing are left out. Each model call becomes an `LlmReply`, and the data model becomes a `predict` parameter.
- The prompt texts are not modelled. They are only sent to the model.
- CatBoost training and prediction, `train_model`, `load_trained_model_and_metadata` and the evaluation code are left out. They are numeric library calls outside the core.
- `_parse_dates` is not modelled. Dates arrive as day numbers, or None when absent or unparseable. A frame without `last_funding_at` or `founded_at` raises KeyError in `build_target`; the model does not cover that case.
- `TrainStartupModel.Status`: a non-string status value is not modelled (pandas `.str.lower()` turns it into NaN).
- `np.log1p`, `pd.to_numeric` on strings, `str()` of a float, `json.loads`, `float()` of a string, `str()` of a JSON value, `f"{x:.nf}"` and `json.dumps` are parameters (`Conversions`, `PyRuntime`, `formatFixed`, `showFloat`, `dumps`, `renderVc`).
- Floating point is modelled with `real`, without rounding.
- `OllamaExplainer.BuildResult`: the overall score is the unrounded mean. `round(avg * 10, 2)` is not modelled.
- `Scoring.Blend`: the unrounded weighted mean. `round(..., 2)` is not modelled.
- `PyStrings.Lower`: ASCII only. Python's full Unicode case mapping is not modelled.
- `PyStrings.FirstDigitRun`: `\d` matches ASCII digits only. Python also matches other Unicode decimal digits.
- `OllamaExplainer.ScoreIdea`: the 4300-digit limit of `int()` is Python's default. A limit changed with `sys.set_int_max_str_digits`, or a Python release without the limit, is not modelled.
- Argon2 salting is not modelled. `hash` is a deterministic function, and `argon2.verify` is a separate predicate.
- JWT expiry and the clock are not modelled. `verify` decides the outcome, and `now` is a parameter.
- Database concurrency and connection failures are left out. Prisma calls are map operations. Email uniqueness is kept by the index the model maintains.
- Request bodies whose fields are not strings are not modelled. Absent fields are None.
- `TrainStartupModel.PreprocessFeatures`: assumes the input frame has distinct column names, and in predict mode that `metadata.feature_cols` has no duplicates; pandas allows both.
- The unreachable second `parse_block` block after the `return` in `vc_evaluate_startup_with_ollama` (`AI/ollama_explainer.py:446-478`) is left out. So is `_build_context` (`AI/ollama_explainer.py:18-44`), which no core function calls.
- The optional `startup_data` context lines of `score_idea_with_ollama` are only prompt text, so they are not modelled.
- The Streamlit widgets, `st.info` messages and result display are left out. The form's values are the input `Form`.
- `Service.Analyze`: the risk band it computes is not part of its response. It is modelled on its own as `Service.ServiceRiskLevel`.
