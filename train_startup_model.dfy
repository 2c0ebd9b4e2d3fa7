/** Label and feature preparation for the success model
    (AI/train_startup_model.py): the per-row success/unknown decision of
    `build_target`, `_extract_main_category`, and the column pipeline of
    `preprocess_features` in its train and predict modes. A pandas frame is
    a row count and an ordered list of named, typed columns. */
module TrainStartupModel {

  import opened Wrappers
  import opened PyStrings

  // ---------------------------------------------------------------------
  // build_target
  // ---------------------------------------------------------------------

  const MinOperatingYears: int := 3
  const DaysPerYear: real := 365.25

  /** The three inputs of one row: `status` (None when absent or NaN) and
      the two dates as day numbers (None when absent or unparseable). */
  datatype TargetRow = TargetRow(status: Option<string>, foundedAt: Option<int>, lastFundingAt: Option<int>)

  /** Years from founding to last funding; 0 when either date is missing. */
  function AgeYears(row: TargetRow): (age: real)
    ensures row.foundedAt.None? || row.lastFundingAt.None? ==> age == 0.0
    ensures row.foundedAt.Some? && row.lastFundingAt.Some? ==>
      age * DaysPerYear == (row.lastFundingAt.value - row.foundedAt.value) as real
  {
    if row.foundedAt.Some? && row.lastFundingAt.Some? then
      (row.lastFundingAt.value - row.foundedAt.value) as real / DaysPerYear
    else 0.0
  }

  /** `status.fillna("unknown").str.lower()` */
  function Status(row: TargetRow): (s: string)
    ensures row.status.None? ==> s == "unknown"
    ensures row.status.Some? ==> s == Lower(row.status.value)
  {
    Lower(row.status.GetOr("unknown"))
  }

  predicate IsExit(status: string) {
    status == "acquired" || status == "ipo"
  }

  predicate MatureOperating(row: TargetRow, minYears: int) {
    Status(row) == "operating" && AgeYears(row) >= minYears as real
  }

  predicate UnknownOutcome(row: TargetRow, minYears: int) {
    Status(row) == "operating" && AgeYears(row) < minYears as real
  }

  datatype Target = Target(success: int, unknown: bool)

  /** The value the masks of `build_target` leave for one row, as the
      decision table it amounts to. */
  function RowTarget(row: TargetRow, minYears: int): (t: Target)
    ensures IsExit(Status(row)) ==> t == Target(1, false)
    ensures Status(row) == "operating" ==>
      t == (if AgeYears(row) >= minYears as real then Target(1, false) else Target(0, true))
    ensures !IsExit(Status(row)) && Status(row) != "operating" ==> t == Target(0, false)
    ensures t.unknown ==> t.success == 0
    ensures t.success == 0 || t.success == 1
  {
    Target(if IsExit(Status(row)) || MatureOperating(row, minYears) then 1 else 0,
           UnknownOutcome(row, minYears))
  }

  /** `build_target`: starts from all zeros and applies the two masked
      assignments in turn, then computes the unknown mask. */
  method BuildTarget(rows: seq<TargetRow>, minYears: int) returns (success: seq<int>, unknown: seq<bool>)
    ensures |success| == |rows| && |unknown| == |rows|
    ensures forall i :: 0 <= i < |rows| ==> Target(success[i], unknown[i]) == RowTarget(rows[i], minYears)
  {
    success := seq(|rows|, _ => 0);
    var i := 0;
    while i < |rows|
      invariant 0 <= i <= |rows| && |success| == |rows|
      invariant forall k :: 0 <= k < |rows| ==>
        success[k] == (if k < i && IsExit(Status(rows[k])) then 1 else 0)
    {
      if IsExit(Status(rows[i])) {
        success := success[i := 1];
      }
      i := i + 1;
    }
    i := 0;
    while i < |rows|
      invariant 0 <= i <= |rows| && |success| == |rows|
      invariant forall k :: 0 <= k < |rows| ==>
        success[k] == (if IsExit(Status(rows[k])) || (k < i && MatureOperating(rows[k], minYears)) then 1 else 0)
    {
      if MatureOperating(rows[i], minYears) {
        success := success[i := 1];
      }
      i := i + 1;
    }
    unknown := seq(|rows|, k requires 0 <= k < |rows| => UnknownOutcome(rows[k], minYears));
  }

  // ---------------------------------------------------------------------
  // Frames
  // ---------------------------------------------------------------------

  /** A cell: NaN/None, a number, or a string. */
  datatype Cell = Missing | Num(x: real) | Text(s: string)

  /** `object` or a numeric dtype. */
  datatype DType = Numeric | Object

  datatype Column = Column(name: string, dtype: DType, cells: seq<Cell>)

  datatype Frame = Frame(rows: nat, columns: seq<Column>)

  /** `df.columns` */
  function Names(f: Frame): (r: seq<string>)
    ensures |r| == |f.columns|
    ensures forall j :: 0 <= j < |r| ==> r[j] == f.columns[j].name
  {
    seq(|f.columns|, j requires 0 <= j < |f.columns| => f.columns[j].name)
  }

  predicate Distinct(names: seq<string>) {
    forall i, j :: 0 <= i < j < |names| ==> names[i] != names[j]
  }

  /** A numeric column holds no strings. */
  predicate WellTyped(c: Column) {
    c.dtype == Numeric ==> forall k :: 0 <= k < |c.cells| ==> !c.cells[k].Text?
  }

  /** Every column has one cell per row and a consistent dtype, and the
      column names are distinct. */
  predicate WellFormed(f: Frame) {
    && Distinct(Names(f))
    && forall j :: 0 <= j < |f.columns| ==> |f.columns[j].cells| == f.rows && WellTyped(f.columns[j])
  }

  /** No missing value: every cell of an object column is a string and every
      cell of a numeric column a number. */
  predicate Filled(c: Column) {
    forall k :: 0 <= k < |c.cells| ==> if c.dtype == Object then c.cells[k].Text? else c.cells[k].Num?
  }

  /** `list.index(x)`: the first position of `x`, or `|s|` when it is absent. */
  function IndexOf(s: seq<string>, x: string): (k: nat)
    ensures k <= |s|
    ensures k < |s| ==> s[k] == x
    ensures forall j :: 0 <= j < k ==> s[j] != x
    ensures k == |s| <==> x !in s
  {
    if s == [] then 0 else if s[0] == x then 0 else 1 + IndexOf(s[1..], x)
  }

  lemma IndexOfDistinct(s: seq<string>, j: nat)
    requires Distinct(s) && j < |s|
    ensures IndexOf(s, s[j]) == j
  {
  }

  /** `df[name]` */
  function Get(f: Frame, name: string): Column
    requires name in Names(f)
  {
    f.columns[IndexOf(Names(f), name)]
  }

  /** `df[c.name] = c`: replaces the column of that name in place, or
      appends a new one. */
  function SetColumn(f: Frame, c: Column): (r: Frame)
    ensures r.rows == f.rows
    ensures Names(r) == if c.name in Names(f) then Names(f) else Names(f) + [c.name]
    ensures c.name in Names(r)
  {
    var k := IndexOf(Names(f), c.name);
    if k < |f.columns| then
      var r := Frame(f.rows, f.columns[k := c]);
      assert Names(r) == Names(f);
      r
    else
      var r := Frame(f.rows, f.columns + [c]);
      assert Names(r) == Names(f) + [c.name];
      r
  }

  /** Setting a column keeps the frame well formed, changes the column of
      that name and no other. */
  lemma SetColumnFacts(f: Frame, c: Column)
    requires WellFormed(f) && |c.cells| == f.rows && WellTyped(c)
    ensures WellFormed(SetColumn(f, c))
    ensures Get(SetColumn(f, c), c.name) == c
    ensures forall n :: n in Names(f) && n != c.name ==> Get(SetColumn(f, c), n) == Get(f, n)
  {
    if c.name in Names(f) {
      ReplaceColumnFacts(f, c);
    } else {
      AppendColumnFacts(f, c);
    }
  }

  lemma ReplaceColumnFacts(f: Frame, c: Column)
    requires WellFormed(f) && |c.cells| == f.rows && WellTyped(c) && c.name in Names(f)
    ensures WellFormed(SetColumn(f, c))
    ensures Get(SetColumn(f, c), c.name) == c
    ensures forall n :: n in Names(f) && n != c.name ==> Get(SetColumn(f, c), n) == Get(f, n)
  {
    var r := SetColumn(f, c);
    var names, k := Names(f), IndexOf(Names(f), c.name);
    assert r.columns == f.columns[k := c];
    assert Names(r) == names;
    forall n | n in names && n != c.name ensures Get(r, n) == Get(f, n) {
      var i := IndexOf(names, n);
      assert i != k;
    }
  }

  lemma AppendColumnFacts(f: Frame, c: Column)
    requires WellFormed(f) && |c.cells| == f.rows && WellTyped(c) && c.name !in Names(f)
    ensures WellFormed(SetColumn(f, c))
    ensures Get(SetColumn(f, c), c.name) == c
    ensures forall n :: n in Names(f) && n != c.name ==> Get(SetColumn(f, c), n) == Get(f, n)
  {
    var r := SetColumn(f, c);
    var names := Names(f);
    assert r.columns == f.columns + [c];
    assert Names(r) == names + [c.name];
    assert Distinct(Names(r));
    IndexOfDistinct(Names(r), |names|);
    forall n | n in names ensures Get(r, n) == Get(f, n) {
      var i := IndexOf(names, n);
      assert IndexOf(Names(r), n) == i by {
        assert Names(r)[i] == n;
        IndexOfDistinct(Names(r), i);
      }
    }
  }

  /** Setting a column that exists at position `j` replaces position `j`. */
  lemma SetExisting(f: Frame, c: Column, j: nat)
    requires Distinct(Names(f)) && j < |f.columns| && c.name == f.columns[j].name
    ensures SetColumn(f, c) == Frame(f.rows, f.columns[j := c])
  {
    IndexOfDistinct(Names(f), j);
  }

  /** Selecting every name of a list, in order: `df[names]`. */
  function Select(f: Frame, names: seq<string>): (r: Frame)
    requires forall n :: n in names ==> n in Names(f)
    ensures r.rows == f.rows && Names(r) == names
    ensures forall i :: 0 <= i < |names| ==> r.columns[i] == Get(f, names[i])
  {
    Frame(f.rows, seq(|names|, i requires 0 <= i < |names| => Get(f, names[i])))
  }

  lemma SelectWellFormed(f: Frame, names: seq<string>)
    requires WellFormed(f) && Distinct(names)
    requires forall n :: n in names ==> n in Names(f)
    ensures WellFormed(Select(f, names))
  {
    var r := Select(f, names);
    forall i | 0 <= i < |names| ensures |r.columns[i].cells| == f.rows && WellTyped(r.columns[i]) {
      var k := IndexOf(Names(f), names[i]);
    }
  }

  /** One value in every row of a new column: `df[name] = v`. */
  function Broadcast(rows: nat, v: Cell): (r: seq<Cell>)
    ensures |r| == rows && forall k :: 0 <= k < rows ==> r[k] == v
  {
    seq(rows, _ => v)
  }

  /** `series.apply(g)` and the element-wise pandas operations. */
  function MapCells(cells: seq<Cell>, g: Cell -> Cell): (r: seq<Cell>)
    ensures |r| == |cells| && forall k :: 0 <= k < |cells| ==> r[k] == g(cells[k])
  {
    seq(|cells|, k requires 0 <= k < |cells| => g(cells[k]))
  }

  // ---------------------------------------------------------------------
  // Cell conversions
  // ---------------------------------------------------------------------

  /** What pandas and numpy are asked about: a string parsed by
      `pd.to_numeric` (None when it cannot), `str` of a number, and
      `np.log1p`. */
  datatype Conversions = Conversions(
    parseNumber: string -> Option<real>,
    showNumber: real -> string,
    log1p: real -> real)

  /** `pd.to_numeric(..., errors="coerce")` on one cell. */
  function ToNumeric(c: Cell, conv: Conversions): (r: Cell)
    ensures !r.Text?
    ensures c.Num? ==> r == c
    ensures c.Missing? ==> r == Missing
    ensures c.Text? && conv.parseNumber(c.s).None? ==> r == Missing
    ensures c.Text? && conv.parseNumber(c.s).Some? ==> r == Num(conv.parseNumber(c.s).value)
  {
    match c
    case Text(s) => if conv.parseNumber(s).Some? then Num(conv.parseNumber(s).value) else Missing
    case _ => c
  }

  /** `.replace("-", np.nan).replace("", np.nan)` */
  function DashToMissing(c: Cell): (r: Cell)
    ensures r.Missing? <==> c.Missing? || c == Text("-") || c == Text("")
    ensures !r.Missing? ==> r == c
  {
    if c == Text("-") || c == Text("") then Missing else c
  }

  /** `.fillna(v)` */
  function FillNum(c: Cell, v: real): (r: Cell)
    ensures c.Missing? ==> r == Num(v)
    ensures !c.Missing? ==> r == c
  {
    if c.Missing? then Num(v) else c
  }

  /** `np.log1p(x.fillna(0.0).clip(lower=0.0))` */
  function LogCell(c: Cell, conv: Conversions): (r: Cell)
    ensures r.Num?
    ensures c.Num? && c.x >= 0.0 ==> r == Num(conv.log1p(c.x))
    ensures c.Missing? || (c.Num? && c.x < 0.0) ==> r == Num(conv.log1p(0.0))
  {
    match c
    case Num(x) => Num(conv.log1p(if x < 0.0 then 0.0 else x))
    case _ => Num(conv.log1p(0.0))
  }

  /** `.fillna("Unknown").astype(str)` */
  function AsCategoryCell(c: Cell, conv: Conversions): (r: Cell)
    ensures r.Text?
    ensures c.Text? ==> r == c
    ensures c.Missing? ==> r == Text("Unknown")
    ensures c.Num? ==> r == Text(conv.showNumber(c.x))
  {
    match c
    case Missing => Text("Unknown")
    case Num(x) => Text(conv.showNumber(x))
    case Text(s) => c
  }

  /** `pd.to_numeric(..., errors="coerce").fillna(0.0)` */
  function AsNumberCell(c: Cell, conv: Conversions): (r: Cell)
    ensures r.Num?
    ensures c.Num? ==> r == c
    ensures c.Text? && conv.parseNumber(c.s).Some? ==> r == Num(conv.parseNumber(c.s).value)
    ensures c.Missing? || (c.Text? && conv.parseNumber(c.s).None?) ==> r == Num(0.0)
  {
    FillNum(ToNumeric(c, conv), 0.0)
  }

  /** `_extract_main_category`: the first `|`-separated segment, stripped,
      of a non-blank string, and "Unknown" for anything else. */
  function ExtractMainCategory(c: Cell): (r: string)
    ensures '|' !in r
    ensures !c.Text? || Strip(c.s) == "" ==> r == "Unknown"
    ensures c.Text? && Strip(c.s) != "" && '|' !in c.s ==> r == Strip(c.s)
    ensures c.Text? && Strip(c.s) != "" && '|' in c.s ==> r == Strip(c.s[..Find(c.s, '|')])
  {
    if c.Text? && Strip(c.s) != "" then
      var bar := Find(c.s, '|');
      var first := if bar == -1 then c.s else c.s[..bar];
      StripKeepsAbsent(first, '|');
      Strip(first)
    else "Unknown"
  }

  // ---------------------------------------------------------------------
  // Columns
  // ---------------------------------------------------------------------

  function AsCategoryColumn(c: Column, conv: Conversions): (r: Column)
    ensures r.name == c.name && r.dtype == Object && |r.cells| == |c.cells| && Filled(r)
    ensures forall k :: 0 <= k < |c.cells| ==> r.cells[k] == AsCategoryCell(c.cells[k], conv)
  {
    Column(c.name, Object, MapCells(c.cells, x => AsCategoryCell(x, conv)))
  }

  function AsNumberColumn(c: Column, conv: Conversions): (r: Column)
    ensures r.name == c.name && r.dtype == Numeric && |r.cells| == |c.cells| && Filled(r)
    ensures forall k :: 0 <= k < |c.cells| ==> r.cells[k] == AsNumberCell(c.cells[k], conv)
  {
    Column(c.name, Numeric, MapCells(c.cells, x => AsNumberCell(x, conv)))
  }

  /** Converting to categories twice is converting once. */
  lemma AsCategoryIdempotent(c: Column, conv: Conversions)
    ensures AsCategoryColumn(AsCategoryColumn(c, conv), conv) == AsCategoryColumn(c, conv)
  {
    var once := AsCategoryColumn(c, conv);
    var twice := AsCategoryColumn(once, conv);
    assert twice.cells == once.cells by {
      forall k | 0 <= k < |c.cells| ensures twice.cells[k] == once.cells[k] {
        assert once.cells[k].Text?;
      }
    }
  }

  /** `df[num_cols].fillna(0.0)` on one column. */
  function FillColumn(c: Column): (r: Column)
    ensures r.name == c.name && r.dtype == c.dtype && |r.cells| == |c.cells|
    ensures forall k :: 0 <= k < |c.cells| ==> r.cells[k] == FillNum(c.cells[k], 0.0)
  {
    Column(c.name, c.dtype, MapCells(c.cells, x => FillNum(x, 0.0)))
  }

  /** Step 5 on one column: object columns become strings ("Unknown" for a
      missing value), numeric columns get 0.0 for a missing value. Either
      way nothing is missing afterwards. */
  function TypedColumn(c: Column, conv: Conversions): (r: Column)
    ensures r.name == c.name && r.dtype == c.dtype && |r.cells| == |c.cells|
    ensures WellTyped(c) ==> Filled(r)
    ensures c.dtype == Object ==> forall k :: 0 <= k < |c.cells| ==> r.cells[k] == AsCategoryCell(c.cells[k], conv)
    ensures c.dtype == Numeric ==> forall k :: 0 <= k < |c.cells| ==> r.cells[k] == FillNum(c.cells[k], 0.0)
  {
    if c.dtype == Object then AsCategoryColumn(c, conv) else FillColumn(c)
  }

  function TypedFrame(f: Frame, conv: Conversions): (r: Frame)
    ensures r.rows == f.rows && Names(r) == Names(f)
    ensures forall j :: 0 <= j < |f.columns| ==> r.columns[j] == TypedColumn(f.columns[j], conv)
  {
    var r := Frame(f.rows, seq(|f.columns|, j requires 0 <= j < |f.columns| => TypedColumn(f.columns[j], conv)));
    assert Names(r) == Names(f);
    r
  }

  // ---------------------------------------------------------------------
  // preprocess_features, steps 1 to 4
  // ---------------------------------------------------------------------

  const FundingTotal: string := "funding_total_usd"
  const FundingLog: string := "funding_total_log"
  const FundingRounds: string := "funding_rounds"
  const CategoryList: string := "category_list"
  const MainCategory: string := "main_category"

  const FeatureCandidates: seq<string> :=
    [FundingTotal, FundingLog, FundingRounds, "country_code", "state_code", "region", "city", MainCategory]

  /** Step 1: `funding_total_usd` made numeric ("-" and "" count as
      missing) with `funding_total_log` beside it, or both 0.0 when the
      column is absent. */
  function FundingStep(f: Frame, conv: Conversions): (r: Frame)
    requires WellFormed(f)
    ensures WellFormed(r) && r.rows == f.rows
    ensures forall n :: n in Names(f) ==> n in Names(r)
    ensures FundingTotal in Names(r) && FundingLog in Names(r)
    ensures forall n :: n in Names(f) && n != FundingTotal && n != FundingLog ==> Get(r, n) == Get(f, n)
    ensures FundingTotal in Names(f) ==>
      forall k :: 0 <= k < f.rows ==>
        Get(r, FundingTotal).cells[k] == ToNumeric(DashToMissing(Get(f, FundingTotal).cells[k]), conv)
        && Get(r, FundingLog).cells[k] == LogCell(Get(r, FundingTotal).cells[k], conv)
    ensures FundingTotal !in Names(f) ==>
      forall k :: 0 <= k < f.rows ==>
        Get(r, FundingTotal).cells[k] == Num(0.0) && Get(r, FundingLog).cells[k] == Num(0.0)
  {
    var usd :=
      if FundingTotal in Names(f) then
        Column(FundingTotal, Numeric, MapCells(Get(f, FundingTotal).cells, x => ToNumeric(DashToMissing(x), conv)))
      else Column(FundingTotal, Numeric, Broadcast(f.rows, Num(0.0)));
    var log :=
      if FundingTotal in Names(f) then Column(FundingLog, Numeric, MapCells(usd.cells, x => LogCell(x, conv)))
      else Column(FundingLog, Numeric, Broadcast(f.rows, Num(0.0)));
    SetColumnFacts(f, usd);
    var f1 := SetColumn(f, usd);
    SetColumnFacts(f1, log);
    SetColumn(f1, log)
  }

  /** Step 2: `funding_rounds` made numeric with 0 for anything that is not
      a number, or 0.0 when the column is absent. */
  function RoundsStep(f: Frame, conv: Conversions): (r: Frame)
    requires WellFormed(f)
    ensures WellFormed(r) && r.rows == f.rows
    ensures forall n :: n in Names(f) ==> n in Names(r)
    ensures FundingRounds in Names(r)
    ensures forall n :: n in Names(f) && n != FundingRounds ==> Get(r, n) == Get(f, n)
    ensures forall k :: 0 <= k < f.rows ==> Get(r, FundingRounds).cells[k].Num?
    ensures FundingRounds in Names(f) ==>
      forall k :: 0 <= k < f.rows ==> Get(r, FundingRounds).cells[k] == AsNumberCell(Get(f, FundingRounds).cells[k], conv)
    ensures FundingRounds !in Names(f) ==> forall k :: 0 <= k < f.rows ==> Get(r, FundingRounds).cells[k] == Num(0.0)
  {
    var rounds :=
      if FundingRounds in Names(f) then
        Column(FundingRounds, Numeric, MapCells(Get(f, FundingRounds).cells, x => AsNumberCell(x, conv)))
      else Column(FundingRounds, Numeric, Broadcast(f.rows, Num(0.0)));
    SetColumnFacts(f, rounds);
    SetColumn(f, rounds)
  }

  /** A `funding_rounds` value that is not a number (missing, or a string
      that does not parse) becomes 0, and a number already there stays. */
  lemma RoundsStepValues(f: Frame, conv: Conversions, k: int)
    requires WellFormed(f) && FundingRounds in Names(f) && 0 <= k < f.rows
    ensures var before := Get(f, FundingRounds).cells[k];
      var after := Get(RoundsStep(f, conv), FundingRounds).cells[k];
      && (before.Num? ==> after == before)
      && (before.Text? && conv.parseNumber(before.s).Some? ==> after == Num(conv.parseNumber(before.s).value))
      && (before.Missing? || (before.Text? && conv.parseNumber(before.s).None?) ==> after == Num(0.0))
  {
  }

  /** Step 3: `main_category` from `category_list`, or "Unknown". */
  function CategoryStep(f: Frame): (r: Frame)
    requires WellFormed(f)
    ensures WellFormed(r) && r.rows == f.rows
    ensures forall n :: n in Names(f) ==> n in Names(r)
    ensures MainCategory in Names(r)
    ensures forall n :: n in Names(f) && n != MainCategory ==> Get(r, n) == Get(f, n)
    ensures CategoryList in Names(f) ==>
      forall k :: 0 <= k < f.rows ==> Get(r, MainCategory).cells[k] == Text(ExtractMainCategory(Get(f, CategoryList).cells[k]))
    ensures CategoryList !in Names(f) ==> forall k :: 0 <= k < f.rows ==> Get(r, MainCategory).cells[k] == Text("Unknown")
  {
    var main :=
      if CategoryList in Names(f) then
        Column(MainCategory, Object, MapCells(Get(f, CategoryList).cells, x => Text(ExtractMainCategory(x))))
      else Column(MainCategory, Object, Broadcast(f.rows, Text("Unknown")));
    SetColumnFacts(f, main);
    SetColumn(f, main)
  }

  /** Steps 1 to 3 in order. */
  function Engineer(f: Frame, conv: Conversions): (r: Frame)
    requires WellFormed(f)
    ensures WellFormed(r) && r.rows == f.rows
    ensures FundingTotal in Names(r) && FundingLog in Names(r) && FundingRounds in Names(r) && MainCategory in Names(r)
  {
    CategoryStep(RoundsStep(FundingStep(f, conv), conv))
  }

  /** `[c for c in candidates if c in names]`: exactly the candidates that
      are present, each once, in the order of the candidate list. */
  function KeepPresent(candidates: seq<string>, names: seq<string>): (r: seq<string>)
    ensures |r| <= |candidates|
    ensures forall n :: n in r <==> n in candidates && n in names
    ensures Distinct(candidates) ==> Distinct(r)
    ensures Distinct(candidates) ==>
      forall i, j :: 0 <= i < j < |r| ==> IndexOf(candidates, r[i]) < IndexOf(candidates, r[j])
  {
    if candidates == [] then []
    else
      var rest := KeepPresent(candidates[1..], names);
      if candidates[0] in names then [candidates[0]] + rest else rest
  }

  /** Step 5 keeps a frame well formed and leaves nothing missing. */
  lemma TypedFrameFacts(f: Frame, conv: Conversions)
    requires WellFormed(f)
    ensures WellFormed(TypedFrame(f, conv))
    ensures forall j :: 0 <= j < |f.columns| ==> Filled(TypedFrame(f, conv).columns[j])
  {
    var r := TypedFrame(f, conv);
    forall j | 0 <= j < |r.columns|
      ensures |r.columns[j].cells| == r.rows && WellTyped(r.columns[j]) && Filled(r.columns[j])
    {
      assert WellTyped(f.columns[j]);
    }
  }

  /** Step 5 keeps the values that are already there: a string stays
      itself in any column, and a number stays itself in a numeric one. */
  lemma TypedFrameKeepsValues(f: Frame, conv: Conversions, j: int, k: int)
    requires 0 <= j < |f.columns| && 0 <= k < |f.columns[j].cells|
    ensures var before := f.columns[j].cells[k];
      var after := TypedFrame(f, conv).columns[j].cells[k];
      && (before.Text? ==> after == before)
      && (before.Num? && f.columns[j].dtype == Numeric ==> after == before)
      && (before.Missing? ==> after == if f.columns[j].dtype == Object then Text("Unknown") else Num(0.0))
  {
  }

  /** Steps 1 to 5, shared by both modes: the candidate features that
      exist, in candidate order, with no missing value left. The four
      engineered columns are always among them. */
  function Prepared(f: Frame, conv: Conversions): (r: Frame)
    requires WellFormed(f)
    ensures WellFormed(r) && r.rows == f.rows
    ensures Names(r) == KeepPresent(FeatureCandidates, Names(Engineer(f, conv)))
    ensures FundingTotal in Names(r) && FundingLog in Names(r) && FundingRounds in Names(r) && MainCategory in Names(r)
    ensures forall j :: 0 <= j < |r.columns| ==> Filled(r.columns[j])
  {
    var e := Engineer(f, conv);
    CandidatesFacts();
    var names := KeepPresent(FeatureCandidates, Names(e));
    SelectWellFormed(e, names);
    var s := Select(e, names);
    TypedFrameFacts(s, conv);
    TypedFrame(s, conv)
  }

  lemma CandidatesFacts()
    ensures Distinct(FeatureCandidates)
    ensures FundingTotal in FeatureCandidates && FundingLog in FeatureCandidates
    ensures FundingRounds in FeatureCandidates && MainCategory in FeatureCandidates
  {
  }

  // ---------------------------------------------------------------------
  // PreprocessMetadata and step 6
  // ---------------------------------------------------------------------

  /** `PreprocessMetadata` */
  datatype Metadata = Metadata(featureCols: seq<string>, catFeatures: seq<string>, catFeatureIndices: seq<int>)

  /** `select_dtypes(include=["object"]).columns` */
  function ObjectNames(cols: seq<Column>): (r: seq<string>)
    ensures forall n :: n in r ==> exists j :: 0 <= j < |cols| && cols[j].name == n && cols[j].dtype == Object
    ensures forall j :: 0 <= j < |cols| && cols[j].dtype == Object ==> cols[j].name in r
  {
    if cols == [] then []
    else
      var rest := ObjectNames(cols[1..]);
      assert forall j :: 1 <= j < |cols| ==> cols[j] == cols[1..][j - 1];
      if cols[0].dtype == Object then [cols[0].name] + rest else rest
  }

  /** The metadata train mode records: the column order, the object columns,
      and for each of them its position, `feature_cols.index(c)`. The
      indices point at exactly the categorical columns. */
  function TrainMetadata(f: Frame): (md: Metadata)
    requires Distinct(Names(f))
    ensures md.featureCols == Names(f)
    ensures |md.catFeatureIndices| == |md.catFeatures|
    ensures forall i :: 0 <= i < |md.catFeatures| ==>
      0 <= md.catFeatureIndices[i] < |md.featureCols|
      && md.featureCols[md.catFeatureIndices[i]] == md.catFeatures[i]
      && f.columns[md.catFeatureIndices[i]].dtype == Object
    ensures forall j :: 0 <= j < |f.columns| ==> (f.columns[j].dtype == Object <==> f.columns[j].name in md.catFeatures)
  {
    var names := Names(f);
    var cats := ObjectNames(f.columns);
    var idx := seq(|cats|, i requires 0 <= i < |cats| => IndexOf(names, cats[i]) as int);
    forall i | 0 <= i < |cats|
      ensures 0 <= idx[i] < |names| && names[idx[i]] == cats[i] && f.columns[idx[i]].dtype == Object
    {
      assert cats[i] in cats;
      var j :| 0 <= j < |f.columns| && f.columns[j].name == cats[i] && f.columns[j].dtype == Object;
      assert names[j] == cats[i];
      IndexOfDistinct(names, j);
    }
    forall j | 0 <= j < |f.columns| && f.columns[j].name in cats ensures f.columns[j].dtype == Object {
      var j' :| 0 <= j' < |f.columns| && f.columns[j'].name == f.columns[j].name && f.columns[j'].dtype == Object;
      assert names[j] == names[j'];
    }
    Metadata(names, cats, idx)
  }

  /** Predict mode, per output column: the prepared column of that name, or
      a constant one ("Unknown" for a categorical feature, 0.0 otherwise)
      when preparation did not produce it. */
  function BaseColumn(f: Frame, md: Metadata, name: string): (c: Column)
    ensures name in Names(f) ==> c == Get(f, name)
    ensures name !in Names(f) ==>
      c.name == name && c.dtype == (if name in md.catFeatures then Object else Numeric) && |c.cells| == f.rows
      && forall k :: 0 <= k < f.rows ==> c.cells[k] == if name in md.catFeatures then Text("Unknown") else Num(0.0)
  {
    if name in Names(f) then Get(f, name)
    else if name in md.catFeatures then Column(name, Object, Broadcast(f.rows, Text("Unknown")))
    else Column(name, Numeric, Broadcast(f.rows, Num(0.0)))
  }

  /** The column predict mode delivers under `name`: the base column made
      categorical or numeric as the metadata says. It has no missing value,
      and a column preparation did not produce is all "Unknown" or all 0.0. */
  function PredictColumn(f: Frame, md: Metadata, name: string, conv: Conversions): (c: Column)
    ensures c.name == (if name in Names(f) then Get(f, name).name else name)
    ensures c.dtype == (if name in md.catFeatures then Object else Numeric) && Filled(c)
    ensures name !in Names(f) ==>
      |c.cells| == f.rows
      && forall k :: 0 <= k < f.rows ==> c.cells[k] == if name in md.catFeatures then Text("Unknown") else Num(0.0)
    ensures name in Names(f) ==>
      |c.cells| == |Get(f, name).cells|
      && forall k :: 0 <= k < |c.cells| ==>
        c.cells[k] == if name in md.catFeatures then AsCategoryCell(Get(f, name).cells[k], conv)
                      else AsNumberCell(Get(f, name).cells[k], conv)
  {
    var base := BaseColumn(f, md, name);
    if name in md.catFeatures then AsCategoryColumn(base, conv) else AsNumberColumn(base, conv)
  }

  /** Step 5: the object-column loop, then the fill of the numeric columns. */
  method ApplyDtypes(f: Frame, conv: Conversions) returns (g: Frame)
    requires Distinct(Names(f))
    ensures g == TypedFrame(f, conv)
  {
    g := f;
    var j := 0;
    while j < |g.columns|
      invariant 0 <= j <= |f.columns| && g.rows == f.rows && |g.columns| == |f.columns|
      invariant Names(g) == Names(f)
      invariant forall k :: 0 <= k < |f.columns| ==>
        g.columns[k] == if k < j && f.columns[k].dtype == Object then AsCategoryColumn(f.columns[k], conv) else f.columns[k]
    {
      if g.columns[j].dtype == Object {
        var c := AsCategoryColumn(g.columns[j], conv);
        SetExisting(g, c, j);
        g := SetColumn(g, c);
        assert Names(g) == Names(f);
      }
      j := j + 1;
    }
    var typed := seq(|g.columns|, k requires 0 <= k < |g.columns| =>
      if g.columns[k].dtype == Numeric then FillColumn(g.columns[k]) else g.columns[k]);
    g := Frame(g.rows, typed);
  }

  /** `metadata.cat_features` all name feature columns; otherwise `df[col]`
      in the categorical loop raises KeyError. */
  predicate CatFeaturesListed(md: Metadata) {
    forall n :: n in md.catFeatures ==> n in md.featureCols
  }

  /** The first predict-mode loop: every feature column the frame lacks is
      added, "Unknown" for a categorical feature and 0.0 otherwise. */
  method AddMissingColumns(f: Frame, md: Metadata) returns (g: Frame)
    requires Distinct(Names(f))
    ensures g.rows == f.rows && Distinct(Names(g))
    ensures forall n :: n in md.featureCols ==> n in Names(g)
    ensures forall n :: n in Names(g) ==> Get(g, n) == BaseColumn(f, md, n)
  {
    g := f;
    var i := 0;
    while i < |md.featureCols|
      invariant 0 <= i <= |md.featureCols| && g.rows == f.rows && Distinct(Names(g))
      invariant forall n :: n in Names(f) ==> n in Names(g)
      invariant forall n :: n in md.featureCols[..i] ==> n in Names(g)
      invariant forall n :: n in Names(g) ==> Get(g, n) == BaseColumn(f, md, n)
    {
      var col := md.featureCols[i];
      if col !in Names(g) {
        var c := if col in md.catFeatures then Column(col, Object, Broadcast(f.rows, Text("Unknown")))
                 else Column(col, Numeric, Broadcast(f.rows, Num(0.0)));
        AddColumn(g, c);
        g := SetColumn(g, c);
      }
      assert md.featureCols[..i + 1] == md.featureCols[..i] + [col];
      i := i + 1;
    }
    assert md.featureCols[..i] == md.featureCols;
  }

  /** The categorical loop: each listed categorical feature converted, or
      KeyError at the first one the frame does not have. */
  method CategoricalPass(g0: Frame, md: Metadata, f: Frame, conv: Conversions) returns (r: Result<Frame, string>)
    requires Names(g0) == md.featureCols && Distinct(md.featureCols)
    requires forall j :: 0 <= j < |md.featureCols| ==> g0.columns[j] == BaseColumn(f, md, md.featureCols[j])
    ensures r.Ok? <==> CatFeaturesListed(md)
    ensures r.Ok? ==> r.value.rows == g0.rows && Names(r.value) == md.featureCols
    ensures r.Ok? ==> forall j :: 0 <= j < |md.featureCols| ==>
      r.value.columns[j] == if md.featureCols[j] in md.catFeatures
                            then AsCategoryColumn(BaseColumn(f, md, md.featureCols[j]), conv)
                            else BaseColumn(f, md, md.featureCols[j])
  {
    var g := g0;
    var k := 0;
    while k < |md.catFeatures|
      invariant 0 <= k <= |md.catFeatures| && g.rows == g0.rows && Names(g) == md.featureCols
      invariant forall n :: n in md.catFeatures[..k] ==> n in md.featureCols
      invariant forall j :: 0 <= j < |md.featureCols| ==>
        g.columns[j] == if md.featureCols[j] in md.catFeatures[..k]
                        then AsCategoryColumn(BaseColumn(f, md, md.featureCols[j]), conv)
                        else BaseColumn(f, md, md.featureCols[j])
    {
      var col := md.catFeatures[k];
      if col !in Names(g) {
        return Err("KeyError: " + col);
      }
      var j := IndexOf(Names(g), col);
      AsCategoryIdempotent(BaseColumn(f, md, col), conv);
      var c := AsCategoryColumn(g.columns[j], conv);
      SetExisting(g, c, j);
      g := SetColumn(g, c);
      assert md.catFeatures[..k + 1] == md.catFeatures[..k] + [col];
      k := k + 1;
    }
    assert md.catFeatures[..k] == md.catFeatures;
    return Ok(g);
  }

  /** The numeric loop over the columns as they stand: every column that is
      not a categorical feature converted to numbers. */
  method NumericPass(g0: Frame, md: Metadata, f: Frame, conv: Conversions) returns (g: Frame)
    requires Distinct(Names(g0))
    requires forall j :: 0 <= j < |g0.columns| ==>
      g0.columns[j] == if Names(g0)[j] in md.catFeatures
                       then AsCategoryColumn(BaseColumn(f, md, Names(g0)[j]), conv)
                       else BaseColumn(f, md, Names(g0)[j])
    ensures g.rows == g0.rows && Names(g) == Names(g0)
    ensures forall j :: 0 <= j < |g.columns| ==> g.columns[j] == PredictColumn(f, md, Names(g0)[j], conv)
  {
    g := g0;
    var names := Names(g0);
    var m := 0;
    while m < |names|
      invariant 0 <= m <= |names| && g.rows == g0.rows && Names(g) == names
      invariant forall j :: 0 <= j < |names| ==>
        g.columns[j] == if j < m then PredictColumn(f, md, names[j], conv) else g0.columns[j]
    {
      if names[m] !in md.catFeatures {
        var c := AsNumberColumn(g.columns[m], conv);
        SetExisting(g, c, m);
        g := SetColumn(g, c);
      }
      m := m + 1;
    }
  }

  /** Predict mode after step 5: add the missing feature columns, select
      the metadata's order, then the categorical and the numeric loops. */
  method AlignToMetadata(f: Frame, md: Metadata, conv: Conversions) returns (r: Result<Frame, string>)
    requires Distinct(Names(f)) && Distinct(md.featureCols)
    ensures r.Ok? <==> CatFeaturesListed(md)
    ensures r.Ok? ==> r.value.rows == f.rows && Names(r.value) == md.featureCols
    ensures r.Ok? ==> forall i :: 0 <= i < |md.featureCols| ==>
      r.value.columns[i] == PredictColumn(f, md, md.featureCols[i], conv)
  {
    var g := AddMissingColumns(f, md);
    g := Select(g, md.featureCols);
    var cat := CategoricalPass(g, md, f, conv);
    if cat.Err? {
      return cat;
    }
    var h := NumericPass(cat.value, md, f, conv);
    return Ok(h);
  }

  /** Appending a column under a fresh name keeps what the first loop
      tracks. */
  lemma AddColumn(g: Frame, c: Column)
    requires Distinct(Names(g)) && c.name !in Names(g)
    ensures Distinct(Names(SetColumn(g, c)))
    ensures Get(SetColumn(g, c), c.name) == c
    ensures forall n :: n in Names(g) ==> Get(SetColumn(g, c), n) == Get(g, n)
  {
    var r := SetColumn(g, c);
    var names := Names(g);
    assert Names(r) == names + [c.name];
    assert Distinct(Names(r));
    IndexOfDistinct(Names(r), |names|);
    forall n | n in names ensures Get(r, n) == Get(g, n) {
      var i := IndexOf(names, n);
      assert Names(r)[i] == n;
      IndexOfDistinct(Names(r), i);
    }
  }

  /** `preprocess_features`. Train mode returns the prepared frame and the
      metadata read off it. Predict mode raises ValueError without metadata,
      KeyError when a categorical feature is not a feature column, and
      otherwise returns exactly the metadata's columns, in its order. */
  method PreprocessFeatures(f: Frame, metadata: Option<Metadata>, isTrain: bool, conv: Conversions)
    returns (r: Result<(Frame, Metadata), string>)
    requires WellFormed(f)
    requires !isTrain && metadata.Some? ==> Distinct(metadata.value.featureCols)
    ensures isTrain ==> r == Ok((Prepared(f, conv), TrainMetadata(Prepared(f, conv))))
    ensures !isTrain ==> (r.Ok? <==> metadata.Some? && CatFeaturesListed(metadata.value))
    ensures !isTrain && r.Ok? ==>
      && r.value.1 == metadata.value
      && r.value.0.rows == f.rows
      && Names(r.value.0) == metadata.value.featureCols
      && forall i :: 0 <= i < |metadata.value.featureCols| ==>
           r.value.0.columns[i] == PredictColumn(Prepared(f, conv), metadata.value, metadata.value.featureCols[i], conv)
  {
    var e := Engineer(f, conv);
    CandidatesFacts();
    var names := KeepPresent(FeatureCandidates, Names(e));
    SelectWellFormed(e, names);
    var g := Select(e, names);
    g := ApplyDtypes(g, conv);
    assert g == Prepared(f, conv);
    if isTrain {
      return Ok((g, TrainMetadata(g)));
    }
    if metadata.None? {
      return Err("ValueError: metadata må gis når is_train=False");
    }
    var aligned := AlignToMetadata(g, metadata.value, conv);
    if aligned.Err? {
      return Err(aligned.error);
    }
    return Ok((aligned.value, metadata.value));
  }
}
