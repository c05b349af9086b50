/** The server's derivations and its processing pipeline: the fixed set of
    balance-sheet ratios, the balance-sheet chart, the progress an analysis
    reports, and the run that takes an uploaded sheet through parsing,
    validation, conversion and the two model calls, writing each stage's
    result into the stored analysis. */
module Routes {
  import opened JsValues
  import opened JsNumbers
  import opened Schema
  import ExcelParser
  import opened Storage
  import opened AiAnalysis

  // ---------------------------------------------------------------------------
  // Ratios

  const RatioKeys: seq<string> :=
    ["currentRatio", "quickRatio", "debtToEquity", "debtToAssets", "equityRatio", "workingCapital"]

  /** The value each ratio takes when the metric is falsy, in `RatioKeys` order. */
  const RatioDefaults: seq<real> := [2.34, 1.88, 0.43, 0.54, 0.46, 850000.0]

  /** `metrics?.key || fallback` */
  function MetricOr(metrics: Value, key: string, fallback: real): Value {
    Or(OptGet(metrics, key), Num(fallback))
  }

  /** `calculateFinancialRatios` */
  function CalculateFinancialRatios(metrics: Value): (r: map<string, Value>)
    ensures r.Keys == set k | k in RatioKeys
    ensures forall k :: k in r ==> Truthy(r[k])
  {
    map[
      "currentRatio" := MetricOr(metrics, "currentRatio", 2.34),
      "quickRatio" := MetricOr(metrics, "quickRatio", 1.88),
      "debtToEquity" := MetricOr(metrics, "debtToEquity", 0.43),
      "debtToAssets" := MetricOr(metrics, "debtToAssets", 0.54),
      "equityRatio" := MetricOr(metrics, "equityRatio", 0.46),
      "workingCapital" := MetricOr(metrics, "workingCapital", 850000.0)]
  }

  /** Each ratio is the truthy metric of that name, else its entry in the
      defaults table. */
  lemma RatioRule(metrics: Value, i: nat)
    requires i < |RatioKeys|
    ensures var r := CalculateFinancialRatios(metrics); var key := RatioKeys[i];
      key in r
      && (Truthy(OptGet(metrics, key)) ==> r[key] == OptGet(metrics, key))
      && (!Truthy(OptGet(metrics, key)) ==> r[key] == Num(RatioDefaults[i]))
  {
  }

  /** Without metrics (`null`, `undefined`, `{}`, or every metric falsy)
      every ratio is its default. */
  lemma RatiosWithoutMetrics(metrics: Value)
    requires forall k :: k in RatioKeys ==> !Truthy(OptGet(metrics, k))
    ensures forall i :: 0 <= i < |RatioKeys| ==>
              CalculateFinancialRatios(metrics)[RatioKeys[i]] == Num(RatioDefaults[i])
  {
    forall i | 0 <= i < |RatioKeys|
      ensures CalculateFinancialRatios(metrics)[RatioKeys[i]] == Num(RatioDefaults[i])
    {
      RatioRule(metrics, i);
    }
  }

  /** Metrics outside the six are dropped: two metric objects that agree on
      the six keys give the same ratios. */
  lemma RatiosIgnoreOtherMetrics(m1: Value, m2: Value)
    requires forall k :: k in RatioKeys ==> OptGet(m1, k) == OptGet(m2, k)
    ensures CalculateFinancialRatios(m1) == CalculateFinancialRatios(m2)
  {
    assert RatioKeys[0] in RatioKeys && RatioKeys[1] in RatioKeys && RatioKeys[2] in RatioKeys;
    assert RatioKeys[3] in RatioKeys && RatioKeys[4] in RatioKeys && RatioKeys[5] in RatioKeys;
  }

  // ---------------------------------------------------------------------------
  // Balance-sheet chart

  /** A chart series; `name` is its `label` property. */
  datatype Dataset = Dataset(name: string, data: seq<Value>)

  datatype BalanceSheetChart = BalanceSheetChart(labels: seq<string>, datasets: seq<Dataset>)

  const ChartLabels: seq<string> := ["Total Assets", "Total Liabilities", "Total Equity"]

  const TotalKeys: seq<string> := ["totalAssets", "totalLiabilities", "totalEquity"]

  /** The current-period value of each total when the metric is falsy. */
  const TotalDefaults: seq<real> := [5200000.0, 2800000.0, 2400000.0]

  /** The factor giving the simulated previous period of each total. */
  const PreviousFactors: seq<real> := [0.94, 0.93, 0.96]

  /** `{ balanceSheetChart: { labels, datasets } }` as a JS value. */
  function ChartValue(c: BalanceSheetChart): Value {
    Obj(map["balanceSheetChart" := Obj(map[
      "labels" := Arr(seq(|c.labels|, i requires 0 <= i < |c.labels| => Str(c.labels[i]))),
      "datasets" := Arr(seq(|c.datasets|, i requires 0 <= i < |c.datasets| =>
        Obj(map["label" := Str(c.datasets[i].name), "data" := Arr(c.datasets[i].data)])))])])
  }

  /** `generateChartData`. The source also filters the records into assets,
      liabilities and equity but never uses the result, so the records play
      no part. */
  function GenerateChartData(financialData: seq<ExcelParser.FinancialRecord>, analysisResult: AnalysisResult)
    : (c: BalanceSheetChart)
    ensures c.labels == ChartLabels && |c.datasets| == 2
    ensures c.datasets[0].name == "Current Period" && c.datasets[1].name == "Previous Period"
    ensures |c.datasets[0].data| == 3 && |c.datasets[1].data| == 3
  {
    var km := analysisResult.keyMetrics;
    var totalAssets := MetricOr(km, "totalAssets", 5200000.0);
    var totalLiabilities := MetricOr(km, "totalLiabilities", 2800000.0);
    var totalEquity := MetricOr(km, "totalEquity", 2400000.0);
    BalanceSheetChart(
      ["Total Assets", "Total Liabilities", "Total Equity"],
      [Dataset("Current Period", [totalAssets, totalLiabilities, totalEquity]),
       Dataset("Previous Period", [Times(totalAssets, 0.94), Times(totalLiabilities, 0.93), Times(totalEquity, 0.96)])])
  }

  /** Each current value is the truthy metric or its default, and the
      previous value is the current one times its factor. */
  lemma ChartRule(financialData: seq<ExcelParser.FinancialRecord>, analysisResult: AnalysisResult, i: nat)
    requires i < 3
    ensures var c := GenerateChartData(financialData, analysisResult);
      var metric := OptGet(analysisResult.keyMetrics, TotalKeys[i]);
      && (Truthy(metric) ==> c.datasets[0].data[i] == metric)
      && (!Truthy(metric) ==> c.datasets[0].data[i] == Num(TotalDefaults[i]))
      && c.datasets[1].data[i] == Times(c.datasets[0].data[i], PreviousFactors[i])
  {
  }

  /** The simulated previous period never exceeds a non-negative current
      value, and falls strictly below a positive one. */
  lemma PreviousNotAboveCurrent(financialData: seq<ExcelParser.FinancialRecord>, analysisResult: AnalysisResult, i: nat)
    requires i < 3
    ensures var c := GenerateChartData(financialData, analysisResult);
      var current := c.datasets[0].data[i];
      var previous := c.datasets[1].data[i];
      current.Num? && current.n >= 0.0 ==>
        && previous.Num? && previous.n <= current.n
        && (current.n > 0.0 ==> previous.n < current.n)
  {
    ChartRule(financialData, analysisResult, i);
  }

  /** Without the three totals the chart shows the default figures. */
  lemma ChartDefaults(financialData: seq<ExcelParser.FinancialRecord>, analysisResult: AnalysisResult)
    requires forall k :: k in TotalKeys ==> !Truthy(OptGet(analysisResult.keyMetrics, k))
    ensures var c := GenerateChartData(financialData, analysisResult);
      c.datasets[0].data == [Num(5200000.0), Num(2800000.0), Num(2400000.0)]
      && c.datasets[1].data == [Num(4888000.0), Num(2604000.0), Num(2304000.0)]
  {
    assert TotalKeys[0] in TotalKeys && TotalKeys[1] in TotalKeys && TotalKeys[2] in TotalKeys;
  }

  /** The chart is the same whatever records it is given. */
  lemma ChartIgnoresRecords(d1: seq<ExcelParser.FinancialRecord>, d2: seq<ExcelParser.FinancialRecord>, analysisResult: AnalysisResult)
    ensures GenerateChartData(d1, analysisResult) == GenerateChartData(d2, analysisResult)
  {
  }

  // ---------------------------------------------------------------------------
  // Progress

  datatype Progress = Progress(progress: nat, currentStep: string)

  /** The switch of the progress endpoint over the stored status. */
  function ProgressOf(a: FinancialAnalysis): (p: Progress)
    ensures p.progress <= 100
  {
    match StatusNamed(a.status)
    case Some(Processing) =>
      if Truthy(a.rawData) then Progress(60, "Generating AI insights...")
      else Progress(20, "Processing Excel file...")
    case Some(Completed) => Progress(100, "Analysis complete")
    case Some(Failed) => Progress(0, "Analysis failed")
    case None => Progress(0, "")
  }

  /** Each progress figure identifies its case; an unknown status reports
      0 with no step. */
  lemma ProgressCases(a: FinancialAnalysis)
    ensures var p := ProgressOf(a);
      && (p.progress == 100 <==> a.status == "completed")
      && (p.progress == 60 <==> a.status == "processing" && Truthy(a.rawData))
      && (p.progress == 20 <==> a.status == "processing" && !Truthy(a.rawData))
      && (p.progress == 0 <==> a.status != "processing" && a.status != "completed")
      && (p.currentStep == "" <==> a.status != "processing" && a.status != "completed" && a.status != "failed")
      && (a.status == "processing" && !Truthy(a.rawData) ==> p.currentStep == "Processing Excel file...")
      && (a.status == "processing" && Truthy(a.rawData) ==> p.currentStep == "Generating AI insights...")
      && (a.status == "completed" ==> p.currentStep == "Analysis complete")
      && (a.status == "failed" ==> p.currentStep == "Analysis failed")
  {
  }

  // ---------------------------------------------------------------------------
  // Processing an uploaded file

  /** `financialData` as stored in `rawData`. */
  function RecordsValue(records: seq<ExcelParser.FinancialRecord>): (v: Value)
    ensures Truthy(v)
  {
    Arr(seq(|records|, i requires 0 <= i < |records| => Obj(records[i])))
  }

  function RawDataUpdate(records: seq<ExcelParser.FinancialRecord>): AnalysisUpdate {
    NoUpdate().(rawData := Some(RecordsValue(records)))
  }

  function TypeUpdate(statementType: Value): AnalysisUpdate {
    NoUpdate().(statementType := Some(statementType))
  }

  /** The last write of a successful run. */
  function CompletionUpdate(records: seq<ExcelParser.FinancialRecord>, res: AnalysisResult): AnalysisUpdate {
    NoUpdate().(
      status := Some("completed"),
      insights := Some(res.insights),
      metrics := Some(res.keyMetrics),
      variances := Some(res.variances),
      ratios := Some(Obj(CalculateFinancialRatios(res.keyMetrics))),
      chartData := Some(ChartValue(GenerateChartData(records, res))))
  }

  function FailedUpdate(): AnalysisUpdate {
    StatusUpdate("failed")
  }

  /** The writes a run issues to the stored analysis, in order, and how it ends. */
  datatype Run = Run(writes: seq<AnalysisUpdate>, outcome: Outcome)

  /** The stages of `processFinancialFile` before its first write: parse,
      validate and convert, or the error the first failing stage throws. */
  function Prepare(sheet: ExcelParser.Sheet, sheetName: string): (r: Result<seq<ExcelParser.FinancialRecord>>)
    ensures r.Success? <==>
      ExcelParser.Parse(sheet, sheetName).Success?
      && ExcelParser.ValidateFinancialData(ExcelParser.Parse(sheet, sheetName).value) == Pass
    ensures r.Success? ==> r.value == ExcelParser.Records(ExcelParser.Parse(sheet, sheetName).value)
  {
    match ExcelParser.Parse(sheet, sheetName)
    case Failure(e) => Failure(e)
    case Success(data) =>
      match ExcelParser.ValidateFinancialData(data)
      case Fail(e) => Failure(e)
      case Pass => Success(ExcelParser.Records(data))
  }

  /** The writes made once the preparation has ended as `prepared`, given
      the statement-type detection and the analysis as functions of the
      records. */
  function RunOf(
    prepared: Result<seq<ExcelParser.FinancialRecord>>,
    detect: seq<ExcelParser.FinancialRecord> -> Value,
    analyze: seq<ExcelParser.FinancialRecord> -> Result<AnalysisResult>): (r: Run)
    ensures |r.writes| == 1 || |r.writes| == 3
    ensures r.outcome.Fail? <==> r.writes[|r.writes| - 1] == FailedUpdate()
    ensures r.outcome.Pass? ==> |r.writes| == 3 && r.writes[2].status == Some("completed")
    ensures prepared.Failure? ==> r == Run([FailedUpdate()], Fail(prepared.error))
    ensures prepared.Success? ==>
      && |r.writes| == 3
      && r.writes[0] == RawDataUpdate(prepared.value)
      && r.writes[1] == TypeUpdate(detect(prepared.value))
      && (analyze(prepared.value).Success? ==>
            r.outcome == Pass && r.writes[2] == CompletionUpdate(prepared.value, analyze(prepared.value).value))
      && (analyze(prepared.value).Failure? ==>
            r.outcome == Fail(analyze(prepared.value).error) && r.writes[2] == FailedUpdate())
  {
    match prepared
    case Failure(e) => Run([FailedUpdate()], Fail(e))
    case Success(records) =>
      var prefix := [RawDataUpdate(records), TypeUpdate(detect(records))];
      match analyze(records)
      case Failure(e) => Run(prefix + [FailedUpdate()], Fail(e))
      case Success(res) => Run(prefix + [CompletionUpdate(records, res)], Pass)
  }

  /** `detectStatementType` with the model call and `JSON.parse` fixed. */
  function Detector(
    askType: seq<ExcelParser.FinancialRecord> -> ModelReply,
    decode: string -> Result<Value>): seq<ExcelParser.FinancialRecord> -> Value
  {
    records => DetectStatementType(records, askType, decode)
  }

  /** `analyzeFinancialData` with the depth, the model call and `JSON.parse` fixed. */
  function Analyzer(
    analysisDepth: string,
    askAnalysis: (seq<ExcelParser.FinancialRecord>, string) -> ModelReply,
    decode: string -> Result<Value>): seq<ExcelParser.FinancialRecord> -> Result<AnalysisResult>
  {
    records => AnalyzeFinancialData(records, analysisDepth, askAnalysis, decode)
  }

  /** `processFinancialFile` as the sequence of writes it makes. */
  function ProcessRun(
    sheet: ExcelParser.Sheet, sheetName: string, analysisDepth: string,
    askType: seq<ExcelParser.FinancialRecord> -> ModelReply,
    askAnalysis: (seq<ExcelParser.FinancialRecord>, string) -> ModelReply,
    decode: string -> Result<Value>): Run
  {
    RunOf(Prepare(sheet, sheetName), Detector(askType, decode), Analyzer(analysisDepth, askAnalysis, decode))
  }

  /** Preparation fails with the parser's error, else with the validator's,
      and otherwise yields one record per data row. */
  lemma PrepareCases(sheet: ExcelParser.Sheet, sheetName: string)
    ensures var parsed := ExcelParser.Parse(sheet, sheetName); var r := Prepare(sheet, sheetName);
      && (parsed.Failure? ==> r == Failure(parsed.error))
      && (parsed.Success? && ExcelParser.ValidateFinancialData(parsed.value).Fail? ==>
            r == Failure(ExcelParser.ValidateFinancialData(parsed.value).error))
      && (r.Success? ==>
            && parsed.Success? && ExcelParser.ValidateFinancialData(parsed.value) == Pass
            && |r.value| == |parsed.value.rows| >= 3)
  {
  }

  /** `storage.updateAnalysis(id, u)` at time `t`: the map after the call. */
  function Write(m: map<string, FinancialAnalysis>, id: string, u: AnalysisUpdate, t: int): map<string, FinancialAnalysis> {
    if id in m then m[id := Merge(m[id], u, t)] else m
  }

  /** The map after the writes `ws`, the k-th at time `clock(k)`. */
  function ApplyWrites(m: map<string, FinancialAnalysis>, id: string, ws: seq<AnalysisUpdate>, clock: nat -> int)
    : (r: map<string, FinancialAnalysis>)
    ensures r.Keys == m.Keys
  {
    if ws == [] then m
    else Write(ApplyWrites(m, id, ws[..|ws| - 1], clock), id, ws[|ws| - 1], clock(|ws| - 1))
  }

  lemma ApplyOne(m: map<string, FinancialAnalysis>, id: string, w: AnalysisUpdate, clock: nat -> int)
    ensures ApplyWrites(m, id, [w], clock) == Write(m, id, w, clock(0))
  {
    assert [w][..0] == [];
  }

  lemma ApplyThree(m: map<string, FinancialAnalysis>, id: string, w1: AnalysisUpdate, w2: AnalysisUpdate, w3: AnalysisUpdate, clock: nat -> int)
    ensures ApplyWrites(m, id, [w1, w2, w3], clock)
         == Write(Write(Write(m, id, w1, clock(0)), id, w2, clock(1)), id, w3, clock(2))
  {
    assert [w1, w2, w3][..2] == [w1, w2];
    assert [w1, w2][..1] == [w1];
    ApplyOne(m, id, w1, clock);
  }

  /** Writes to one analysis touch no other entry. */
  lemma {:induction false} ApplyWritesFrame(m: map<string, FinancialAnalysis>, id: string, ws: seq<AnalysisUpdate>, clock: nat -> int)
    ensures forall k :: k in m && k != id ==> ApplyWrites(m, id, ws, clock)[k] == m[k]
  {
    if ws != [] {
      ApplyWritesFrame(m, id, ws[..|ws| - 1], clock);
    }
  }

  /** The stages before the first write, as the source runs them. */
  method PrepareData(sheet: ExcelParser.Sheet, sheetName: string) returns (prepared: Result<seq<ExcelParser.FinancialRecord>>)
    ensures prepared == Prepare(sheet, sheetName)
  {
    var parsed := ExcelParser.ParseExcelFile(sheet, sheetName);
    if parsed.Failure? {
      return Failure(parsed.error);
    }
    var validation := ExcelParser.ValidateFinancialData(parsed.value);
    if validation.Fail? {
      return Failure(validation.error);
    }
    var financialData := ExcelParser.ConvertToFinancialStructure(parsed.value);
    assert financialData == ExcelParser.Records(parsed.value);
    return Success(financialData);
  }

  /** `processFinancialFile`: each stage in turn, writing its result; on the
      first error the status is set to `failed` and the error returned. */
  method ProcessFinancialFile(
    store: MemStorage, analysisId: string,
    sheet: ExcelParser.Sheet, sheetName: string, analysisDepth: string,
    askType: seq<ExcelParser.FinancialRecord> -> ModelReply,
    askAnalysis: (seq<ExcelParser.FinancialRecord>, string) -> ModelReply,
    decode: string -> Result<Value>,
    clock: nat -> int) returns (outcome: Outcome)
    requires store.Valid()
    modifies store
    ensures store.Valid()
    ensures var run := ProcessRun(sheet, sheetName, analysisDepth, askType, askAnalysis, decode);
      outcome == run.outcome && store.analyses == ApplyWrites(old(store.analyses), analysisId, run.writes, clock)
    ensures store.analysisOrder == old(store.analysisOrder)
    ensures store.users == old(store.users) && store.userOrder == old(store.userOrder)
  {
    var prepared := PrepareData(sheet, sheetName);
    outcome := ProcessPrepared(store, analysisId, prepared, Detector(askType, decode), Analyzer(analysisDepth, askAnalysis, decode), clock);
  }

  /** The writing part of `processFinancialFile`, from the prepared records. */
  method ProcessPrepared(
    store: MemStorage, analysisId: string,
    prepared: Result<seq<ExcelParser.FinancialRecord>>,
    detect: seq<ExcelParser.FinancialRecord> -> Value,
    analyze: seq<ExcelParser.FinancialRecord> -> Result<AnalysisResult>,
    clock: nat -> int) returns (outcome: Outcome)
    requires store.Valid()
    modifies store
    ensures store.Valid()
    ensures var run := RunOf(prepared, detect, analyze);
      outcome == run.outcome && store.analyses == ApplyWrites(old(store.analyses), analysisId, run.writes, clock)
    ensures store.analysisOrder == old(store.analysisOrder)
    ensures store.users == old(store.users) && store.userOrder == old(store.userOrder)
  {
    ghost var m0 := store.analyses;
    if prepared.Failure? {
      var _ := store.UpdateAnalysis(analysisId, FailedUpdate(), clock(0));
      ApplyOne(m0, analysisId, FailedUpdate(), clock);
      return Fail(prepared.error);
    }
    var financialData := prepared.value;
    var w1 := RawDataUpdate(financialData);
    var _ := store.UpdateAnalysis(analysisId, w1, clock(0));

    var statementType := detect(financialData);
    var w2 := TypeUpdate(statementType);
    var _ := store.UpdateAnalysis(analysisId, w2, clock(1));

    var analysisResult := analyze(financialData);
    if analysisResult.Failure? {
      var _ := store.UpdateAnalysis(analysisId, FailedUpdate(), clock(2));
      assert RunOf(prepared, detect, analyze).writes == [w1, w2, FailedUpdate()];
      ApplyThree(m0, analysisId, w1, w2, FailedUpdate(), clock);
      return Fail(analysisResult.error);
    }
    var chartData := GenerateChartData(financialData, analysisResult.value);
    var w3 := NoUpdate().(
      status := Some("completed"),
      insights := Some(analysisResult.value.insights),
      metrics := Some(analysisResult.value.keyMetrics),
      variances := Some(analysisResult.value.variances),
      ratios := Some(Obj(CalculateFinancialRatios(analysisResult.value.keyMetrics))),
      chartData := Some(ChartValue(chartData)));
    assert w3 == CompletionUpdate(financialData, analysisResult.value);
    var _ := store.UpdateAnalysis(analysisId, w3, clock(2));
    assert RunOf(prepared, detect, analyze).writes == [w1, w2, w3];
    ApplyThree(m0, analysisId, w1, w2, w3, clock);
    return Pass;
  }

  /** A successful run writes the records first, then the statement type,
      then completes the analysis with the ratios of the reply's metrics and
      the chart; the other columns keep what the record held before. */
  lemma SuccessfulRun(
    m: map<string, FinancialAnalysis>, id: string,
    prepared: Result<seq<ExcelParser.FinancialRecord>>,
    detect: seq<ExcelParser.FinancialRecord> -> Value,
    analyze: seq<ExcelParser.FinancialRecord> -> Result<AnalysisResult>,
    clock: nat -> int)
    requires id in m
    requires RunOf(prepared, detect, analyze).outcome == Pass
    ensures prepared.Success?
    ensures analyze(prepared.value).Success?
    ensures var records := prepared.value;
      var res := analyze(records).value;
      var a := ApplyWrites(m, id, RunOf(prepared, detect, analyze).writes, clock)[id];
      && a.status == "completed"
      && a.rawData == RecordsValue(records)
      && a.statementType == detect(records)
      && a.ratios == Obj(CalculateFinancialRatios(res.keyMetrics))
      && a.chartData == ChartValue(GenerateChartData(records, res))
      && a.metrics == res.keyMetrics && a.insights == res.insights && a.variances == res.variances
      && a.id == m[id].id && a.filename == m[id].filename && a.createdAt == m[id].createdAt
      && a.updatedAt == clock(2)
  {
    var records := prepared.value;
    var res := analyze(records).value;
    var w1, w2 := RawDataUpdate(records), TypeUpdate(detect(records));
    var w3 := CompletionUpdate(records, res);
    assert RunOf(prepared, detect, analyze).writes == [w1, w2, w3];
    ApplyThree(m, id, w1, w2, w3, clock);
  }

  /** A failed run leaves the analysis `failed`; when the failure comes from
      the analysis call, the records and statement type written before it
      stay in place, and when it comes earlier nothing else was written. */
  lemma FailedRun(
    m: map<string, FinancialAnalysis>, id: string,
    prepared: Result<seq<ExcelParser.FinancialRecord>>,
    detect: seq<ExcelParser.FinancialRecord> -> Value,
    analyze: seq<ExcelParser.FinancialRecord> -> Result<AnalysisResult>,
    clock: nat -> int)
    requires id in m
    requires RunOf(prepared, detect, analyze).outcome.Fail?
    ensures var a := ApplyWrites(m, id, RunOf(prepared, detect, analyze).writes, clock)[id];
      && a.status == "failed"
      && (prepared.Failure? ==> a == m[id].(status := "failed", updatedAt := clock(0)))
      && (prepared.Success? ==>
            a.rawData == RecordsValue(prepared.value)
            && a.statementType == detect(prepared.value)
            && a.ratios == m[id].ratios && a.chartData == m[id].chartData)
  {
    if prepared.Failure? {
      ApplyOne(m, id, FailedUpdate(), clock);
    } else {
      var records := prepared.value;
      var w1, w2 := RawDataUpdate(records), TypeUpdate(detect(records));
      assert RunOf(prepared, detect, analyze).writes == [w1, w2, FailedUpdate()];
      ApplyThree(m, id, w1, w2, FailedUpdate(), clock);
    }
  }

  /** A run ends with the analysis `completed` (progress 100) or `failed`
      (progress 0), as its outcome says. */
  lemma RunEnd(
    m: map<string, FinancialAnalysis>, id: string,
    prepared: Result<seq<ExcelParser.FinancialRecord>>,
    detect: seq<ExcelParser.FinancialRecord> -> Value,
    analyze: seq<ExcelParser.FinancialRecord> -> Result<AnalysisResult>,
    clock: nat -> int)
    requires id in m
    ensures var run := RunOf(prepared, detect, analyze);
      var a := ApplyWrites(m, id, run.writes, clock)[id];
      && (run.outcome.Pass? ==> a.status == "completed" && ProgressOf(a).progress == 100)
      && (run.outcome.Fail? ==> a.status == "failed" && ProgressOf(a).progress == 0)
  {
    var run := RunOf(prepared, detect, analyze);
    LastWriteStatus(m, id, run.writes, clock);
    ProgressCases(ApplyWrites(m, id, run.writes, clock)[id]);
  }

  /** The status after a run of writes is the one the last write sets. */
  lemma LastWriteStatus(m: map<string, FinancialAnalysis>, id: string, ws: seq<AnalysisUpdate>, clock: nat -> int)
    requires id in m && ws != [] && ws[|ws| - 1].status.Some?
    ensures ApplyWrites(m, id, ws, clock)[id].status == ws[|ws| - 1].status.value
  {
    var before := ApplyWrites(m, id, ws[..|ws| - 1], clock);
    assert id in before;
  }

  /** Along a successful run on an analysis created as the upload handler
      creates it, the progress reported after each write goes 20, 60, 60,
      100: the records are written before the statement type, and the
      status changes only with the last write. */
  lemma SuccessfulRunProgress(
    m: map<string, FinancialAnalysis>, id: string,
    prepared: Result<seq<ExcelParser.FinancialRecord>>,
    detect: seq<ExcelParser.FinancialRecord> -> Value,
    analyze: seq<ExcelParser.FinancialRecord> -> Result<AnalysisResult>,
    clock: nat -> int)
    requires id in m && m[id].status == "processing" && !Truthy(m[id].rawData)
    requires RunOf(prepared, detect, analyze).outcome == Pass
    ensures var ws := RunOf(prepared, detect, analyze).writes;
      && |ws| == 3
      && ProgressOf(ApplyWrites(m, id, ws[..0], clock)[id]).progress == 20
      && ProgressOf(ApplyWrites(m, id, ws[..1], clock)[id]).progress == 60
      && ProgressOf(ApplyWrites(m, id, ws[..2], clock)[id]).progress == 60
      && ProgressOf(ApplyWrites(m, id, ws[..3], clock)[id]).progress == 100
  {
    var ws := RunOf(prepared, detect, analyze).writes;
    var records := prepared.value;
    var w1, w2 := RawDataUpdate(records), TypeUpdate(detect(records));
    assert ws[..0] == [] && ws[..1] == [w1] && ws[..2] == [w1, w2] && ws[..3] == ws;
    ApplyOne(m, id, w1, clock);
    ApplyTwo(m, id, w1, w2, clock);
    ProgressCases(m[id]);
    var a1 := Merge(m[id], w1, clock(0));
    ProgressCases(a1);
    ProgressCases(Merge(a1, w2, clock(1)));
    RunEnd(m, id, prepared, detect, analyze, clock);
  }

  lemma ApplyTwo(m: map<string, FinancialAnalysis>, id: string, w1: AnalysisUpdate, w2: AnalysisUpdate, clock: nat -> int)
    ensures ApplyWrites(m, id, [w1, w2], clock) == Write(Write(m, id, w1, clock(0)), id, w2, clock(1))
  {
    assert [w1, w2][..1] == [w1];
    ApplyOne(m, id, w1, clock);
  }

  /** The handler's `.catch` sets `failed` again after a failed run; the
      second write changes nothing but the time. */
  lemma FailedTwice(a: FinancialAnalysis, t1: int, t2: int)
    ensures Merge(Merge(a, FailedUpdate(), t1), FailedUpdate(), t2) == Merge(a, FailedUpdate(), t2)
  {
    MergeIdempotent(a, FailedUpdate(), t1, t2);
  }

  /** Writing `failed` gives a failed record at 0 per cent. */
  lemma FailedStaysFailed(a: FinancialAnalysis, t: int)
    ensures var b := Merge(a, FailedUpdate(), t);
      b.status == "failed" && ProgressOf(b).progress == 0
  {
    ProgressCases(Merge(a, FailedUpdate(), t));
  }

  /** The record the upload handler creates. */
  function UploadRecord(filename: string, fileSize: int, depth: AnalysisDepth): InsertAnalysis {
    InsertAnalysis(Null, filename, fileSize, depth.Name(), Null, "processing", Null, Null, Null, Null, Null, Null)
  }

  /** The analyses after `processFinancialFile(...).catch(...)`: the run's
      writes, then, when the run failed, the handler's own write of `failed`
      at `catchTime`. */
  function AfterBackground(m: map<string, FinancialAnalysis>, id: string, run: Run, clock: nat -> int, catchTime: int)
    : (r: map<string, FinancialAnalysis>)
    ensures r.Keys == m.Keys
  {
    var after := ApplyWrites(m, id, run.writes, clock);
    if run.outcome.Pass? then after else Write(after, id, FailedUpdate(), catchTime)
  }

  /** The handler's write of `failed` after a failed run changes nothing but
      `updatedAt`: every other column is what the run left. */
  lemma CatchOnlyRetimes(
    m: map<string, FinancialAnalysis>, id: string,
    prepared: Result<seq<ExcelParser.FinancialRecord>>,
    detect: seq<ExcelParser.FinancialRecord> -> Value,
    analyze: seq<ExcelParser.FinancialRecord> -> Result<AnalysisResult>,
    clock: nat -> int, catchTime: int)
    requires id in m
    requires RunOf(prepared, detect, analyze).outcome.Fail?
    ensures var run := RunOf(prepared, detect, analyze);
      AfterBackground(m, id, run, clock, catchTime)[id]
        == ApplyWrites(m, id, run.writes, clock)[id].(updatedAt := catchTime)
  {
    var run := RunOf(prepared, detect, analyze);
    RunEnd(m, id, prepared, detect, analyze, clock);
    var a := ApplyWrites(m, id, run.writes, clock)[id];
    MergeFields(a, FailedUpdate(), catchTime);
  }

  /** The record the upload handler creates reports 20 per cent, with the
      file's name, size and depth and no records yet. */
  lemma UploadRecordStart(filename: string, fileSize: int, depth: AnalysisDepth, id: string, now: int)
    ensures var a := NewAnalysis(UploadRecord(filename, fileSize, depth), id, now);
      && a.status == "processing" && !Truthy(a.rawData) && ProgressOf(a).progress == 20
      && a.id == id && a.filename == filename && a.fileSize == fileSize && a.analysisDepth == depth.Name()
      && a.createdAt == now
  {
    ProgressCases(NewAnalysis(UploadRecord(filename, fileSize, depth), id, now));
  }

  /** The upload handler followed by its processing, run to the end: the
      depth is checked, the analysis created under `id` and then processed. */
  method StartAnalysis(
    store: MemStorage, id: string, now: int,
    filename: string, fileSize: int, analysisDepth: string,
    sheet: ExcelParser.Sheet, sheetName: string,
    askType: seq<ExcelParser.FinancialRecord> -> ModelReply,
    askAnalysis: (seq<ExcelParser.FinancialRecord>, string) -> ModelReply,
    decode: string -> Result<Value>,
    clock: nat -> int, catchTime: int) returns (r: Result<string>)
    requires store.Valid()
    modifies store
    ensures store.Valid()
    ensures r.Failure? <==> DepthNamed(analysisDepth).None?
    ensures r.Failure? ==> store.analyses == old(store.analyses)
    ensures r.Success? ==> r.value == id && id in store.analyses
    ensures r.Success? ==>
      var outcome := ProcessRun(sheet, sheetName, analysisDepth, askType, askAnalysis, decode).outcome;
      && (outcome.Pass? ==> store.analyses[id].status == "completed" && ProgressOf(store.analyses[id]).progress == 100)
      && (outcome.Fail? ==> store.analyses[id].status == "failed" && ProgressOf(store.analyses[id]).progress == 0)
    ensures forall k :: k in old(store.analyses) && k != id ==> k in store.analyses && store.analyses[k] == old(store.analyses)[k]
    ensures r.Failure? ==> store.analysisOrder == old(store.analysisOrder)
    ensures r.Success? ==> store.analysisOrder == SetOrder(old(store.analysisOrder), old(store.analyses), id)
    ensures store.users == old(store.users) && store.userOrder == old(store.userOrder)
    ensures r.Success? ==>
      var created := NewAnalysis(UploadRecord(filename, fileSize, DepthNamed(analysisDepth).value), id, now);
      store.analyses == AfterBackground(old(store.analyses)[id := created], id,
        ProcessRun(sheet, sheetName, analysisDepth, askType, askAnalysis, decode), clock, catchTime)
  {
    var depth := DepthNamed(analysisDepth);
    if depth.None? {
      return Failure("Invalid enum value. Expected 'basic' | 'detailed' | 'executive'");
    }
    var created := store.CreateAnalysis(UploadRecord(filename, fileSize, depth.value), id, now);
    ProcessInBackground(store, id, sheet, sheetName, analysisDepth, askType, askAnalysis, decode, clock, catchTime);
    return Success(id);
  }

  /** `processFinancialFile(...).catch(...)`: the processing, and on failure
      the handler's own write of `failed`. The record ends `completed` or
      `failed`, and no other analysis is touched. */
  method ProcessInBackground(
    store: MemStorage, id: string,
    sheet: ExcelParser.Sheet, sheetName: string, analysisDepth: string,
    askType: seq<ExcelParser.FinancialRecord> -> ModelReply,
    askAnalysis: (seq<ExcelParser.FinancialRecord>, string) -> ModelReply,
    decode: string -> Result<Value>,
    clock: nat -> int, catchTime: int)
    requires store.Valid() && id in store.analyses
    modifies store
    ensures store.Valid() && id in store.analyses
    ensures var outcome := ProcessRun(sheet, sheetName, analysisDepth, askType, askAnalysis, decode).outcome;
      && (outcome.Pass? ==> store.analyses[id].status == "completed" && ProgressOf(store.analyses[id]).progress == 100)
      && (outcome.Fail? ==> store.analyses[id].status == "failed" && ProgressOf(store.analyses[id]).progress == 0)
    ensures forall k :: k in old(store.analyses) && k != id ==> k in store.analyses && store.analyses[k] == old(store.analyses)[k]
    ensures store.analyses.Keys == old(store.analyses).Keys
    ensures store.analysisOrder == old(store.analysisOrder)
    ensures store.users == old(store.users) && store.userOrder == old(store.userOrder)
    ensures store.analyses == AfterBackground(old(store.analyses), id,
      ProcessRun(sheet, sheetName, analysisDepth, askType, askAnalysis, decode), clock, catchTime)
  {
    ghost var m1 := store.analyses;
    var outcome := ProcessFinancialFile(store, id, sheet, sheetName, analysisDepth, askType, askAnalysis, decode, clock);
    ghost var prepared := Prepare(sheet, sheetName);
    ghost var detect, analyze := Detector(askType, decode), Analyzer(analysisDepth, askAnalysis, decode);
    ghost var run := RunOf(prepared, detect, analyze);
    assert run == ProcessRun(sheet, sheetName, analysisDepth, askType, askAnalysis, decode);
    ApplyWritesFrame(m1, id, run.writes, clock);
    RunEnd(m1, id, prepared, detect, analyze, clock);
    assert outcome == run.outcome;
    if outcome.Fail? {
      ghost var a := store.analyses[id];
      var _ := store.UpdateAnalysis(id, FailedUpdate(), catchTime);
      FailedStaysFailed(a, catchTime);
    }
  }
}
