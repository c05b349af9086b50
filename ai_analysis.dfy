/** What the server makes of the language model's replies. The model call
    itself is a parameter (`ask`), returning the reply content or the
    message of the error the call threw; `JSON.parse` is the parameter
    `decode`. What remains is the repair of the reply's shape and the
    fallbacks around the two calls. */
module AiAnalysis {
  import opened JsValues
  import ExcelParser

  /** The outcome of one chat-completion call: the error it threw, or the
      content of the first choice (`None` for `null`). */
  datatype ModelReply = CallFailed(message: string) | Replied(content: Option<string>)

  /** The five properties of an `AnalysisResult`; their contents are what the
      reply carried (not checked against the declared types). */
  datatype AnalysisResult = AnalysisResult(
    statementType: Value,
    insights: Value,
    recommendations: Value,
    keyMetrics: Value,
    variances: Value)

  const AnalyzeErrorPrefix := "Failed to analyze financial data: "

  const IncomeStatement := Str("income_statement")

  /** `content || '{}'` */
  function ReplyText(content: Option<string>): (t: string)
    ensures t != ""
    ensures content.Some? && content.value != "" ==> t == content.value
  {
    match content
    case Some(s) => if s != "" then s else "{}"
    case None => "{}"
  }

  /** `validateAnalysisResult`: each property of the reply when truthy, else
      its default. Reading a property of `null` throws. */
  function ValidateAnalysisResult(result: Value): (r: Result<AnalysisResult>)
    ensures r.Failure? <==> result.Null? || result.Missing?
    ensures r.Success? ==>
              && Truthy(r.value.statementType) && Truthy(r.value.insights)
              && Truthy(r.value.recommendations) && Truthy(r.value.keyMetrics) && Truthy(r.value.variances)
  {
    match Get(result, "statementType")
    case Failure(e) => Failure(e)
    case Success(st) =>
      Success(AnalysisResult(
        Or(st, IncomeStatement),
        Or(OptGet(result, "insights"), Arr([])),
        Or(OptGet(result, "recommendations"), Arr([])),
        Or(OptGet(result, "keyMetrics"), Obj(map[])),
        Or(OptGet(result, "variances"), Arr([]))))
  }

  /** The result as the JS object it is: exactly the five keys. */
  function ResultValue(r: AnalysisResult): (v: Value)
    ensures v.Obj? && v.fields.Keys == {"statementType", "insights", "recommendations", "keyMetrics", "variances"}
  {
    Obj(map[
      "statementType" := r.statementType,
      "insights" := r.insights,
      "recommendations" := r.recommendations,
      "keyMetrics" := r.keyMetrics,
      "variances" := r.variances])
  }

  /** The all-default result `validateAnalysisResult({})` gives. */
  function DefaultResult(): AnalysisResult {
    AnalysisResult(IncomeStatement, Arr([]), Arr([]), Obj(map[]), Arr([]))
  }

  /** `analyzeFinancialData`: ask, parse the reply (`'{}'` when empty) and
      repair it; any error is re-thrown with the analysis prefix. */
  function AnalyzeFinancialData(
    data: seq<ExcelParser.FinancialRecord>,
    analysisDepth: string,
    ask: (seq<ExcelParser.FinancialRecord>, string) -> ModelReply,
    decode: string -> Result<Value>): (r: Result<AnalysisResult>)
    ensures r.Failure? ==> |AnalyzeErrorPrefix| <= |r.error| && r.error[..|AnalyzeErrorPrefix|] == AnalyzeErrorPrefix
  {
    match ask(data, analysisDepth)
    case CallFailed(m) => Failure(AnalyzeErrorPrefix + m)
    case Replied(content) =>
      match decode(ReplyText(content))
      case Failure(m) => Failure(AnalyzeErrorPrefix + m)
      case Success(v) =>
        match ValidateAnalysisResult(v)
        case Failure(m) => Failure(AnalyzeErrorPrefix + m)
        case Success(res) => Success(res)
  }

  function Min(a: int, b: int): int {
    if a <= b then a else b
  }

  /** `data.slice(0, 20)` */
  function Sample(data: seq<ExcelParser.FinancialRecord>): (s: seq<ExcelParser.FinancialRecord>)
    ensures |s| == Min(20, |data|) && s == data[..|s|]
  {
    data[..Min(20, |data|)]
  }

  /** `detectStatementType`: the reply's truthy `statementType`, else
      `'income_statement'`; every error also falls back to it. */
  function DetectStatementType(
    data: seq<ExcelParser.FinancialRecord>,
    ask: seq<ExcelParser.FinancialRecord> -> ModelReply,
    decode: string -> Result<Value>): (r: Value)
    ensures Truthy(r)
  {
    match ask(Sample(data))
    case CallFailed(_) => IncomeStatement
    case Replied(content) =>
      match decode(ReplyText(content))
      case Failure(_) => IncomeStatement
      case Success(v) =>
        match Get(v, "statementType")
        case Failure(_) => IncomeStatement
        case Success(st) => Or(st, IncomeStatement)
  }

  // ---------------------------------------------------------------------------
  // Properties

  /** Truthy reply properties pass through unchanged; falsy or missing ones
      take their defaults. */
  lemma ValidatePassesTruthy(result: Value, key: string)
    requires result.Obj?
    requires key in ResultValue(DefaultResult()).fields
    ensures var r := ValidateAnalysisResult(result);
      r.Success?
      && (Truthy(OptGet(result, key)) ==> ResultValue(r.value).fields[key] == OptGet(result, key))
      && (!Truthy(OptGet(result, key)) ==> ResultValue(r.value).fields[key] == ResultValue(DefaultResult()).fields[key])
  {
  }

  /** Only the five properties are read: replies that agree on them give the
      same result, whatever else they carry. */
  lemma ValidateIgnoresOtherKeys(m1: map<string, Value>, m2: map<string, Value>)
    requires forall k :: k in ResultValue(DefaultResult()).fields ==> OptGet(Obj(m1), k) == OptGet(Obj(m2), k)
    ensures ValidateAnalysisResult(Obj(m1)) == ValidateAnalysisResult(Obj(m2))
  {
    var keys := ResultValue(DefaultResult()).fields.Keys;
    assert "statementType" in keys && "insights" in keys && "recommendations" in keys;
    assert "keyMetrics" in keys && "variances" in keys;
  }

  /** Repairing a repaired result changes nothing. */
  lemma ValidateIdempotent(r: AnalysisResult)
    requires ValidateAnalysisResult(ResultValue(r)).Success?
    ensures ValidateAnalysisResult(ResultValue(ValidateAnalysisResult(ResultValue(r)).value))
         == ValidateAnalysisResult(ResultValue(r))
  {
  }

  /** A reply with empty content reads as `{}` and gives the all-default result. */
  lemma EmptyReplyDefaults(
    data: seq<ExcelParser.FinancialRecord>,
    analysisDepth: string,
    ask: (seq<ExcelParser.FinancialRecord>, string) -> ModelReply,
    decode: string -> Result<Value>)
    requires ask(data, analysisDepth) == Replied(None) || ask(data, analysisDepth) == Replied(Some(""))
    requires decode("{}") == Success(Obj(map[]))
    ensures AnalyzeFinancialData(data, analysisDepth, ask, decode) == Success(DefaultResult())
  {
    assert ReplyText(ask(data, analysisDepth).content) == "{}";
  }

  /** A reply of `null` (the JSON text `null`) makes the analysis fail with
      the prefixed TypeError. */
  lemma NullReplyFails(
    data: seq<ExcelParser.FinancialRecord>,
    analysisDepth: string,
    ask: (seq<ExcelParser.FinancialRecord>, string) -> ModelReply,
    decode: string -> Result<Value>,
    text: string)
    requires ask(data, analysisDepth) == Replied(Some(text)) && text != ""
    requires decode(text) == Success(Null)
    ensures AnalyzeFinancialData(data, analysisDepth, ask, decode)
         == Failure(AnalyzeErrorPrefix + "Cannot read properties of null (reading 'statementType')")
  {
  }

  /** The detected type is the reply's truthy `statementType`, and
      `'income_statement'` in every other case. */
  lemma DetectCases(
    data: seq<ExcelParser.FinancialRecord>,
    ask: seq<ExcelParser.FinancialRecord> -> ModelReply,
    decode: string -> Result<Value>)
    ensures var r := DetectStatementType(data, ask, decode);
      var reply := ask(Sample(data));
      var parsed := if reply.Replied? then decode(ReplyText(reply.content)) else Failure("");
      if parsed.Success? && Truthy(OptGet(parsed.value, "statementType"))
      then r == OptGet(parsed.value, "statementType")
      else r == IncomeStatement
  {
  }

  /** Only the first 20 records are sent, so only they matter. */
  lemma DetectUsesFirstTwenty(
    data: seq<ExcelParser.FinancialRecord>,
    ask: seq<ExcelParser.FinancialRecord> -> ModelReply,
    decode: string -> Result<Value>)
    ensures DetectStatementType(data, ask, decode) == DetectStatementType(Sample(data), ask, decode)
  {
    assert Sample(Sample(data)) == Sample(data);
  }

  /** Records that agree on their first 20 entries get the same type. */
  lemma DetectIgnoresTail(
    data1: seq<ExcelParser.FinancialRecord>,
    data2: seq<ExcelParser.FinancialRecord>,
    ask: seq<ExcelParser.FinancialRecord> -> ModelReply,
    decode: string -> Result<Value>)
    requires Sample(data1) == Sample(data2)
    ensures DetectStatementType(data1, ask, decode) == DetectStatementType(data2, ask, decode)
  {
  }
}
