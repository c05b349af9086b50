/** The two enumerations of the shared schema: the analysis depth a client
    selects on upload and the status of a stored analysis. Both travel as
    strings; `Name` gives the string and `...Named` reads it back. */
module Schema {
  import opened JsValues

  /** `uploadFileSchema.analysisDepth` */
  datatype AnalysisDepth = Basic | Detailed | Executive {
    function Name(): string {
      match this
      case Basic => "basic"
      case Detailed => "detailed"
      case Executive => "executive"
    }
  }

  /** `analysisProgressSchema.status` */
  datatype AnalysisStatus = Processing | Completed | Failed {
    function Name(): string {
      match this
      case Processing => "processing"
      case Completed => "completed"
      case Failed => "failed"
    }
  }

  /** `z.enum(['basic', 'detailed', 'executive']).parse(s)`, `None` when it rejects. */
  function DepthNamed(s: string): (r: Option<AnalysisDepth>)
    ensures r.Some? ==> r.value.Name() == s
    ensures r.None? ==> forall d: AnalysisDepth :: d.Name() != s
  {
    if s == "basic" then Some(Basic)
    else if s == "detailed" then Some(Detailed)
    else if s == "executive" then Some(Executive)
    else None
  }

  /** The status a stored status string denotes, `None` for any other string. */
  function StatusNamed(s: string): (r: Option<AnalysisStatus>)
    ensures r.Some? ==> r.value.Name() == s
    ensures r.None? ==> forall t: AnalysisStatus :: t.Name() != s
  {
    if s == "processing" then Some(Processing)
    else if s == "completed" then Some(Completed)
    else if s == "failed" then Some(Failed)
    else None
  }
}
