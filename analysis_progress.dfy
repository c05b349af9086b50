/** The status panel of the client: how the four steps (upload, processing,
    AI analysis, insights) are shown for the progress the server reports. */
module AnalysisProgress {
  import opened JsValues
  import Storage
  import Routes

  datatype StepStatus = Pending | Active | Completed | Failed

  /** The progress reply as the client reads it: the stored status and the
      percentage. */
  datatype ProgressData = ProgressData(status: string, progress: int)

  /** The four steps of the panel, in display order. */
  const StepCount := 4

  /** How far a step has come; a failed step is past every other. */
  function Rank(s: StepStatus): nat {
    match s
    case Pending => 0
    case Active => 1
    case Completed => 2
    case Failed => 3
  }

  /** `getStepStatus`: nothing reported yet is pending; a failed or completed
      analysis shows every step so, whatever its percentage; otherwise step
      `i` is completed past `25 * i` per cent, active in the quarter before,
      and pending below that. */
  function GetStepStatus(p: Option<ProgressData>, stepIndex: int): (s: StepStatus)
    ensures p.None? ==> s == Pending
    ensures s == Failed <==> p.Some? && p.value.status == "failed"
    ensures s == Active ==> p.Some? && (stepIndex - 1) * 25 < p.value.progress <= stepIndex * 25
    ensures p.Some? && p.value.status == "completed" ==> s == Completed
    ensures p.Some? && p.value.status != "failed" && p.value.status != "completed" ==>
              && (s == Completed <==> p.value.progress > stepIndex * 25)
              && (s == Active <==> (stepIndex - 1) * 25 < p.value.progress <= stepIndex * 25)
              && (s == Pending <==> p.value.progress <= (stepIndex - 1) * 25)
  {
    match p
    case None => Pending
    case Some(d) =>
      if d.status == "failed" then Failed
      else if d.status == "completed" then Completed
      else if d.progress > stepIndex * 25 then Completed
      else if d.progress > (stepIndex - 1) * 25 then Active
      else Pending
  }

  /** The statuses of the four steps. */
  function Steps(p: Option<ProgressData>): (ss: seq<StepStatus>)
    ensures |ss| == StepCount
    ensures forall i :: 0 <= i < StepCount ==> ss[i] == GetStepStatus(p, i)
  {
    [GetStepStatus(p, 0), GetStepStatus(p, 1), GetStepStatus(p, 2), GetStepStatus(p, 3)]
  }

  /** What the client receives for a stored analysis. */
  function ClientView(a: Storage.FinancialAnalysis): (p: ProgressData)
    ensures p.status == a.status && 0 <= p.progress <= 100
  {
    ProgressData(a.status, Routes.ProgressOf(a).progress)
  }

  // ---------------------------------------------------------------------------
  // Properties

  /** Later steps are never further along than earlier ones. */
  lemma StepsDescend(p: Option<ProgressData>, i: int, j: int)
    requires i <= j
    ensures Rank(GetStepStatus(p, j)) <= Rank(GetStepStatus(p, i))
  {
  }

  /** At most one step is active at a time. */
  lemma AtMostOneActive(p: Option<ProgressData>, i: int, j: int)
    requires GetStepStatus(p, i) == Active && GetStepStatus(p, j) == Active
    ensures i == j
  {
  }

  /** While processing below 75 per cent, some step is active: the one whose
      quarter holds the percentage. */
  lemma SomeStepActive(d: ProgressData)
    requires d.status != "failed" && d.status != "completed"
    requires 0 <= d.progress <= 75
    ensures exists i :: 0 <= i < StepCount && GetStepStatus(Some(d), i) == Active
  {
    var i := (d.progress + 24) / 25;
    assert GetStepStatus(Some(d), i) == Active;
  }

  /** More progress, under the same status, never moves a step back. */
  lemma ProgressNeverUndoes(status: string, pct1: int, pct2: int, i: int)
    requires pct1 <= pct2
    ensures Rank(GetStepStatus(Some(ProgressData(status, pct1)), i))
         <= Rank(GetStepStatus(Some(ProgressData(status, pct2)), i))
  {
  }

  /** The panel for each case of the server's progress switch. A stored
      status the switch does not know reports 0 per cent, which the panel
      shows as the first step active. */
  lemma ServerProgressSteps(a: Storage.FinancialAnalysis)
    ensures var ss := Steps(Some(ClientView(a)));
      && (a.status == "processing" && !Truthy(a.rawData) ==> ss == [Completed, Active, Pending, Pending])
      && (a.status == "processing" && Truthy(a.rawData) ==> ss == [Completed, Completed, Completed, Active])
      && (a.status == "completed" ==> ss == [Completed, Completed, Completed, Completed])
      && (a.status == "failed" ==> ss == [Failed, Failed, Failed, Failed])
      && (!(a.status in {"processing", "completed", "failed"}) ==> ss == [Active, Pending, Pending, Pending])
  {
    Routes.ProgressCases(a);
  }

  /** Nothing reported shows every step pending. */
  lemma NoProgressAllPending()
    ensures Steps(None) == [Pending, Pending, Pending, Pending]
  {
  }
}
