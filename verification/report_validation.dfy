/** ReportValidationService: the checks a technician report must pass before
    it is submitted, approved, or work on it is started. */
module ReportValidation {
  import opened Common

  /** The fields of a technician report that the checks read. */
  datatype ReportDetails = ReportDetails(
    diagnosis: Option<string>,
    actionPlan: Option<string>,
    estimatedCost: Option<int>,
    estimatedTimeSeconds: Option<int>)

  /** The IllegalStateException each check throws, one per message. */
  datatype ValidationError =
    | DiagnosisRequired
    | EstimatedCostRequired
    | ActionPlanRequired
    | EstimatedTimeRequired

  function ValidationMessage(e: ValidationError): string
  {
    match e
    case DiagnosisRequired => "Diagnosis is required before submitting"
    case EstimatedCostRequired => "Estimated cost is required before submitting"
    case ActionPlanRequired => "Action plan is required before submitting"
    case EstimatedTimeRequired => "Estimated time is required before starting work"
  }

  /** `s == null || s.trim().isEmpty()` */
  predicate MissingText(s: Option<string>)
  {
    s.None? || TrimsToEmpty(s.value)
  }

  /** What submission needs: a diagnosis, a cost and an action plan. */
  predicate ReadyForSubmission(d: ReportDetails)
  {
    !MissingText(d.diagnosis) && d.estimatedCost.Some? && !MissingText(d.actionPlan)
  }

  /** The checks run diagnosis, cost, plan; the first one that fails decides
      which exception is thrown. */
  function ValidateForSubmission(d: ReportDetails): (r: Outcome<ValidationError>)
    ensures r.Pass? <==> ReadyForSubmission(d)
    ensures r == Fail(DiagnosisRequired) <==> MissingText(d.diagnosis)
    ensures r == Fail(EstimatedCostRequired) <==> !MissingText(d.diagnosis) && d.estimatedCost.None?
    ensures r == Fail(ActionPlanRequired) <==>
              !MissingText(d.diagnosis) && d.estimatedCost.Some? && MissingText(d.actionPlan)
    ensures r != Fail(EstimatedTimeRequired)
  {
    if MissingText(d.diagnosis) then Fail(DiagnosisRequired)
    else if d.estimatedCost.None? then Fail(EstimatedCostRequired)
    else if MissingText(d.actionPlan) then Fail(ActionPlanRequired)
    else Pass
  }

  /** Approval re-runs exactly the submission checks. */
  function ValidateForApproval(d: ReportDetails): (r: Outcome<ValidationError>)
    ensures r == ValidateForSubmission(d)
    ensures r.Pass? <==> ReadyForSubmission(d)
  {
    ValidateForSubmission(d)
  }

  /** Work may start only once an estimated time is present. */
  function ValidateForWorkStart(d: ReportDetails): (r: Outcome<ValidationError>)
    ensures r.Fail? <==> d.estimatedTimeSeconds.None?
    ensures r.Fail? ==> r.error == EstimatedTimeRequired
  {
    if d.estimatedTimeSeconds.None? then Fail(EstimatedTimeRequired) else Pass
  }

  /** The submission checks do not look at the estimated time, and the
      work-start check looks at nothing else. */
  lemma ChecksReadDisjointFields(d: ReportDetails, t: Option<int>, c: Option<int>, x: Option<string>, y: Option<string>)
    ensures ValidateForSubmission(d.(estimatedTimeSeconds := t)) == ValidateForSubmission(d)
    ensures ValidateForWorkStart(ReportDetails(x, y, c, d.estimatedTimeSeconds)) == ValidateForWorkStart(d)
  {
  }
}
