/** The states of a technician report (the ReportState objects) and the
    lifecycle they form:
      DRAFT -> SUBMITTED -> APPROVED -> IN_PROGRESS -> COMPLETED
                         -> REJECTED
    Each state object carries no data, so each is a constructor here. */
module ReportStates {
  import opened Common
  import opened ReportValidation

  datatype ReportState = Draft | Submitted | Approved | Rejected | InProgress | Completed

  const DRAFT: string := "DRAFT"
  const SUBMITTED: string := "SUBMITTED"
  const APPROVED: string := "APPROVED"
  const REJECTED: string := "REJECTED"
  const IN_PROGRESS: string := "IN_PROGRESS"
  const COMPLETED: string := "COMPLETED"

  /** The status string each state reports through getName. */
  function Name(s: ReportState): (n: string)
    ensures n in {DRAFT, SUBMITTED, APPROVED, REJECTED, IN_PROGRESS, COMPLETED}
    ensures s == Draft <==> n == DRAFT
    ensures s == Rejected <==> n == REJECTED
  {
    match s
    case Draft => DRAFT
    case Submitted => SUBMITTED
    case Approved => APPROVED
    case Rejected => REJECTED
    case InProgress => IN_PROGRESS
    case Completed => COMPLETED
  }

  /** Two states never share a name, so the status string identifies the state. */
  lemma NameIsInjective(s: ReportState, t: ReportState)
    ensures Name(s) == Name(t) ==> s == t
  {
  }

  /** The permission flags every state inherits unless it overrides them. */
  const DefaultTechnicianCanModify: bool := false
  const DefaultCustomerCanSee: bool := true

  /** Only the draft overrides the default: its technician may still edit it. */
  predicate TechnicianCanModify(s: ReportState)
  {
    if s == Draft then true else DefaultTechnicianCanModify
  }

  /** Only the draft overrides the default: the customer cannot see it. */
  predicate CustomerCanSee(s: ReportState)
  {
    if s == Draft then false else DefaultCustomerCanSee
  }

  /** The draft is the one state that is editable and the one that is hidden. */
  lemma DraftIsTheOnlyPrivateState(s: ReportState)
    ensures TechnicianCanModify(s) <==> s == Draft
    ensures CustomerCanSee(s) <==> s != Draft
    ensures TechnicianCanModify(s) <==> !CustomerCanSee(s)
  {
  }

  /** IllegalAccessTechnicianReport(actor, action) */
  datatype AccessError = IllegalAccess(actor: string, action: string)

  /** validateReadPermissions: throws exactly when the customer may not see
      the report in this state, and reads nothing of the report. */
  function ValidateReadPermissions(s: ReportState): (r: Outcome<AccessError>)
    ensures r.Fail? <==> !CustomerCanSee(s)
    ensures r.Fail? <==> s == Draft
    ensures r.Fail? ==> r.error == IllegalAccess("Customer", "see report in " + Lower(Name(s)) + " state")
  {
    if !CustomerCanSee(s) then
      Fail(IllegalAccess("Customer", "see report in " + Lower(Name(s)) + " state"))
    else
      Pass
  }

  /** The draft's name as validateReadPermissions lower-cases it. */
  lemma DraftInLowerCase()
    ensures Lower(Name(Draft)) == "draft"
    ensures "see report in " + Lower(Name(Draft)) + " state" == "see report in draft state"
  {
    assert Lower(DRAFT)[0] == 'd' && Lower(DRAFT)[1] == 'r' && Lower(DRAFT)[2] == 'a';
    assert Lower(DRAFT)[3] == 'f' && Lower(DRAFT)[4] == 't';
  }

  /** The five transitions, and the capability interface (SubmittableState,
      ReviewableState, WorkableState, CompletableState) that offers each. */
  datatype Action = Submit | Approve | Reject | StartWork | Complete

  function ActionName(a: Action): string
  {
    match a
    case Submit => "submit"
    case Approve => "approve"
    case Reject => "reject"
    case StartWork => "start work"
    case Complete => "complete"
  }

  predicate IsSubmittable(s: ReportState) { s == Draft }
  predicate IsReviewable(s: ReportState) { s == Submitted }
  predicate IsWorkable(s: ReportState) { s == Approved }
  predicate IsCompletable(s: ReportState) { s == InProgress }

  /** The `instanceof` test in front of each transition. */
  predicate Offers(s: ReportState, a: Action)
  {
    match a
    case Submit => IsSubmittable(s)
    case Approve | Reject => IsReviewable(s)
    case StartWork => IsWorkable(s)
    case Complete => IsCompletable(s)
  }

  /** The state a successful transition enters. */
  function Target(a: Action): ReportState
  {
    match a
    case Submit => Submitted
    case Approve => Approved
    case Reject => Rejected
    case StartWork => InProgress
    case Complete => Completed
  }

  datatype TransitionError =
    | IllegalTransition(action: string, stateName: string)
    | Invalid(reason: ValidationError)

  /** DraftState.submit: a new SubmittedState, once the submission checks pass. */
  function DraftSubmit(d: ReportDetails): (r: Result<ReportState, ValidationError>)
    ensures r.Ok? <==> ReadyForSubmission(d)
    ensures r.Ok? ==> r.value == Submitted
    ensures r.Err? ==> ValidateForSubmission(d) == Fail(r.error)
  {
    match ValidateForSubmission(d)
    case Fail(e) => Err(e)
    case Pass => Ok(Submitted)
  }

  /** SubmittedState.approve, re-running the submission checks. */
  function SubmittedApprove(d: ReportDetails): (r: Result<ReportState, ValidationError>)
    ensures r.Ok? <==> ReadyForSubmission(d)
    ensures r.Ok? ==> r.value == Approved
  {
    match ValidateForApproval(d)
    case Fail(e) => Err(e)
    case Pass => Ok(Approved)
  }

  /** ApprovedState.startWork, guarded by the work-start check. */
  function ApprovedStartWork(d: ReportDetails): (r: Result<ReportState, ValidationError>)
    ensures r.Ok? <==> d.estimatedTimeSeconds.Some?
    ensures r.Ok? ==> r.value == InProgress
    ensures r.Err? ==> r.error == EstimatedTimeRequired
  {
    match ValidateForWorkStart(d)
    case Fail(e) => Err(e)
    case Pass => Ok(InProgress)
  }

  /** TechnicianReport.submit/approve/reject/startWork/complete: the
      capability test, then the state's own transition. */
  function Transition(s: ReportState, a: Action, d: ReportDetails): (r: Result<ReportState, TransitionError>)
    ensures !Offers(s, a) <==> r == Err(IllegalTransition(ActionName(a), Name(s)))
    ensures r.Ok? ==> Offers(s, a) && r.value == Target(a)
    ensures a == Submit ==> (r.Ok? <==> s == Draft && ReadyForSubmission(d))
    ensures a == Approve ==> (r.Ok? <==> s == Submitted && ReadyForSubmission(d))
    ensures a == Reject ==> (r.Ok? <==> s == Submitted)
    ensures a == StartWork ==> (r.Ok? <==> s == Approved && d.estimatedTimeSeconds.Some?)
    ensures a == Complete ==> (r.Ok? <==> s == InProgress)
  {
    if !Offers(s, a) then
      Err(IllegalTransition(ActionName(a), Name(s)))
    else
      var step :=
        match a
        case Submit => DraftSubmit(d)
        case Approve => SubmittedApprove(d)
        case Reject => Ok(Rejected)
        case StartWork => ApprovedStartWork(d)
        case Complete => Ok(Completed);
      match step
      case Err(e) => Err(Invalid(e))
      case Ok(t) => Ok(t)
  }

  /** A run of transitions, each with the report's fields at that moment;
      the first refused transition ends the run. */
  function Run(s: ReportState, steps: seq<(Action, ReportDetails)>): Result<ReportState, TransitionError>
    decreases |steps|
  {
    if steps == [] then Ok(s)
    else
      match Transition(s, steps[0].0, steps[0].1)
      case Err(e) => Err(e)
      case Ok(t) => Run(t, steps[1..])
  }

  /** How far along the lifecycle a state is. */
  function Stage(s: ReportState): nat
  {
    match s
    case Draft => 0
    case Submitted => 1
    case Approved => 2
    case Rejected => 2
    case InProgress => 3
    case Completed => 4
  }

  /** Every successful transition moves exactly one stage forward. */
  lemma TransitionAdvancesOneStage(s: ReportState, a: Action, d: ReportDetails)
    requires Transition(s, a, d).Ok?
    ensures Stage(Transition(s, a, d).value) == Stage(s) + 1
  {
  }

  /** A successful run of n transitions ends n stages further on, so no state
      is ever re-entered and a report goes through at most four transitions. */
  lemma {:induction false} RunAdvances(s: ReportState, steps: seq<(Action, ReportDetails)>)
    requires Run(s, steps).Ok?
    ensures Stage(Run(s, steps).value) == Stage(s) + |steps|
    ensures |steps| <= 4 - Stage(s)
    decreases |steps|
  {
    if steps != [] {
      var t := Transition(s, steps[0].0, steps[0].1);
      TransitionAdvancesOneStage(s, steps[0].0, steps[0].1);
      RunAdvances(t.value, steps[1..]);
    }
  }

  /** REJECTED and COMPLETED are final: no transition leaves them. */
  lemma FinalStatesStayFinal(s: ReportState, steps: seq<(Action, ReportDetails)>)
    requires s == Rejected || s == Completed
    requires Run(s, steps).Ok?
    ensures steps == [] && Run(s, steps).value == s
  {
  }

  /** A report reaches COMPLETED from DRAFT only along the full path
      submit, approve, start work, complete. */
  lemma {:induction false} CompletionFollowsTheFullPath(steps: seq<(Action, ReportDetails)>)
    requires Run(Draft, steps) == Ok(Completed)
    ensures |steps| == 4
    ensures steps[0].0 == Submit && steps[1].0 == Approve
    ensures steps[2].0 == StartWork && steps[3].0 == Complete
  {
    RunAdvances(Draft, steps);
    var s := Draft;
    var i := 0;
    while i < 4
      invariant 0 <= i <= 4 && Stage(s) == i
      invariant Run(s, steps[i..]) == Ok(Completed)
      invariant i >= 1 ==> steps[0].0 == Submit
      invariant i >= 2 ==> steps[1].0 == Approve
      invariant i >= 3 ==> steps[2].0 == StartWork
      invariant i >= 4 ==> steps[3].0 == Complete
    {
      assert steps[i..][1..] == steps[i + 1..];
      s := Transition(s, steps[i].0, steps[i].1).value;
      i := i + 1;
    }
  }
}
