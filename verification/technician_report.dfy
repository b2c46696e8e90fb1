/** TechnicianReport: the entity whose state object drives the report
    lifecycle. The state object itself is not persisted; the status column
    is, and loading a row rebuilds the state from it. */
module TechnicianReports {
  import opened Common
  import opened ReportValidation
  import opened ReportStates
  import opened ReportStateFactory

  /** The persisted columns of a report. The repair order is referenced by
      its id. */
  datatype ReportRow = ReportRow(
    reportId: Option<Uuid>,
    repairOrderId: Uuid,
    technicianId: Uuid,
    diagnosis: Option<string>,
    actionPlan: Option<string>,
    estimatedCost: Option<int>,
    estimatedTimeSeconds: Option<int>,
    status: Option<string>,
    lastUpdatedAt: Option<Instant>)

  function RowDetails(row: ReportRow): ReportDetails
  {
    ReportDetails(row.diagnosis, row.actionPlan, row.estimatedCost, row.estimatedTimeSeconds)
  }

  /** A row whose status the factory can turn back into a state. */
  predicate KnownStatus(row: ReportRow)
  {
    row.status.Some? && row.status.value in StateMap
  }

  /** The state a loaded row ends up in. */
  function RowState(row: ReportRow): (s: ReportState)
    requires KnownStatus(row)
    ensures row.status == Some(Name(s))
  {
    StateMap[row.status.value]
  }

  /** Saving a report after a transition: the same row with the new status
      and the time of the change; no other column moves. */
  function Advanced(row: ReportRow, s: ReportState, now: Instant): (r: ReportRow)
    ensures RowDetails(r) == RowDetails(row)
    ensures KnownStatus(r) && RowState(r) == s
    ensures r.reportId == row.reportId && r.repairOrderId == row.repairOrderId
    ensures r.technicianId == row.technicianId && r.lastUpdatedAt == Some(now)
  {
    CreateStateInvertsName(s);
    row.(status := Some(Name(s)), lastUpdatedAt := Some(now))
  }

  class TechnicianReport {
    var reportId: Option<Uuid>
    var repairOrderId: Uuid
    var technicianId: Uuid
    var diagnosis: Option<string>
    var actionPlan: Option<string>
    var estimatedCost: Option<int>
    var estimatedTimeSeconds: Option<int>
    var status: Option<string>
    var lastUpdatedAt: Option<Instant>
    var state: ReportState

    /** The fields the state objects validate. */
    function Details(): ReportDetails
      reads this
    {
      ReportDetails(diagnosis, actionPlan, estimatedCost, estimatedTimeSeconds)
    }

    /** The columns a save writes. */
    function Row(): (r: ReportRow)
      reads this
      ensures RowDetails(r) == Details()
      ensures r.status == status && r.lastUpdatedAt == lastUpdatedAt
    {
      ReportRow(reportId, repairOrderId, technicianId, diagnosis, actionPlan,
                estimatedCost, estimatedTimeSeconds, status, lastUpdatedAt)
    }

    /** The status column names the state object. */
    predicate Consistent()
      reads this
    {
      status == Some(Name(state))
    }

    /** TechnicianReport.builder()...build(): the given fields, the builder
        defaults DRAFT and DraftState, and no id or timestamp yet. */
    constructor Build(repairOrderId: Uuid, technicianId: Uuid, diagnosis: Option<string>,
                      actionPlan: Option<string>, estimatedCost: Option<int>,
                      estimatedTimeSeconds: Option<int>)
      ensures state == Draft && status == Some(DRAFT) && Consistent()
      ensures this.reportId == None && this.lastUpdatedAt == None
      ensures this.repairOrderId == repairOrderId && this.technicianId == technicianId
      ensures Details() == ReportDetails(diagnosis, actionPlan, estimatedCost, estimatedTimeSeconds)
    {
      this.reportId := None;
      this.repairOrderId := repairOrderId;
      this.technicianId := technicianId;
      this.diagnosis := diagnosis;
      this.actionPlan := actionPlan;
      this.estimatedCost := estimatedCost;
      this.estimatedTimeSeconds := estimatedTimeSeconds;
      this.status := Some(DRAFT);
      this.lastUpdatedAt := None;
      this.state := Draft;
    }

    /** Materialising a stored row: the columns are copied and the transient
        state keeps its field default until initializeState runs. */
    constructor Load(row: ReportRow)
      ensures Row() == row && state == Draft
    {
      reportId := row.reportId;
      repairOrderId := row.repairOrderId;
      technicianId := row.technicianId;
      diagnosis := row.diagnosis;
      actionPlan := row.actionPlan;
      estimatedCost := row.estimatedCost;
      estimatedTimeSeconds := row.estimatedTimeSeconds;
      status := row.status;
      lastUpdatedAt := row.lastUpdatedAt;
      state := Draft;
    }

    /** updateState: the new state, its name as status, and the time. */
    method UpdateState(newState: ReportState, now: Instant)
      modifies this
      ensures state == newState && status == Some(Name(newState)) && lastUpdatedAt == Some(now)
      ensures Consistent()
      ensures reportId == old(reportId) && repairOrderId == old(repairOrderId)
      ensures technicianId == old(technicianId) && Details() == old(Details())
    {
      state := newState;
      status := Some(Name(newState));
      lastUpdatedAt := Some(now);
    }

    /** The body shared by the five transitions: the capability test, the
        state's own transition, then updateState. A refused transition
        throws before updateState and leaves the report as it was. */
    method Perform(a: Action, now: Instant) returns (r: Outcome<TransitionError>)
      modifies this
      ensures var t := Transition(old(state), a, old(Details()));
              && (r.Pass? <==> t.Ok?)
              && (r.Fail? ==> r.error == t.error && unchanged(this))
              && (r.Pass? ==> state == t.value && Row() == Advanced(old(Row()), t.value, now))
      ensures r.Pass? ==> Consistent()
    {
      match Transition(state, a, Details())
      case Err(e) =>
        r := Fail(e);
      case Ok(next) =>
        UpdateState(next, now);
        r := Pass;
    }

    /** submit: only a draft, and only once the submission checks pass. */
    method Submit(now: Instant) returns (r: Outcome<TransitionError>)
      modifies this
      ensures r.Pass? <==> old(state) == Draft && ReadyForSubmission(old(Details()))
      ensures old(state) != Draft ==> r == Fail(IllegalTransition("submit", Name(old(state))))
      ensures r.Fail? ==> unchanged(this)
      ensures r.Pass? ==> state == Submitted && Row() == Advanced(old(Row()), Submitted, now)
    {
      r := Perform(Action.Submit, now);
    }

    /** approve: only a submitted report, re-running the submission checks. */
    method Approve(now: Instant) returns (r: Outcome<TransitionError>)
      modifies this
      ensures r.Pass? <==> old(state) == Submitted && ReadyForSubmission(old(Details()))
      ensures old(state) != Submitted ==> r == Fail(IllegalTransition("approve", Name(old(state))))
      ensures r.Fail? ==> unchanged(this)
      ensures r.Pass? ==> state == Approved && Row() == Advanced(old(Row()), Approved, now)
    {
      r := Perform(Action.Approve, now);
    }

    /** reject: only a submitted report. */
    method Reject(now: Instant) returns (r: Outcome<TransitionError>)
      modifies this
      ensures r.Pass? <==> old(state) == Submitted
      ensures r.Fail? ==> r == Fail(IllegalTransition("reject", Name(old(state)))) && unchanged(this)
      ensures r.Pass? ==> state == Rejected && Row() == Advanced(old(Row()), Rejected, now)
    {
      r := Perform(Action.Reject, now);
    }

    /** startWork: only an approved report that has an estimated time. */
    method StartWork(now: Instant) returns (r: Outcome<TransitionError>)
      modifies this
      ensures r.Pass? <==> old(state) == Approved && old(estimatedTimeSeconds).Some?
      ensures old(state) != Approved ==> r == Fail(IllegalTransition("start work", Name(old(state))))
      ensures r.Fail? ==> unchanged(this)
      ensures r.Pass? ==> state == InProgress && Row() == Advanced(old(Row()), InProgress, now)
    {
      r := Perform(Action.StartWork, now);
    }

    /** complete: only a report whose work is in progress. */
    method Complete(now: Instant) returns (r: Outcome<TransitionError>)
      modifies this
      ensures r.Pass? <==> old(state) == InProgress
      ensures r.Fail? ==> r == Fail(IllegalTransition("complete", Name(old(state)))) && unchanged(this)
      ensures r.Pass? ==> state == Completed && Row() == Advanced(old(Row()), Completed, now)
    {
      r := Perform(Action.Complete, now);
    }

    /** initializeState: rebuild the state object from the status column. */
    method InitializeState() returns (r: Outcome<FactoryError>)
      modifies this
      ensures r.Pass? <==> CreateState(old(status)).Ok?
      ensures r.Pass? ==> state == CreateState(old(status)).value
      ensures r.Fail? ==> r.error == CreateState(old(status)).error && state == old(state)
      ensures Row() == old(Row())
      ensures r.Pass? && old(status).Some? ==> Consistent()
    {
      match CreateState(status)
      case Err(e) =>
        r := Fail(e);
      case Ok(s) =>
        state := s;
        r := Pass;
    }

    function TechnicianCanModify(): (b: bool)
      reads this
      ensures b <==> state == Draft
    {
      ReportStates.TechnicianCanModify(state)
    }

    function CustomerCanSee(): (b: bool)
      reads this
      ensures b <==> state != Draft
    {
      ReportStates.CustomerCanSee(state)
    }

    /** validateReadPermissions: delegated to the state; reads the report
        and writes nothing. */
    function ValidateReadPermissions(): (r: Outcome<AccessError>)
      reads this
      ensures r.Fail? <==> !CustomerCanSee()
    {
      ReportStates.ValidateReadPermissions(state)
    }

    /** onCreate: fill in a missing id, timestamp and status; a present value
        is never overwritten. */
    method OnCreate(freshId: Uuid, now: Instant)
      modifies this
      ensures reportId == (if old(reportId).None? then Some(freshId) else old(reportId))
      ensures lastUpdatedAt == (if old(lastUpdatedAt).None? then Some(now) else old(lastUpdatedAt))
      ensures status == (if old(status).None? then Some(DRAFT) else old(status))
      ensures reportId.Some? && lastUpdatedAt.Some? && status.Some?
      ensures state == old(state) && Details() == old(Details())
      ensures repairOrderId == old(repairOrderId) && technicianId == old(technicianId)
    {
      if reportId.None? {
        reportId := Some(freshId);
      }
      if lastUpdatedAt.None? {
        lastUpdatedAt := Some(now);
      }
      if status.None? {
        status := Some(DRAFT);
      }
    }
  }

  /** Loading a row whose status is known always succeeds and yields a
      report whose state matches its status. */
  method LoadReport(row: ReportRow) returns (report: TechnicianReport)
    requires KnownStatus(row)
    ensures fresh(report) && report.Row() == row
    ensures report.state == RowState(row) && report.Consistent()
  {
    report := new TechnicianReport.Load(row);
    var init := report.InitializeState();
    match init
    case Fail(_) =>
      assert false;
    case Pass =>
  }
}
