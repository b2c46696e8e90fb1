/** RequestContext and PendingState: the state pattern that moves an
    accepted request on by action strings and keeps a log of its status
    changes. */
module RequestLifecycle {
  import opened Common
  import opened RequestRepositories

  /** StatusLog: one status change of one request, with the technician and
      the time it happened. */
  datatype StatusLog = StatusLog(
    requestId: int,
    oldStatus: RequestStatus,
    newStatus: RequestStatus,
    technicianId: Option<int>,
    timestamp: Instant)

  /** The state objects. PendingState and the reported state's estimate
      step are part of this model; the other states are represented by
      their status only. */
  datatype RequestState = PendingState | ReportedState | LaterState(status: RequestStatus)

  /** getStatus */
  function StatusOf(s: RequestState): (st: RequestStatus)
    ensures s == PendingState ==> st == Pending
    ensures s == ReportedState ==> st == Reported
  {
    match s
    case PendingState => Pending
    case ReportedState => Reported
    case LaterState(st) => st
  }

  const CREATE_REPORT: string := "create_report"
  const CREATE_ESTIMATE: string := "create_estimate"

  class RequestContext {
    var currentState: RequestState
    const request: IncomingRequest
    var statusLogs: seq<StatusLog>

    /** A new context is PENDING and has logged nothing. */
    constructor (request: IncomingRequest)
      ensures this.request == request
      ensures currentState == PendingState && statusLogs == []
      ensures CurrentStatus() == Pending && LastStatusLog().None?
    {
      this.request := request;
      currentState := PendingState;
      statusLogs := [];
    }

    /** getCurrentStatus */
    function CurrentStatus(): RequestStatus
      reads this
    {
      StatusOf(currentState)
    }

    /** logStatusChange: exactly one entry is appended, carrying the
        request's id and technician. */
    method LogStatusChange(oldStatus: RequestStatus, newStatus: RequestStatus, now: Instant)
      modifies this
      ensures statusLogs == old(statusLogs) + [StatusLog(request.requestId, oldStatus, newStatus, request.technicianId, now)]
      ensures currentState == old(currentState)
      ensures LastStatusLog() == Some(StatusLog(request.requestId, oldStatus, newStatus, request.technicianId, now))
    {
      statusLogs := statusLogs + [StatusLog(request.requestId, oldStatus, newStatus, request.technicianId, now)];
    }

    /** getLastStatusLog: nothing for an empty log, else the latest entry. */
    function LastStatusLog(): (r: Option<StatusLog>)
      reads this
      ensures r.None? <==> statusLogs == []
      ensures r.Some? ==> r.value == statusLogs[|statusLogs| - 1] && r.value in statusLogs
    {
      if |statusLogs| == 0 then None else Some(statusLogs[|statusLogs| - 1])
    }

    /** PendingState.processAction: "create_report" logs PENDING to REPORTED
        and yields the reported state; any other action yields the pending
        state itself and logs nothing. */
    method PendingProcessAction(action: string, now: Instant) returns (next: RequestState)
      modifies this
      ensures currentState == old(currentState)
      ensures action == CREATE_REPORT ==>
                && next == ReportedState
                && statusLogs == old(statusLogs) + [StatusLog(request.requestId, Pending, Reported, request.technicianId, now)]
      ensures action != CREATE_REPORT ==> next == PendingState && statusLogs == old(statusLogs)
    {
      if action == CREATE_REPORT {
        LogStatusChange(Pending, Reported, now);
        return ReportedState;
      }
      return PendingState;
    }

    /** The reported state's estimate step: "create_estimate" logs REPORTED
        to ESTIMATED and yields the estimated state. Any other action is
        taken to yield the reported state itself and log nothing. */
    method ReportedProcessAction(action: string, now: Instant) returns (next: RequestState)
      modifies this
      ensures currentState == old(currentState)
      ensures action == CREATE_ESTIMATE ==>
                && next == LaterState(Estimated)
                && statusLogs == old(statusLogs) + [StatusLog(request.requestId, Reported, Estimated, request.technicianId, now)]
      ensures action != CREATE_ESTIMATE ==> next == ReportedState && statusLogs == old(statusLogs)
    {
      if action == CREATE_ESTIMATE {
        LogStatusChange(Reported, Estimated, now);
        return LaterState(Estimated);
      }
      return ReportedState;
    }

    /** processAction: the current state decides the next one. */
    method ProcessAction(action: string, now: Instant)
      modifies this
      ensures old(currentState) == PendingState && action == CREATE_REPORT ==>
                && currentState == ReportedState
                && LastStatusLog() == Some(StatusLog(request.requestId, Pending, Reported, request.technicianId, now))
                && |statusLogs| == |old(statusLogs)| + 1
      ensures old(currentState) == PendingState && action != CREATE_REPORT ==>
                currentState == PendingState && statusLogs == old(statusLogs)
      ensures old(currentState) == ReportedState && action == CREATE_ESTIMATE ==>
                && currentState == LaterState(Estimated)
                && LastStatusLog() == Some(StatusLog(request.requestId, Reported, Estimated, request.technicianId, now))
                && |statusLogs| == |old(statusLogs)| + 1
      ensures |old(statusLogs)| <= |statusLogs| && statusLogs[..|old(statusLogs)|] == old(statusLogs)
    {
      match currentState
      case PendingState =>
        currentState := PendingProcessAction(action, now);
      case ReportedState =>
        currentState := ReportedProcessAction(action, now);
      case LaterState(_) =>
    }
  }
}
