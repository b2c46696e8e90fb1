/** TechnicianReportServiceImpl: who may create, edit, submit, review, start
    and complete a technician report, and what customers and technicians see
    of the reports. The report and repair-order tables are maps keyed by id;
    a loaded report is a fresh TechnicianReport object whose state is rebuilt
    from its status column, exactly as a JPA load with @PostLoad would do. */
module TechnicianReportService {
  import opened Common
  import opened ReportValidation
  import opened ReportStates
  import opened ReportStateFactory
  import opened TechnicianReports
  import opened DraftRequest
  import opened Entities

  datatype Role = CustomerRole | TechnicianRole | OtherRole

  /** AuthenticatedUser: the caller's id and role. */
  datatype User = User(id: Uuid, role: Role)

  /** The exceptions the service raises and turns into a failed response. */
  datatype ServiceError =
    | InvalidRequest(field: DraftError)
    | RepairOrderNotFound
    | RepairOrderNotPending
    | RepairOrderAlreadyHasReport
    | ReportDataNull
    | ReportNotFound
    | OnlyDraftsCanBeUpdated
    | ReportNotSubmitted
    | UnauthorizedUpdate
    | UnauthorizedAccess
    | OnlyApprovedCanStart
    | OnlyInProgressCanComplete
    | CustomerCannotViewDrafts
    | NoSubmissionsFound
    | Forbidden(access: AccessError)
    | RefusedTransition(transition: TransitionError)

  /** The message constants of the service. */
  function ServiceMessage(e: ServiceError): Option<string>
  {
    match e
    case InvalidRequest(f) => Some(DraftMessage(f))
    case RepairOrderNotFound => Some("Repair order not found")
    case RepairOrderNotPending => Some("Repair order is not in progress")
    case RepairOrderAlreadyHasReport => Some("Repair order already exists")
    case ReportDataNull => Some("Report data cannot be null")
    case ReportNotFound => Some("Technician report not found")
    case OnlyDraftsCanBeUpdated => Some("Only report drafts can be updated")
    case ReportNotSubmitted => Some("This report is not in submitted state")
    case UnauthorizedUpdate => Some("You are not authorized to update this report")
    case UnauthorizedAccess => Some("You are not authorized to access this report")
    case OnlyApprovedCanStart => Some("Only approved reports can be started")
    case OnlyInProgressCanComplete => Some("Only reports in progress can be completed")
    case CustomerCannotViewDrafts => Some("Only report above Draft can be seen by Customer")
    case NoSubmissionsFound => Some("No technician report submissions found")
    case Forbidden(_) => None
    case RefusedTransition(_) => None
  }

  /** A report that still blocks a new one for its order: the query
      `status <> 'REJECTED'` matches only non-null statuses. */
  predicate Live(row: ReportRow)
  {
    row.status.Some? && row.status.value != REJECTED
  }

  /** existsByRepairOrderIdAndStatusNot(orderId, REJECTED) */
  predicate HasLiveReport(reports: map<Uuid, ReportRow>, orderId: Uuid)
  {
    exists k :: k in reports && reports[k].repairOrderId == orderId && Live(reports[k])
  }

  /** No order has two live reports: the rule that
      validateNoExistingNonRejectedReport enforces on creation. */
  ghost predicate OneLivePerOrder(reports: map<Uuid, ReportRow>)
  {
    forall k1, k2 :: (k1 in reports && k2 in reports && Live(reports[k1]) && Live(reports[k2])
                      && reports[k1].repairOrderId == reports[k2].repairOrderId) ==> k1 == k2
  }

  /** StringUtils.upperCase, which passes null through. */
  function UpperOpt(s: Option<string>): Option<string>
  {
    if s.None? then None else Some(Upper(s.value))
  }

  /** Finding the order, validateRepairOrderForReportCreation and
      validateNoExistingNonRejectedReport, in that order. */
  function CheckReportCreation(orders: map<Uuid, RepairOrder>, reports: map<Uuid, ReportRow>,
                               orderId: Uuid, caller: Uuid): (r: Outcome<ServiceError>)
    ensures r.Pass? <==> orderId in orders && orders[orderId].status == PendingConfirmation
                         && orders[orderId].technicianId == caller && !HasLiveReport(reports, orderId)
    ensures orderId !in orders ==> r == Fail(RepairOrderNotFound)
    ensures orderId in orders && orders[orderId].status != PendingConfirmation ==> r == Fail(RepairOrderNotPending)
    ensures (orderId in orders && orders[orderId].status == PendingConfirmation && orders[orderId].technicianId != caller)
              ==> r == Fail(Forbidden(IllegalAccess("Technician", "create a report based on this repair order")))
    ensures (orderId in orders && orders[orderId].status == PendingConfirmation && orders[orderId].technicianId == caller
             && HasLiveReport(reports, orderId)) ==> r == Fail(RepairOrderAlreadyHasReport)
  {
    if orderId !in orders then Fail(RepairOrderNotFound)
    else if orders[orderId].status != PendingConfirmation then Fail(RepairOrderNotPending)
    else if orders[orderId].technicianId != caller then
      Fail(Forbidden(IllegalAccess("Technician", "create a report based on this repair order")))
    else if HasLiveReport(reports, orderId) then Fail(RepairOrderAlreadyHasReport)
    else Pass
  }

  /** validateTechnicianCanUpdateReport: the report's own technician, and a
      state that lets the technician modify it (only the draft). */
  function CheckTechnicianCanUpdate(technicianId: Uuid, state: ReportState, caller: Uuid): (r: Outcome<ServiceError>)
    ensures r.Pass? <==> technicianId == caller && state == Draft
    ensures technicianId != caller ==> r == Fail(Forbidden(IllegalAccess("Technician", "update this report")))
    ensures technicianId == caller && state != Draft ==> r == Fail(OnlyDraftsCanBeUpdated)
  {
    if technicianId != caller then Fail(Forbidden(IllegalAccess("Technician", "update this report")))
    else if !ReportStates.TechnicianCanModify(state) then Fail(OnlyDraftsCanBeUpdated)
    else Pass
  }

  /** validateCustomerOwnsReportAndCanAct: the customer of the report's
      order, and a report whose status is SUBMITTED. */
  function CheckCustomerCanAct(orderCustomerId: Uuid, status: Option<string>, caller: Uuid): (r: Outcome<ServiceError>)
    ensures r.Pass? <==> orderCustomerId == caller && status == Some(SUBMITTED)
    ensures orderCustomerId != caller ==> r == Fail(Forbidden(IllegalAccess("Customer", "perform this action on the report")))
    ensures orderCustomerId == caller && status != Some(SUBMITTED) ==> r == Fail(ReportNotSubmitted)
  {
    if orderCustomerId != caller then Fail(Forbidden(IllegalAccess("Customer", "perform this action on the report")))
    else if status != Some(SUBMITTED) then Fail(ReportNotSubmitted)
    else Pass
  }

  /** validateTechnicianCanStartWork: the report's technician and APPROVED. */
  function CheckTechnicianCanStartWork(technicianId: Uuid, status: Option<string>, caller: Uuid): (r: Outcome<ServiceError>)
    ensures r.Pass? <==> technicianId == caller && status == Some(APPROVED)
    ensures technicianId != caller ==> r == Fail(UnauthorizedUpdate)
    ensures technicianId == caller && status != Some(APPROVED) ==> r == Fail(OnlyApprovedCanStart)
  {
    if technicianId != caller then Fail(UnauthorizedUpdate)
    else if status != Some(APPROVED) then Fail(OnlyApprovedCanStart)
    else Pass
  }

  /** validateTechnicianCanCompleteWork: the report's technician and IN_PROGRESS. */
  function CheckTechnicianCanComplete(technicianId: Uuid, status: Option<string>, caller: Uuid): (r: Outcome<ServiceError>)
    ensures r.Pass? <==> technicianId == caller && status == Some(IN_PROGRESS)
    ensures technicianId != caller ==> r == Fail(UnauthorizedUpdate)
    ensures technicianId == caller && status != Some(IN_PROGRESS) ==> r == Fail(OnlyInProgressCanComplete)
  {
    if technicianId != caller then Fail(UnauthorizedUpdate)
    else if status != Some(IN_PROGRESS) then Fail(OnlyInProgressCanComplete)
    else Pass
  }

  /** validateCustomerCanViewStatus: the status filter may not name the
      draft in any letter case. */
  function CheckCustomerCanViewStatus(status: Option<string>): (r: Outcome<ServiceError>)
    ensures r.Fail? <==> UpperOpt(status) == Some(DRAFT)
    ensures r.Fail? ==> r.error == CustomerCannotViewDrafts
  {
    if UpperOpt(status) == Some(DRAFT) then Fail(CustomerCannotViewDrafts) else Pass
  }

  /** validateUserCanViewReport as written: a customer must own the order,
      a technician must own the report; the customer-visibility flag of the
      state is computed and then discarded. */
  function CheckUserCanViewReportAsWritten(user: User, orderCustomerId: Uuid, technicianId: Uuid,
                                           state: ReportState): (r: Outcome<ServiceError>)
    ensures r.Pass? <==> (user.role == CustomerRole ==> orderCustomerId == user.id)
                         && (user.role == TechnicianRole ==> technicianId == user.id)
    ensures r.Fail? ==> r.error == UnauthorizedAccess
  {
    if user.role == CustomerRole then
      if orderCustomerId != user.id then Fail(UnauthorizedAccess) else Pass
    else if user.role == TechnicianRole && technicianId != user.id then Fail(UnauthorizedAccess)
    else Pass
  }

  /** The as-written check lets the order's customer read a draft, which
      the state says the customer cannot see. */
  lemma CustomerReadsDraftAsWritten(customer: Uuid, technician: Uuid)
    ensures !ReportStates.CustomerCanSee(Draft)
    ensures CheckUserCanViewReportAsWritten(User(customer, CustomerRole), customer, technician, Draft).Pass?
  {
  }

  /** validateUserCanViewReport with the visibility flag enforced: the
      customer check ends with the state's validateReadPermissions. */
  function CheckUserCanViewReport(user: User, orderCustomerId: Uuid, technicianId: Uuid,
                                  state: ReportState): (r: Outcome<ServiceError>)
    ensures r.Pass? <==> (user.role == CustomerRole ==> orderCustomerId == user.id && ReportStates.CustomerCanSee(state))
                         && (user.role == TechnicianRole ==> technicianId == user.id)
    ensures (user.role == CustomerRole && orderCustomerId == user.id && state == Draft)
              ==> r == Fail(Forbidden(IllegalAccess("Customer", "see report in draft state")))
  {
    if user.role == CustomerRole then
      if orderCustomerId != user.id then Fail(UnauthorizedAccess)
      else
        DraftInLowerCase();
        match ReportStates.ValidateReadPermissions(state)
        case Fail(e) => Fail(Forbidden(e))
        case Pass => Pass
    else if user.role == TechnicianRole && technicianId != user.id then Fail(UnauthorizedAccess)
    else Pass
  }

  /** The corrected check refuses exactly what the as-written one refuses,
      plus a customer reading a report the state hides. */
  lemma ViewCheckOnlyAddsVisibility(user: User, orderCustomerId: Uuid, technicianId: Uuid, state: ReportState)
    ensures CheckUserCanViewReport(user, orderCustomerId, technicianId, state).Pass? <==>
              CheckUserCanViewReportAsWritten(user, orderCustomerId, technicianId, state).Pass?
              && (user.role == CustomerRole ==> state != Draft)
  {
  }

  /** NullPointerException: the cost line dereferences a missing coupon. */
  datatype NullDereference = NullDereference

  /** The cost shown to a customer, as written: the estimated cost minus the
      discount of the order's coupon. A missing coupon, or a coupon whose
      discount is null, is dereferenced and throws; the exception is not one
      the query catches. A null cost is shown as null. */
  function CustomerCostAsWritten(cost: Option<int>, coupon: Option<Coupon>): (r: Result<Option<int>, NullDereference>)
    ensures r.Ok? <==> coupon.Some? && coupon.value.discountAmount.Some?
    ensures r.Ok? ==> r.value == (if cost.None? then None else Some(cost.value - coupon.value.discountAmount.value))
  {
    if coupon.None? || coupon.value.discountAmount.None? then Err(NullDereference)
    else if cost.None? then Ok(None)
    else Ok(Some(cost.value - coupon.value.discountAmount.value))
  }

  /** An order placed without a coupon makes the customer's report query fail. */
  lemma CouponlessOrderBreaksCustomerQuery(cost: Option<int>)
    ensures CustomerCostAsWritten(cost, None).Err?
  {
  }

  /** The evidently intended cost: the discount applies when there is one,
      and an order without a coupon shows the estimated cost unchanged. */
  function CustomerCost(cost: Option<int>, coupon: Option<Coupon>): (r: Option<int>)
    ensures cost.None? ==> r.None?
    ensures cost.Some? && (coupon.None? || coupon.value.discountAmount.None?) ==> r == cost
    ensures CustomerCostAsWritten(cost, coupon).Ok? ==> r == CustomerCostAsWritten(cost, coupon).value
  {
    if cost.None? then None
    else if coupon.None? || coupon.value.discountAmount.None? then cost
    else Some(cost.value - coupon.value.discountAmount.value)
  }

  class TechnicianReportService {
    var reports: map<Uuid, ReportRow>
    var orders: map<Uuid, RepairOrder>
    var coupons: map<Uuid, Coupon>

    /** Every stored report is filed under its own id, has a status the
        factory knows, belongs to a stored order, and no order has two live
        reports. */
    ghost predicate Valid()
      reads this
    {
      && (forall k :: k in reports ==> reports[k].reportId == Some(k) && KnownStatus(reports[k])
                                       && reports[k].repairOrderId in orders)
      && (forall o :: o in orders && orders[o].couponId.Some? ==> orders[o].couponId.value in coupons)
      && OneLivePerOrder(reports)
    }

    constructor (orders: map<Uuid, RepairOrder>, coupons: map<Uuid, Coupon>)
      requires forall o :: o in orders && orders[o].couponId.Some? ==> orders[o].couponId.value in coupons
      ensures Valid() && reports == map[] && this.orders == orders && this.coupons == coupons
    {
      this.reports := map[];
      this.orders := orders;
      this.coupons := coupons;
    }

    /** findTechnicianReportById: a null id and an unknown id are refused. */
    function Find(reportId: Option<Uuid>): (r: Result<ReportRow, ServiceError>)
      reads this
      ensures reportId.None? ==> r == Err(ReportDataNull)
      ensures reportId.Some? ==> (r.Ok? <==> reportId.value in reports)
      ensures reportId.Some? && reportId.value !in reports ==> r == Err(ReportNotFound)
      ensures r.Ok? ==> r.value == reports[reportId.value]
      ensures r.Err? ==> r.error in {ReportDataNull, ReportNotFound}
    {
      if reportId.None? then Err(ReportDataNull)
      else if reportId.value !in reports then Err(ReportNotFound)
      else Ok(reports[reportId.value])
    }

    /** createTechnicianReportDraft: a new DRAFT report for an order that is
        awaiting confirmation, is assigned to the caller and has no live
        report yet. `orderId` is the request's repairOrderId parsed as a
        UUID; `freshId` is the random report id. */
    method CreateDraft(request: CreateDraftRequest, orderId: Uuid, technician: User,
                       freshId: Uuid, now: Instant) returns (r: Result<ReportRow, ServiceError>)
      requires Valid() && freshId !in reports
      modifies this
      ensures Valid() && orders == old(orders) && coupons == old(coupons)
      ensures Validate(request).Fail? ==> r == Err(InvalidRequest(Validate(request).error))
      ensures r.Ok? <==> Validate(request).Pass? && CheckReportCreation(old(orders), old(reports), orderId, technician.id).Pass?
      ensures Validate(request).Pass? && CheckReportCreation(old(orders), old(reports), orderId, technician.id).Fail? ==>
                r == Err(CheckReportCreation(old(orders), old(reports), orderId, technician.id).error)
      ensures r.Ok? ==> r.value == ReportRow(Some(freshId), orderId, technician.id, request.diagnosis,
                                             request.actionPlan, request.estimatedCost,
                                             request.estimatedTimeSeconds, Some(DRAFT), Some(now))
                        && reports == old(reports)[freshId := r.value]
      ensures r.Err? ==> reports == old(reports)
    {
      var valid := Validate(request);
      if valid.Fail? {
        return Err(InvalidRequest(valid.error));
      }
      var check := CheckReportCreation(orders, reports, orderId, technician.id);
      if check.Fail? {
        return Err(check.error);
      }
      var report := new TechnicianReport.Build(orderId, technician.id, request.diagnosis, request.actionPlan,
                                               request.estimatedCost, request.estimatedTimeSeconds);
      report.reportId := Some(freshId);
      report.OnCreate(freshId, now);
      var row := report.Row();
      reports := reports[freshId := row];
      r := Ok(row);
    }

    /** updateTechnicianReportDraft: the report's technician rewrites the four
        draft fields of a draft; nothing else changes. */
    method UpdateDraft(reportId: Option<Uuid>, request: CreateDraftRequest, technician: User)
      returns (r: Result<ReportRow, ServiceError>)
      requires Valid()
      modifies this
      ensures Valid() && orders == old(orders) && coupons == old(coupons)
      ensures Validate(request).Fail? ==> r == Err(InvalidRequest(Validate(request).error))
      ensures Validate(request).Pass? && old(Find(reportId)).Err? ==> r == Err(old(Find(reportId)).error)
      ensures Validate(request).Pass? && old(Find(reportId)).Ok? ==>
                var row := old(reports)[reportId.value];
                var guard := CheckTechnicianCanUpdate(row.technicianId, RowState(row), technician.id);
                guard.Fail? ==> r == Err(guard.error)
      ensures r.Ok? <==> Validate(request).Pass? && old(Find(reportId)).Ok?
                         && CheckTechnicianCanUpdate(old(Find(reportId)).value.technicianId,
                                                     RowState(old(Find(reportId)).value), technician.id).Pass?
      ensures r.Ok? ==> r.value == old(reports)[reportId.value].(diagnosis := request.diagnosis,
                                    actionPlan := request.actionPlan, estimatedCost := request.estimatedCost,
                                    estimatedTimeSeconds := request.estimatedTimeSeconds)
                        && reports == old(reports)[reportId.value := r.value]
      ensures r.Err? ==> reports == old(reports)
    {
      var valid := Validate(request);
      if valid.Fail? {
        return Err(InvalidRequest(valid.error));
      }
      var found := Find(reportId);
      if found.Err? {
        return Err(found.error);
      }
      var row := found.value;
      var report := LoadReport(row);
      var guard := CheckTechnicianCanUpdate(report.technicianId, report.state, technician.id);
      if guard.Fail? {
        return Err(guard.error);
      }
      report.diagnosis := request.diagnosis;
      report.actionPlan := request.actionPlan;
      report.estimatedCost := request.estimatedCost;
      report.estimatedTimeSeconds := request.estimatedTimeSeconds;
      var saved := report.Row();
      reports := reports[reportId.value := saved];
      r := Ok(saved);
    }

    /** deleteTechnicianReportDraft: the report's technician removes a draft. */
    method DeleteDraft(reportId: Option<Uuid>, technician: User) returns (r: Result<ReportRow, ServiceError>)
      requires Valid()
      modifies this
      ensures Valid() && orders == old(orders) && coupons == old(coupons)
      ensures old(Find(reportId)).Err? ==> r == Err(old(Find(reportId)).error)
      ensures old(Find(reportId)).Ok? ==>
                var row := old(reports)[reportId.value];
                var guard := CheckTechnicianCanUpdate(row.technicianId, RowState(row), technician.id);
                guard.Fail? ==> r == Err(guard.error)
      ensures r.Ok? <==> old(Find(reportId)).Ok?
                         && CheckTechnicianCanUpdate(old(Find(reportId)).value.technicianId,
                                                     RowState(old(Find(reportId)).value), technician.id).Pass?
      ensures r.Ok? ==> r.value == old(reports)[reportId.value] && reports == old(reports) - {reportId.value}
      ensures r.Err? ==> reports == old(reports)
    {
      var found := Find(reportId);
      if found.Err? {
        return Err(found.error);
      }
      var row := found.value;
      var report := LoadReport(row);
      var guard := CheckTechnicianCanUpdate(report.technicianId, report.state, technician.id);
      if guard.Fail? {
        return Err(guard.error);
      }
      reports := reports - {reportId.value};
      r := Ok(row);
    }

    /** Loads the report, runs one transition on it and saves it. */
    method Advance(key: Uuid, a: Action, now: Instant) returns (r: Result<ReportRow, ServiceError>)
      requires Valid() && key in reports
      modifies this
      ensures Valid() && orders == old(orders) && coupons == old(coupons)
      ensures var t := Transition(RowState(old(reports)[key]), a, RowDetails(old(reports)[key]));
              && (r.Ok? <==> t.Ok?)
              && (r.Err? ==> r.error == RefusedTransition(t.error) && reports == old(reports))
              && (r.Ok? ==> r.value == Advanced(old(reports)[key], t.value, now)
                            && reports == old(reports)[key := r.value])
    {
      var report := LoadReport(reports[key]);
      var outcome := report.Perform(a, now);
      if outcome.Fail? {
        return Err(RefusedTransition(outcome.error));
      }
      var saved := report.Row();
      LiveAfterTransition(reports, key, a, now);
      reports := reports[key := saved];
      r := Ok(saved);
    }

    /** submitTechnicianReportDraft: the report's technician submits a draft
        that passes the submission checks. */
    method SubmitDraft(reportId: Option<Uuid>, technician: User, now: Instant) returns (r: Result<ReportRow, ServiceError>)
      requires Valid()
      modifies this
      ensures Valid() && orders == old(orders) && coupons == old(coupons)
      ensures old(Find(reportId)).Err? ==> r == Err(old(Find(reportId)).error)
      ensures old(Find(reportId)).Ok? ==>
                var row := old(reports)[reportId.value];
                var guard := CheckTechnicianCanUpdate(row.technicianId, RowState(row), technician.id);
                && (guard.Fail? ==> r == Err(guard.error))
                && (guard.Pass? && Transition(RowState(row), Action.Submit, RowDetails(row)).Err? ==>
                      r == Err(RefusedTransition(Transition(RowState(row), Action.Submit, RowDetails(row)).error)))
      ensures r.Ok? <==> old(Find(reportId)).Ok? && old(reports)[reportId.value].technicianId == technician.id
                         && RowState(old(reports)[reportId.value]) == Draft
                         && ReadyForSubmission(RowDetails(old(reports)[reportId.value]))
      ensures r.Ok? ==> r.value == Advanced(old(reports)[reportId.value], Submitted, now)
                        && reports == old(reports)[reportId.value := r.value]
      ensures r.Err? ==> reports == old(reports)
    {
      var found := Find(reportId);
      if found.Err? {
        return Err(found.error);
      }
      var row := found.value;
      var report := LoadReport(row);
      var guard := CheckTechnicianCanUpdate(report.technicianId, report.state, technician.id);
      if guard.Fail? {
        return Err(guard.error);
      }
      r := Advance(reportId.value, Action.Submit, now);
    }

    /** acceptTechnicianReportSubmit / rejectTechnicianReportSubmit: the
        customer of the report's order approves or rejects a SUBMITTED
        report; approval re-runs the submission checks. */
    method Review(reportId: Option<Uuid>, customer: User, approve: bool, now: Instant)
      returns (r: Result<ReportRow, ServiceError>)
      requires Valid()
      modifies this
      ensures Valid() && orders == old(orders) && coupons == old(coupons)
      ensures old(Find(reportId)).Err? ==> r == Err(old(Find(reportId)).error)
      ensures old(Find(reportId)).Ok? ==>
                var row := old(reports)[reportId.value];
                var guard := CheckCustomerCanAct(old(orders)[row.repairOrderId].customerId, row.status, customer.id);
                && (guard.Fail? ==> r == Err(guard.error))
                && (guard.Pass? && Transition(RowState(row), (if approve then Action.Approve else Action.Reject), RowDetails(row)).Err? ==>
                      r == Err(RefusedTransition(Transition(RowState(row), (if approve then Action.Approve else Action.Reject), RowDetails(row)).error)))
      ensures r.Ok? <==> old(Find(reportId)).Ok?
                         && old(orders)[old(reports)[reportId.value].repairOrderId].customerId == customer.id
                         && RowState(old(reports)[reportId.value]) == Submitted
                         && (approve ==> ReadyForSubmission(RowDetails(old(reports)[reportId.value])))
      ensures r.Ok? ==> r.value == Advanced(old(reports)[reportId.value], if approve then Approved else Rejected, now)
                        && reports == old(reports)[reportId.value := r.value]
      ensures r.Err? ==> reports == old(reports)
    {
      var found := Find(reportId);
      if found.Err? {
        return Err(found.error);
      }
      var row := found.value;
      var guard := CheckCustomerCanAct(orders[row.repairOrderId].customerId, row.status, customer.id);
      if guard.Fail? {
        return Err(guard.error);
      }
      r := Advance(reportId.value, if approve then Action.Approve else Action.Reject, now);
    }

    /** startWork: the report's technician starts an APPROVED report that has
        an estimated time; the order moves to IN_PROGRESS with it. */
    method StartWork(reportId: Option<Uuid>, technician: User, now: Instant) returns (r: Result<ReportRow, ServiceError>)
      requires Valid()
      modifies this
      ensures Valid() && coupons == old(coupons)
      ensures old(Find(reportId)).Err? ==> r == Err(old(Find(reportId)).error)
      ensures old(Find(reportId)).Ok? ==>
                var row := old(reports)[reportId.value];
                var guard := CheckTechnicianCanStartWork(row.technicianId, row.status, technician.id);
                && (guard.Fail? ==> r == Err(guard.error))
                && (guard.Pass? && Transition(RowState(row), Action.StartWork, RowDetails(row)).Err? ==>
                      r == Err(RefusedTransition(Transition(RowState(row), Action.StartWork, RowDetails(row)).error)))
      ensures r.Ok? <==> old(Find(reportId)).Ok? && old(reports)[reportId.value].technicianId == technician.id
                         && RowState(old(reports)[reportId.value]) == Approved
                         && old(reports)[reportId.value].estimatedTimeSeconds.Some?
      ensures r.Ok? ==> r.value == Advanced(old(reports)[reportId.value], InProgress, now)
                        && reports == old(reports)[reportId.value := r.value]
                        && orders == old(orders)[r.value.repairOrderId :=
                                                   old(orders)[r.value.repairOrderId].(status := OrderInProgress)]
      ensures r.Err? ==> reports == old(reports) && orders == old(orders)
    {
      var found := Find(reportId);
      if found.Err? {
        return Err(found.error);
      }
      var row := found.value;
      var guard := CheckTechnicianCanStartWork(row.technicianId, row.status, technician.id);
      if guard.Fail? {
        return Err(guard.error);
      }
      var order := orders[row.repairOrderId].(status := OrderInProgress);
      r := Advance(reportId.value, Action.StartWork, now);
      if r.Ok? {
        orders := orders[row.repairOrderId := order];
      }
    }

    /** completeWork: the report's technician completes an IN_PROGRESS report;
        the order moves to COMPLETED with it. */
    method CompleteWork(reportId: Option<Uuid>, technician: User, now: Instant) returns (r: Result<ReportRow, ServiceError>)
      requires Valid()
      modifies this
      ensures Valid() && coupons == old(coupons)
      ensures old(Find(reportId)).Err? ==> r == Err(old(Find(reportId)).error)
      ensures old(Find(reportId)).Ok? ==>
                var row := old(reports)[reportId.value];
                var guard := CheckTechnicianCanComplete(row.technicianId, row.status, technician.id);
                && (guard.Fail? ==> r == Err(guard.error))
                && (guard.Pass? && Transition(RowState(row), Action.Complete, RowDetails(row)).Err? ==>
                      r == Err(RefusedTransition(Transition(RowState(row), Action.Complete, RowDetails(row)).error)))
      ensures r.Ok? <==> old(Find(reportId)).Ok? && old(reports)[reportId.value].technicianId == technician.id
                         && RowState(old(reports)[reportId.value]) == InProgress
      ensures r.Ok? ==> r.value == Advanced(old(reports)[reportId.value], Completed, now)
                        && reports == old(reports)[reportId.value := r.value]
                        && orders == old(orders)[r.value.repairOrderId :=
                                                   old(orders)[r.value.repairOrderId].(status := OrderCompleted)]
      ensures r.Err? ==> reports == old(reports) && orders == old(orders)
    {
      var found := Find(reportId);
      if found.Err? {
        return Err(found.error);
      }
      var row := found.value;
      var guard := CheckTechnicianCanComplete(row.technicianId, row.status, technician.id);
      if guard.Fail? {
        return Err(guard.error);
      }
      r := Advance(reportId.value, Action.Complete, now);
      if r.Ok? {
        orders := orders[row.repairOrderId := orders[row.repairOrderId].(status := OrderCompleted)];
      }
    }

    /** getTechnicianReportByStatusForTechnician: the caller's reports whose
        status equals the upper-cased filter. */
    function ReportsByStatusForTechnician(status: Option<string>, technician: User): (r: map<Uuid, ReportRow>)
      reads this
      ensures forall k :: k in r <==> k in reports && reports[k].technicianId == technician.id
                                      && reports[k].status == UpperOpt(status)
      ensures forall k :: k in r ==> r[k] == reports[k]
    {
      map k | k in reports && reports[k].technicianId == technician.id && reports[k].status == UpperOpt(status)
        :: reports[k]
    }

    /** The report as a customer sees it: the cost net of the coupon. */
    function CustomerView(row: ReportRow): (v: ReportRow)
      requires row.repairOrderId in orders
      requires orders[row.repairOrderId].couponId.Some? ==> orders[row.repairOrderId].couponId.value in coupons
      reads this
      ensures v == row.(estimatedCost := v.estimatedCost)
    {
      var order := orders[row.repairOrderId];
      var coupon := if order.couponId.None? then None else Some(coupons[order.couponId.value]);
      row.(estimatedCost := CustomerCost(row.estimatedCost, coupon))
    }

    /** getTechnicianReportByStatusForCustomer: a non-draft status filter, the
        reports of the caller's own orders with that status, each with its
        discounted cost; an empty result is a failed response. */
    function ReportsByStatusForCustomer(status: Option<string>, customer: User): (r: Result<map<Uuid, ReportRow>, ServiceError>)
      requires Valid()
      reads this
      ensures UpperOpt(status) == Some(DRAFT) ==> r == Err(CustomerCannotViewDrafts)
      ensures r.Ok? ==> |r.value| > 0
      ensures r.Ok? ==> forall k :: k in r.value <==> k in reports && reports[k].status == UpperOpt(status)
                                                      && orders[reports[k].repairOrderId].customerId == customer.id
      ensures r.Ok? ==> forall k :: k in r.value ==> r.value[k] == CustomerView(reports[k])
      ensures r.Err? ==> r.error in {CustomerCannotViewDrafts, NoSubmissionsFound}
      ensures UpperOpt(status) != Some(DRAFT) ==>
                (r.Ok? <==> exists k :: k in reports && reports[k].status == UpperOpt(status)
                                        && orders[reports[k].repairOrderId].customerId == customer.id)
      ensures UpperOpt(status) != Some(DRAFT) && r.Err? ==> r.error == NoSubmissionsFound
    {
      if CheckCustomerCanViewStatus(status).Fail? then Err(CustomerCannotViewDrafts)
      else
        var found := map k | k in reports && reports[k].status == UpperOpt(status)
                             && orders[reports[k].repairOrderId].customerId == customer.id
                       :: CustomerView(reports[k]);
        if |found| == 0 then
          assert forall k :: (k in reports && reports[k].status == UpperOpt(status)
                              && orders[reports[k].repairOrderId].customerId == customer.id) ==> k in found;
          Err(NoSubmissionsFound)
        else Ok(found)
    }

    /** getTechnicianReportById: the report, if the caller may read it. */
    function ReportById(reportId: Option<Uuid>, user: User): (r: Result<ReportRow, ServiceError>)
      requires Valid()
      reads this
      ensures r.Ok? <==> Find(reportId).Ok?
                         && CheckUserCanViewReport(user, orders[reports[reportId.value].repairOrderId].customerId,
                                                   reports[reportId.value].technicianId,
                                                   RowState(reports[reportId.value])).Pass?
      ensures r.Ok? ==> r.value == reports[reportId.value]
      ensures r.Ok? && user.role == CustomerRole ==> r.value.status != Some(DRAFT)
    {
      match Find(reportId)
      case Err(e) => Err(e)
      case Ok(row) =>
        match CheckUserCanViewReport(user, orders[row.repairOrderId].customerId, row.technicianId, RowState(row))
        case Fail(e) => Err(e)
        case Pass => Ok(row)
    }

    /** getRepairOrderByTechnicianId: the caller's orders still awaiting
        confirmation. */
    function PendingOrdersOfTechnician(user: User): (r: map<Uuid, RepairOrder>)
      reads this
      ensures forall o :: o in r <==> o in orders && orders[o].technicianId == user.id
                                      && orders[o].status == PendingConfirmation
      ensures forall o :: o in r ==> r[o] == orders[o]
    {
      map o | o in orders && orders[o].technicianId == user.id && orders[o].status == PendingConfirmation :: orders[o]
    }
  }

  /** Saving a report after a successful transition gives no order a live
      report it did not have, and keeps every order down to one live report:
      no transition leaves REJECTED, so the saved report is live only if it
      was live before. */
  lemma {:induction false} LiveAfterTransition(reports: map<Uuid, ReportRow>, key: Uuid, a: Action, now: Instant)
    requires key in reports && KnownStatus(reports[key])
    requires Transition(RowState(reports[key]), a, RowDetails(reports[key])).Ok?
    ensures var saved := Advanced(reports[key], Transition(RowState(reports[key]), a, RowDetails(reports[key])).value, now);
            && (forall o :: HasLiveReport(reports[key := saved], o) ==> HasLiveReport(reports, o))
            && (OneLivePerOrder(reports) ==> OneLivePerOrder(reports[key := saved]))
  {
    var before := reports[key];
    var saved := Advanced(before, Transition(RowState(before), a, RowDetails(before)).value, now);
    assert RowState(before) != Rejected;
    assert Live(before);
    var after := reports[key := saved];
    forall o | HasLiveReport(after, o)
      ensures HasLiveReport(reports, o)
    {
      var k :| k in after && after[k].repairOrderId == o && Live(after[k]);
      if k == key {
        assert reports[key].repairOrderId == o && Live(reports[key]);
      } else {
        assert reports[k] == after[k];
      }
    }
    if OneLivePerOrder(reports) {
      forall k1, k2 | k1 in after && k2 in after && Live(after[k1]) && Live(after[k2])
                      && after[k1].repairOrderId == after[k2].repairOrderId
        ensures k1 == k2
      {
        assert Live(reports[k1]) && Live(reports[k2]);
        assert reports[k1].repairOrderId == reports[k2].repairOrderId;
      }
    }
  }

  /** A customer's status query never returns a draft, nor a report on
      another customer's order. */
  lemma {:induction false} CustomerQuerySeesNoDraftsOfOthers(svc: TechnicianReportService, status: Option<string>,
                                                             customer: User, k: Uuid)
    requires svc.Valid()
    requires svc.ReportsByStatusForCustomer(status, customer).Ok?
    requires k in svc.ReportsByStatusForCustomer(status, customer).value
    ensures k in svc.reports && svc.reports[k].status != Some(DRAFT)
    ensures svc.orders[svc.reports[k].repairOrderId].customerId == customer.id
  {
    assert CheckCustomerCanViewStatus(status).Pass?;
  }
}
