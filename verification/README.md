# Everest repair marketplace: a Dafny model of its core

Everest is a repair-marketplace backend. Customers place repair orders,
possibly with a discount coupon. Technicians write reports on those orders,
and each report moves through a lifecycle of state objects:
DRAFT, SUBMITTED, then APPROVED or REJECTED, then IN_PROGRESS, then COMPLETED.
Around these sit:

- coupon bookkeeping;
- payment methods;
- customer ratings with soft delete;
- a handful of in-memory repositories;
- a small request-acceptance state machine.

The model is organised by the program's own modules:

- `Common`: optional values, `Result`/`Outcome` values that stand for Java
  exceptions, the `GenericResponse` shape, and the string predicates
  (`isBlank`, `trim().isEmpty()`, `toLowerCase`, `contains`).
- `ReportValidation`, `ReportStates`, `ReportStateFactory`, `DraftRequest`:
  the report state machine, as pure functions over a datatype of states.
- `TechnicianReports`: the `TechnicianReport` entity as a class whose
  transitions update its fields in place.
- `TechnicianReportService`: the service over reports, repair orders and
  coupons, which are held as maps (the JPA tables).
- `Entities`, `RepairOrderService`, `CouponService`: coupons and their usage
  counts. The invariant `Consistent` says every coupon's `usageCount` equals
  the number of orders that hold it. It is proved to be kept by creating,
  updating and deleting orders.
- `PaymentMethodService`: account-number validation and the
  exception-to-response wrapper.
- `Ratings`: the rating entity, its guards, and the user and admin delete
  strategies.
- `Filters`, `ReportRepositories`, `CouponRepositories`: the list-backed
  repositories. Their loops and stream filters are proved against
  specification functions.
- `RequestRepositories`, `TechnicianRequestService`, `RequestLifecycle`: the
  request-acceptance repositories, the service that assigns a request to a
  technician, and `RequestContext`.

Fresh UUIDs, `LocalDateTime.now()` and `LocalDate.now()` are parameters of
the modelled operations whose results depend on them. The coupon
timestamps are the exception; see "Left out".

## Model

Source paths are relative to the repository root. Every path below starts with `src/main/java/id/ac/ui/cs/advprog/everest/`, except the one test citation under `src/test/java/`.

| member | source | states |
|---|---|---|
| ReportValidation.ValidateForSubmission | src/main/java/id/ac/ui/cs/advprog/everest/modules/technicianreport/service/ReportValidationService.java:7-17 | Passes iff diagnosis and action plan are non-blank after trimming and a cost is present. Checks run in the order diagnosis, cost, plan, and the first failure decides the error. |
| ReportValidation.ValidateForApproval | src/main/java/id/ac/ui/cs/advprog/everest/modules/technicianreport/service/ReportValidationService.java:19-21 | Identical to the submission checks. |
| ReportValidation.ValidateForWorkStart | src/main/java/id/ac/ui/cs/advprog/everest/modules/technicianreport/service/ReportValidationService.java:23-27 | Fails exactly when the estimated time is null. |
| ReportValidation.ChecksReadDisjointFields | src/main/java/id/ac/ui/cs/advprog/everest/modules/technicianreport/service/ReportValidationService.java:7-27 | The submission check ignores the estimated time. The work-start check reads nothing else. |
| ReportStates.Name | src/main/java/id/ac/ui/cs/advprog/everest/modules/technicianreport/model/state/DraftState.java:10-12 | Each state reports one of the six status constants, and only the draft reports DRAFT. |
| ReportStates.NameIsInjective | src/main/java/id/ac/ui/cs/advprog/everest/modules/technicianreport/factory/ReportStateFactory.java:14-21 | No two states share a status name. |
| ReportStates.DraftIsTheOnlyPrivateState | src/main/java/id/ac/ui/cs/advprog/everest/modules/technicianreport/model/state/AbstractReportState.java:9-16 | By default a technician cannot modify and a customer can see. The draft overrides both, so it is the only editable state and the only hidden one. |
| ReportStates.ValidateReadPermissions | src/main/java/id/ac/ui/cs/advprog/everest/modules/technicianreport/model/state/AbstractReportState.java:19-23 | Throws exactly when the customer may not see the state, i.e. in DRAFT. The message is built from the lower-cased state name. |
| ReportStates.DraftInLowerCase | src/main/java/id/ac/ui/cs/advprog/everest/modules/technicianreport/model/state/AbstractReportState.java:19-23 | The draft refusal reads "see report in draft state". |
| ReportStates.DraftSubmit | src/main/java/id/ac/ui/cs/advprog/everest/modules/technicianreport/model/state/DraftState.java:15-18 | A draft becomes SUBMITTED iff the submission checks pass. Otherwise it fails with their error. |
| ReportStates.SubmittedApprove | src/main/java/id/ac/ui/cs/advprog/everest/modules/technicianreport/service/ReportValidationService.java:19-21 | Approval reaches APPROVED iff the (submission-identical) approval checks pass. |
| ReportStates.ApprovedStartWork | src/main/java/id/ac/ui/cs/advprog/everest/modules/technicianreport/service/ReportValidationService.java:23-27 | Work starts iff an estimated time is present. Otherwise it fails with EstimatedTimeRequired. |
| ReportStates.Transition | src/main/java/id/ac/ui/cs/advprog/everest/modules/technicianreport/model/TechnicianReport.java:61-99 | An action not offered by the state fails with IllegalStateTransition naming the action and the state. Per action, success holds iff the state is the right one and its check passes. |
| ReportStates.TransitionAdvancesOneStage | src/main/java/id/ac/ui/cs/advprog/everest/modules/technicianreport/model/TechnicianReport.java:61-99 | Every successful transition moves exactly one stage forward. |
| ReportStates.RunAdvances | src/main/java/id/ac/ui/cs/advprog/everest/modules/technicianreport/model/TechnicianReport.java:61-99 | A successful run of n transitions advances n stages. So no state is re-entered, and at most four transitions ever succeed. |
| ReportStates.FinalStatesStayFinal | src/main/java/id/ac/ui/cs/advprog/everest/modules/technicianreport/model/TechnicianReport.java:61-99 | No transition leaves REJECTED or COMPLETED. |
| ReportStates.CompletionFollowsTheFullPath | src/main/java/id/ac/ui/cs/advprog/everest/modules/technicianreport/model/TechnicianReport.java:61-99 | A draft reaches COMPLETED only by submit, approve, start work and complete, in that order. |
| ReportStateFactory.CreateState | src/main/java/id/ac/ui/cs/advprog/everest/modules/technicianreport/factory/ReportStateFactory.java:23-34 | A null status gives the draft. A known name gives the state with that name. Any other string fails with "Unknown status". |
| ReportStateFactory.CreateStateInvertsName | src/main/java/id/ac/ui/cs/advprog/everest/modules/technicianreport/factory/ReportStateFactory.java:14-21 | Creating a state from a state's own name gives that state back. |
| ReportStateFactory.CreateStateAcceptsOnlyNames | src/main/java/id/ac/ui/cs/advprog/everest/modules/technicianreport/factory/ReportStateFactory.java:28-31 | A string is accepted iff it is the name of some state. |
| DraftRequest.Validate | src/main/java/id/ac/ui/cs/advprog/everest/modules/technicianReport/dto/CreateTechnicianReportDraftRequest.java:22-38 | Passes iff every field is acceptable. A failure names an unacceptable field, and a blank repair-order id is reported first. |
| DraftRequest.ValidateReportsFirstFailingField | src/main/java/id/ac/ui/cs/advprog/everest/modules/technicianReport/dto/CreateTechnicianReportDraftRequest.java:22-38 | The reported error is the first unacceptable field in declaration order. |
| DraftRequest.ZeroCostButNotZeroTime | src/main/java/id/ac/ui/cs/advprog/everest/modules/technicianReport/dto/CreateTechnicianReportDraftRequest.java:32-37 | A zero cost is accepted. A zero estimated time is refused. |
| TechnicianReports.RowState | src/main/java/id/ac/ui/cs/advprog/everest/modules/technicianreport/model/TechnicianReport.java:107-110 | The state rebuilt from a known status carries that status as its name. |
| TechnicianReports.Advanced | src/main/java/id/ac/ui/cs/advprog/everest/modules/technicianreport/model/TechnicianReport.java:101-105 | The saved row after a transition has the new state's status and the time of the change. Every other column is unchanged. |
| TechnicianReports.TechnicianReport.Row | src/main/java/id/ac/ui/cs/advprog/everest/modules/technicianreport/model/TechnicianReport.java:40-51 | The persisted columns carry the validated fields, status and timestamp. |
| TechnicianReports.TechnicianReport.Build | src/main/java/id/ac/ui/cs/advprog/everest/modules/technicianreport/model/TechnicianReport.java:46-55 | A built report is in the draft state with status DRAFT, no id and no timestamp. |
| TechnicianReports.TechnicianReport.Load | src/main/java/id/ac/ui/cs/advprog/everest/modules/technicianreport/model/TechnicianReport.java:53-55 | A loaded report has the row's columns. Its transient state is the field default until initializeState runs. |
| TechnicianReports.TechnicianReport.UpdateState | src/main/java/id/ac/ui/cs/advprog/everest/modules/technicianreport/model/TechnicianReport.java:101-105 | Sets the state, sets status to its name, and stamps the time. Nothing else changes. |
| TechnicianReports.TechnicianReport.Perform | src/main/java/id/ac/ui/cs/advprog/everest/modules/technicianreport/model/TechnicianReport.java:61-105 | Succeeds iff the transition does. A refusal leaves the object unchanged. A success writes the advanced row. |
| TechnicianReports.TechnicianReport.Submit | src/main/java/id/ac/ui/cs/advprog/everest/modules/technicianreport/model/TechnicianReport.java:61-67 | Succeeds iff the report is a draft that passes the submission checks. Otherwise nothing changes. |
| TechnicianReports.TechnicianReport.Approve | src/main/java/id/ac/ui/cs/advprog/everest/modules/technicianreport/model/TechnicianReport.java:69-75 | Succeeds iff the report is submitted and passes the checks. Otherwise nothing changes. |
| TechnicianReports.TechnicianReport.Reject | src/main/java/id/ac/ui/cs/advprog/everest/modules/technicianreport/model/TechnicianReport.java:77-83 | Succeeds iff the report is submitted. Otherwise nothing changes. |
| TechnicianReports.TechnicianReport.StartWork | src/main/java/id/ac/ui/cs/advprog/everest/modules/technicianreport/model/TechnicianReport.java:85-91 | Succeeds iff the report is approved and has an estimated time. Otherwise nothing changes. |
| TechnicianReports.TechnicianReport.Complete | src/main/java/id/ac/ui/cs/advprog/everest/modules/technicianreport/model/TechnicianReport.java:93-99 | Succeeds iff work is in progress. Otherwise nothing changes. |
| TechnicianReports.TechnicianReport.InitializeState | src/main/java/id/ac/ui/cs/advprog/everest/modules/technicianreport/model/TechnicianReport.java:107-110 | Rebuilds the state from the status column and leaves every column as it was. |
| TechnicianReports.TechnicianReport.TechnicianCanModify | src/main/java/id/ac/ui/cs/advprog/everest/modules/technicianreport/model/TechnicianReport.java:112-114 | True iff the report is a draft. |
| TechnicianReports.TechnicianReport.CustomerCanSee | src/main/java/id/ac/ui/cs/advprog/everest/modules/technicianreport/model/TechnicianReport.java:116-118 | True iff the report is not a draft. |
| TechnicianReports.TechnicianReport.ValidateReadPermissions | src/main/java/id/ac/ui/cs/advprog/everest/modules/technicianreport/model/TechnicianReport.java:120-122 | Fails iff the customer may not see the report. It is a reads-only function. |
| TechnicianReports.TechnicianReport.OnCreate | src/main/java/id/ac/ui/cs/advprog/everest/modules/technicianreport/model/TechnicianReport.java:124-135 | Fills in a missing id, timestamp and DRAFT status. It never overwrites a present value. |
| TechnicianReports.LoadReport | src/main/java/id/ac/ui/cs/advprog/everest/modules/technicianreport/model/TechnicianReport.java:107-110 | Loading a row with a known status always yields a report whose state matches its status. |
| TechnicianReportService.CheckReportCreation | src/main/java/id/ac/ui/cs/advprog/everest/modules/technicianreport/service/TechnicianReportServiceImpl.java:362-370 | Passes iff the order exists, is PENDING_CONFIRMATION, is assigned to the caller, and has no live (non-rejected) report. Each refusal carries its own error, in that order: not found, not pending, forbidden, already has a report. |
| TechnicianReportService.CheckTechnicianCanUpdate | src/main/java/id/ac/ui/cs/advprog/everest/modules/technicianreport/service/TechnicianReportServiceImpl.java:372-380 | Passes iff the caller is the report's technician and the report is modifiable. Otherwise fails with the matching error. |
| TechnicianReportService.CheckCustomerCanAct | src/main/java/id/ac/ui/cs/advprog/everest/modules/technicianreport/service/TechnicianReportServiceImpl.java:382-390 | Passes iff the caller owns the order and the report is SUBMITTED. |
| TechnicianReportService.CheckTechnicianCanStartWork | src/main/java/id/ac/ui/cs/advprog/everest/modules/technicianreport/service/TechnicianReportServiceImpl.java:392-400 | Passes iff the caller is the technician and the report is APPROVED. |
| TechnicianReportService.CheckTechnicianCanComplete | src/main/java/id/ac/ui/cs/advprog/everest/modules/technicianreport/service/TechnicianReportServiceImpl.java:402-410 | Passes iff the caller is the technician and the report is IN_PROGRESS. |
| TechnicianReportService.CheckCustomerCanViewStatus | src/main/java/id/ac/ui/cs/advprog/everest/modules/technicianreport/service/TechnicianReportServiceImpl.java:412-416 | Fails exactly when the upper-cased status is DRAFT. |
| TechnicianReportService.CheckUserCanViewReportAsWritten | src/main/java/id/ac/ui/cs/advprog/everest/modules/technicianreport/service/TechnicianReportServiceImpl.java:418-427 | As written: a customer passes iff they own the order, whatever the report's state. |
| TechnicianReportService.CustomerReadsDraftAsWritten | src/main/java/id/ac/ui/cs/advprog/everest/modules/technicianreport/service/TechnicianReportServiceImpl.java:418-427 | The owning customer passes the check on a DRAFT report, although a draft is not customer-visible. |
| TechnicianReportService.CheckUserCanViewReport | src/main/java/id/ac/ui/cs/advprog/everest/modules/technicianreport/service/TechnicianReportServiceImpl.java:418-427 | Corrected: a customer passes iff they own the order and the state is customer-visible. |
| TechnicianReportService.ViewCheckOnlyAddsVisibility | src/main/java/id/ac/ui/cs/advprog/everest/modules/technicianreport/service/TechnicianReportServiceImpl.java:418-427 | The corrected check is the written one plus the visibility condition. |
| TechnicianReportService.CustomerCostAsWritten | src/main/java/id/ac/ui/cs/advprog/everest/modules/technicianreport/service/TechnicianReportServiceImpl.java:266-273 | As written: cost minus discount, and a null dereference when the order has no coupon. |
| TechnicianReportService.CouponlessOrderBreaksCustomerQuery | src/main/java/id/ac/ui/cs/advprog/everest/modules/technicianreport/service/TechnicianReportServiceImpl.java:266-273 | Any order without a coupon makes the written cost computation throw. |
| TechnicianReportService.CustomerCost | src/main/java/id/ac/ui/cs/advprog/everest/modules/technicianreport/service/TechnicianReportServiceImpl.java:266-273 | Corrected: without a coupon the cost is unchanged. Wherever the written version succeeds, both agree. |
| TechnicianReportService.TechnicianReportService.constructor | src/main/java/id/ac/ui/cs/advprog/everest/modules/technicianreport/service/TechnicianReportServiceImpl.java:48-59 | A service over the given orders and coupons, with no reports yet. |
| TechnicianReportService.TechnicianReportService.Find | src/main/java/id/ac/ui/cs/advprog/everest/modules/technicianreport/service/TechnicianReportServiceImpl.java:323-330 | A null id fails with "report data null", and an id that is not stored fails with not found. Otherwise it returns the stored row. |
| TechnicianReportService.TechnicianReportService.CreateDraft | src/main/java/id/ac/ui/cs/advprog/everest/modules/technicianreport/service/TechnicianReportServiceImpl.java:61-82 | Stores a new DRAFT row iff the request validates and the creation checks pass. A refusal returns the validation error or the creation check's error. Nothing changes otherwise. The one-live-report-per-order invariant is kept. |
| TechnicianReportService.TechnicianReportService.UpdateDraft | src/main/java/id/ac/ui/cs/advprog/everest/modules/technicianreport/service/TechnicianReportServiceImpl.java:85-105 | Overwrites the four fields of the caller's own draft after validation. Nothing changes otherwise. Each refusal returns the error of the check that failed: validation, lookup, then the owner-and-draft guard. |
| TechnicianReportService.TechnicianReportService.DeleteDraft | src/main/java/id/ac/ui/cs/advprog/everest/modules/technicianreport/service/TechnicianReportServiceImpl.java:108-124 | Removes exactly the caller's own draft. Nothing changes otherwise. Each refusal returns the lookup or guard error. |
| TechnicianReportService.TechnicianReportService.Advance | src/main/java/id/ac/ui/cs/advprog/everest/modules/technicianreport/service/TechnicianReportServiceImpl.java:127-146 | Loads the row, applies the transition, and saves the advanced row. A refused transition saves nothing. |
| TechnicianReportService.TechnicianReportService.SubmitDraft | src/main/java/id/ac/ui/cs/advprog/everest/modules/technicianreport/service/TechnicianReportServiceImpl.java:127-146 | The report's technician submits their own draft. It succeeds iff the draft passes the submission checks, and the report is then SUBMITTED. Each refusal returns the lookup error, the guard error or the refused transition. |
| TechnicianReportService.TechnicianReportService.Review | src/main/java/id/ac/ui/cs/advprog/everest/modules/technicianreport/service/TechnicianReportServiceImpl.java:149-184 | The order's customer approves or rejects a SUBMITTED report. It saves the APPROVED or REJECTED row and nothing else. Each refusal returns the lookup error, the guard error or the refused transition. |
| TechnicianReportService.TechnicianReportService.StartWork | src/main/java/id/ac/ui/cs/advprog/everest/modules/technicianreport/service/TechnicianReportServiceImpl.java:187-206 | The report's technician starts an APPROVED report. The report becomes IN_PROGRESS and its repair order IN_PROGRESS. Each refusal returns the lookup error, the guard error or the refused transition. |
| TechnicianReportService.TechnicianReportService.CompleteWork | src/main/java/id/ac/ui/cs/advprog/everest/modules/technicianreport/service/TechnicianReportServiceImpl.java:209-231 | The report's technician completes an IN_PROGRESS report. The report and its repair order become COMPLETED. Each refusal returns the lookup error, the guard error or the refused transition. |
| TechnicianReportService.TechnicianReportService.ReportsByStatusForTechnician | src/main/java/id/ac/ui/cs/advprog/everest/modules/technicianreport/service/TechnicianReportServiceImpl.java:234-251 | Exactly the caller's reports with the requested status, unchanged. |
| TechnicianReportService.TechnicianReportService.CustomerView | src/main/java/id/ac/ui/cs/advprog/everest/modules/technicianreport/service/TechnicianReportServiceImpl.java:266-273 | The row a customer sees differs from the stored one at most in the cost. |
| TechnicianReportService.TechnicianReportService.ReportsByStatusForCustomer | src/main/java/id/ac/ui/cs/advprog/everest/modules/technicianreport/service/TechnicianReportServiceImpl.java:254-283 | A DRAFT query is refused. Otherwise it succeeds iff the caller has a report with that status, the result is exactly those reports shown with the discounted cost, and the only error is that none was found. |
| TechnicianReportService.TechnicianReportService.ReportById | src/main/java/id/ac/ui/cs/advprog/everest/modules/technicianreport/service/TechnicianReportServiceImpl.java:286-301 | Returns the stored row iff it exists and the (corrected) view check passes. A customer never receives a draft. |
| TechnicianReportService.TechnicianReportService.PendingOrdersOfTechnician | src/main/java/id/ac/ui/cs/advprog/everest/modules/technicianreport/service/TechnicianReportServiceImpl.java:304-316 | Exactly the orders assigned to the caller that are pending confirmation. |
| TechnicianReportService.LiveAfterTransition | src/main/java/id/ac/ui/cs/advprog/everest/modules/technicianreport/service/TechnicianReportServiceImpl.java:332-337 | Saving a report after any successful transition gives no order a live report it did not have, and keeps every order down to one live report. |
| TechnicianReportService.CustomerQuerySeesNoDraftsOfOthers | src/main/java/id/ac/ui/cs/advprog/everest/modules/technicianreport/service/TechnicianReportServiceImpl.java:429-434 | Every report a customer query returns is a non-draft on one of the customer's own orders. |
| CouponService.ValidityIgnoresUsage | src/main/java/id/ac/ui/cs/advprog/everest/modules/coupon/service/CouponServiceImpl.java:90-100 | Validity ignores usageCount and the id. It holds through its last day and not after. |
| CouponService.CouponService.constructor | src/main/java/id/ac/ui/cs/advprog/everest/modules/coupon/service/CouponServiceImpl.java:20-22 | An empty coupon table. |
| CouponService.CouponService.GetCouponById | src/main/java/id/ac/ui/cs/advprog/everest/modules/coupon/service/CouponServiceImpl.java:30-33 | Returns the stored coupon, or fails with not found. |
| CouponService.CouponService.Create | src/main/java/id/ac/ui/cs/advprog/everest/modules/coupon/service/CouponServiceImpl.java:36-54 | Invalid data is refused first, then a duplicate code. Nothing is saved on refusal. A saved coupon starts with usage 0. |
| CouponService.CouponService.Update | src/main/java/id/ac/ui/cs/advprog/everest/modules/coupon/service/CouponServiceImpl.java:57-80 | Fails if the id is missing. Checks code uniqueness only when the code changes. Overwrites the four fields and saves only a valid result. Codes stay unique. An update that passes the code check but fails validation gives the invalid-data error. |
| CouponService.CouponService.Delete | src/main/java/id/ac/ui/cs/advprog/everest/modules/coupon/service/CouponServiceImpl.java:84-87 | Removes exactly that coupon. A missing id fails and removes nothing. |
| RepairOrderService.CheckCoupon | src/main/java/id/ac/ui/cs/advprog/everest/modules/repairorder/service/RepairOrderServiceImpl.java:138-151 | Refuses an expired coupon, then one with missing counts, then one at or over its limit. |
| RepairOrderService.KeepingAFullCouponIsRefused | src/main/java/id/ac/ui/cs/advprog/everest/modules/repairorder/service/RepairOrderServiceImpl.java:215-234 | For every unexpired coupon whose uses are all taken, an order already holding it is refused an update that keeps it (limit reached), while the intended check lets it through. |
| RepairOrderService.AsWrittenDiffersOnlyOnHeldCoupon | src/main/java/id/ac/ui/cs/advprog/everest/modules/repairorder/service/RepairOrderServiceImpl.java:215-234 | The written and intended update checks agree on every coupon the order does not hold. The written one passes iff the intended one passes and the coupon has a use to spare. |
| RepairOrderService.UpdateCouponCheck | src/main/java/id/ac/ui/cs/advprog/everest/modules/repairorder/service/RepairOrderServiceImpl.java:215-234 | Corrected: the held coupon is checked only for expiry. It accepts everything the written check accepts. |
| RepairOrderService.Released | src/main/java/id/ac/ui/cs/advprog/everest/modules/repairorder/service/RepairOrderServiceImpl.java:286-289 | A release gives one use back, floored at 0, and is never negative. |
| RepairOrderService.HoldersAfterPut | src/main/java/id/ac/ui/cs/advprog/everest/modules/repairorder/service/RepairOrderServiceImpl.java:221-234 | Writing an order moves it from the holders of its old coupon to those of its new one. |
| RepairOrderService.HoldersAfterRemove | src/main/java/id/ac/ui/cs/advprog/everest/modules/repairorder/service/RepairOrderServiceImpl.java:286-289 | Removing an order removes it from its coupon's holders. |
| RepairOrderService.Reassign | src/main/java/id/ac/ui/cs/advprog/everest/modules/repairorder/service/RepairOrderServiceImpl.java:221-240 | The same coupon keeps its count. A switch adds 1 to the new coupon and releases 1 (floored) from the old. Other coupons are unchanged. |
| RepairOrderService.PutKeepsCount | src/main/java/id/ac/ui/cs/advprog/everest/modules/repairorder/service/RepairOrderServiceImpl.java:221-240 | One coupon's count stays equal to its number of holders after an order is written. |
| RepairOrderService.CountsAfterPut | src/main/java/id/ac/ui/cs/advprog/everest/modules/repairorder/service/RepairOrderServiceImpl.java:221-240 | Every coupon's count stays exact after an order is written. |
| RepairOrderService.PutKeepsAccounting | src/main/java/id/ac/ui/cs/advprog/everest/modules/repairorder/service/RepairOrderServiceImpl.java:101-111 | Writing an order with its coupon moved by Reassign keeps the accounting invariant. |
| RepairOrderService.RemoveKeepsAccounting | src/main/java/id/ac/ui/cs/advprog/everest/modules/repairorder/service/RepairOrderServiceImpl.java:286-289 | Deleting an order and releasing its coupon keeps the accounting invariant. |
| RepairOrderService.ReleaseNeverClamps | src/main/java/id/ac/ui/cs/advprog/everest/modules/repairorder/service/RepairOrderServiceImpl.java:286-289 | Under the invariant, a held coupon's count is at least 1, so the floor at 0 never engages. |
| RepairOrderService.RepairOrderService.constructor | src/main/java/id/ac/ui/cs/advprog/everest/modules/repairorder/service/RepairOrderServiceImpl.java:69-81 | A service over unused coupons with no orders satisfies the accounting invariant. |
| RepairOrderService.RepairOrderService.OwnedPendingOrder | src/main/java/id/ac/ui/cs/advprog/everest/modules/repairorder/service/RepairOrderServiceImpl.java:262-274 | The order is returned iff it exists, belongs to the caller and is PENDING_CONFIRMATION, and each failure has its own error. |
| RepairOrderService.RepairOrderService.FindCoupon | src/main/java/id/ac/ui/cs/advprog/everest/modules/repairorder/service/RepairOrderServiceImpl.java:138-151 | Its result is the lookup: not found when no coupon has the code, otherwise the one coupon with that code, or the error its check gives. |
| RepairOrderService.CouponLookup | src/main/java/id/ac/ui/cs/advprog/everest/modules/repairorder/service/RepairOrderServiceImpl.java:138-151 | With unique codes: no coupon with the code gives not found; the coupon with the code gives itself when its check passes and the check's error otherwise. |
| RepairOrderService.RepairOrderService.Create | src/main/java/id/ac/ui/cs/advprog/everest/modules/repairorder/service/RepairOrderServiceImpl.java:83-135 | Succeeds iff the arguments are present, a technician was found, the payment method exists and the coupon code, if any, passes the full lookup. Errors come in that order: null arguments, no technician, invalid payment method, the lookup's error. A stored order holds the coupon found, raises its count by exactly 1 and keeps the invariant. Nothing changes on failure. |
| RepairOrderService.RepairOrderService.Update | src/main/java/id/ac/ui/cs/advprog/everest/modules/repairorder/service/RepairOrderServiceImpl.java:200-260 | Succeeds iff the arguments are present, the order is the caller's and pending, the payment method exists and the coupon code, if any, passes the update lookup. Errors come in that order: null arguments, the ownership error, invalid payment method, the lookup's error. Coupon counts move as in Reassign and the invariant is kept. Nothing changes on failure. |
| RepairOrderService.RepairOrderService.Delete | src/main/java/id/ac/ui/cs/advprog/everest/modules/repairorder/service/RepairOrderServiceImpl.java:278-306 | Only the owner may delete, and only while pending; a refusal returns the null-argument error or the ownership check's error. The order is removed, its coupon gets one use back, and the invariant is kept. |
| PaymentMethodService.Validate | src/main/java/id/ac/ui/cs/advprog/everest/modules/paymentmethod/service/PaymentMethodServiceImpl.java:87-104 | Passes iff all five fields are present and the account-number length fits the type. Each failure has its own error. |
| PaymentMethodService.WalletAllowsLongerNumbers | src/main/java/id/ac/ui/cs/advprog/everest/modules/paymentmethod/service/PaymentMethodServiceImpl.java:97-103 | A 17-23 character number is a valid e-wallet number and an invalid bank number. |
| PaymentMethodService.Handle | src/main/java/id/ac/ui/cs/advprog/everest/modules/paymentmethod/service/PaymentMethodServiceImpl.java:141-149 | A thrown validation or not-found error becomes success=false, with the exception's message and no data. |
| PaymentMethodService.PaymentMethodService.constructor | src/main/java/id/ac/ui/cs/advprog/everest/modules/paymentmethod/service/PaymentMethodServiceImpl.java:24-26 | An empty table. |
| PaymentMethodService.PaymentMethodService.ReadDetails | src/main/java/id/ac/ui/cs/advprog/everest/modules/paymentmethod/service/PaymentMethodServiceImpl.java:29-35 | Succeeds iff the id is stored, with the stored method. Otherwise it reports "Payment method not found". |
| PaymentMethodService.PaymentMethodService.Create | src/main/java/id/ac/ui/cs/advprog/everest/modules/paymentmethod/service/PaymentMethodServiceImpl.java:49-56 | Validates before saving, so an invalid method is never stored. |
| PaymentMethodService.PaymentMethodService.Update | src/main/java/id/ac/ui/cs/advprog/everest/modules/paymentmethod/service/PaymentMethodServiceImpl.java:59-74 | Overwrites exactly the five fields, then validates. Nothing changes on failure. |
| PaymentMethodService.PaymentMethodService.Delete | src/main/java/id/ac/ui/cs/advprog/everest/modules/paymentmethod/service/PaymentMethodServiceImpl.java:77-85 | Removes the method iff it exists. A missing id fails and removes nothing. |
| Ratings.CheckNew | src/main/java/id/ac/ui/cs/advprog/everest/modules/rating/model/Rating.java:75-80 | Refuses a score outside 1..5 first, then null ids or a null or blank comment. |
| Ratings.CheckUpdate | src/main/java/id/ac/ui/cs/advprog/everest/modules/rating/model/Rating.java:92-97 | Refuses a score outside 1..5 first, then a null or blank comment. |
| Ratings.Rating.Init | src/main/java/id/ac/ui/cs/advprog/everest/modules/rating/model/Rating.java:82-88 | The new rating holds exactly the given fields. |
| Ratings.Rating.Load | src/main/java/id/ac/ui/cs/advprog/everest/modules/rating/model/Rating.java:62-64 | A stored row, materialised unchanged. |
| Ratings.Rating.Update | src/main/java/id/ac/ui/cs/advprog/everest/modules/rating/model/Rating.java:91-101 | Validates first. A success changes only comment and score, and a failure changes nothing. |
| Ratings.Rating.MarkDeleted | src/main/java/id/ac/ui/cs/advprog/everest/modules/rating/strategy/AdminDeleteStrategy.java:21 | Sets only the deleted flag. |
| Ratings.BuildRating | src/main/java/id/ac/ui/cs/advprog/everest/modules/rating/model/Rating.java:66-89 | Builds a rating iff the guards pass. A null id becomes a fresh one and a null deleted becomes false. |
| Ratings.ChooseStrategy | src/main/java/id/ac/ui/cs/advprog/everest/modules/rating/service/RatingServiceImpl.java:67-73 | The admin strategy is chosen iff isAdmin. |
| Ratings.SoftDeleted | src/main/java/id/ac/ui/cs/advprog/everest/modules/rating/strategy/UserDeleteStrategy.java:25-26 | Only that rating's deleted flag changes. |
| Ratings.SoftDeleteIsIdempotent | src/main/java/id/ac/ui/cs/advprog/everest/modules/rating/strategy/AdminDeleteStrategy.java:21-22 | Deleting twice is the same as deleting once. |
| Ratings.SoftDeleteHidesOnlyThatRating | src/main/java/id/ac/ui/cs/advprog/everest/modules/rating/service/RatingServiceImpl.java:39-51 | After a soft delete the filtered listings lose exactly that rating. |
| Ratings.RatingService.constructor | src/main/java/id/ac/ui/cs/advprog/everest/modules/rating/service/RatingServiceImpl.java:22-25 | An empty rating table. |
| Ratings.RatingService.RatingsByTechnician | src/main/java/id/ac/ui/cs/advprog/everest/modules/rating/service/RatingServiceImpl.java:39-44 | Exactly the technician's non-deleted ratings. |
| Ratings.RatingService.RatingsByUser | src/main/java/id/ac/ui/cs/advprog/everest/modules/rating/service/RatingServiceImpl.java:46-51 | Exactly the user's non-deleted ratings. |
| Ratings.RatingService.UpdateRating | src/main/java/id/ac/ui/cs/advprog/everest/modules/rating/service/RatingServiceImpl.java:53-64 | A missing rating or a non-owner fails and nothing changes. Otherwise only comment and score change. |
| Ratings.RatingService.UserDeleteRating | src/main/java/id/ac/ui/cs/advprog/everest/modules/rating/strategy/UserDeleteStrategy.java:16-27 | A missing rating fails, and so does a non-owner with the rating left as it was. The owner's delete sets only the flag. |
| Ratings.RatingService.AdminDeleteRating | src/main/java/id/ac/ui/cs/advprog/everest/modules/rating/strategy/AdminDeleteStrategy.java:16-23 | Deletes any existing rating, whoever the caller. A missing rating fails. |
| Ratings.RatingService.DeleteRating | src/main/java/id/ac/ui/cs/advprog/everest/modules/rating/service/RatingServiceImpl.java:66-73 | Succeeds iff the rating exists and the caller is an admin or the owner. |
| Filters.FirstIndex | src/main/java/id/ac/ui/cs/advprog/everest/repository/CouponRepository.java:18-22 | The first position that satisfies the test, or None exactly when no element does. |
| Filters.Filter | src/main/java/id/ac/ui/cs/advprog/everest/repository/ReportRepository.java:53-56 | Keeps exactly the elements that pass the test, in order. |
| Filters.FilterTwice | src/main/java/id/ac/ui/cs/advprog/everest/repository/ReportRepository.java:79-83 | Filtering twice is filtering by the conjunction. |
| ReportRepositories.FirstWithId | src/main/java/id/ac/ui/cs/advprog/everest/repository/ReportRepository.java:33-38 | The first position holding that id, or None exactly when the id is absent. |
| ReportRepositories.ReplaceById | src/main/java/id/ac/ui/cs/advprog/everest/repository/ReportRepository.java:32-39 | Replaces the first report with that id in place. An unknown id changes nothing, and the length never changes. |
| ReportRepositories.WithoutId | src/main/java/id/ac/ui/cs/advprog/everest/repository/ReportRepository.java:43-45 | Exactly the reports with a different id. |
| ReportRepositories.ReportRepository.constructor | src/main/java/id/ac/ui/cs/advprog/everest/repository/ReportRepository.java:14-15 | An empty list with nextId 1. |
| ReportRepositories.ReportRepository.FindAll | src/main/java/id/ac/ui/cs/advprog/everest/repository/ReportRepository.java:17-19 | The stored list in order. |
| ReportRepositories.ReportRepository.FindById | src/main/java/id/ac/ui/cs/advprog/everest/repository/ReportRepository.java:21-25 | Found iff some stored report has that id, and then a report with that id. |
| ReportRepositories.ReportRepository.Save | src/main/java/id/ac/ui/cs/advprog/everest/repository/ReportRepository.java:27-41 | A null id gets nextId, the report is appended, and nextId goes up by 1, so ids are 1, 2, and so on. A known id is replaced in place. An unknown id leaves the list unchanged. |
| ReportRepositories.ReportRepository.DeleteById | src/main/java/id/ac/ui/cs/advprog/everest/repository/ReportRepository.java:43-45 | Removes every report with that id and nothing else. |
| ReportRepositories.ReportRepository.FindByTechnicianName | src/main/java/id/ac/ui/cs/advprog/everest/repository/ReportRepository.java:47-57 | Null gives the empty list. Otherwise the result is exactly the reports whose name contains the term, ignoring case. |
| ReportRepositories.ReportRepository.FindByStatus | src/main/java/id/ac/ui/cs/advprog/everest/repository/ReportRepository.java:59-68 | Null gives the empty list. Otherwise the result is exactly the reports whose status equals the term, ignoring case. |
| ReportRepositories.ReportRepository.FindByTechnicianNameAndStatus | src/main/java/id/ac/ui/cs/advprog/everest/repository/ReportRepository.java:70-84 | Either argument null gives the empty list. Otherwise it returns the reports that match both tests. |
| ReportRepositories.ReportRepository.FindByRepairDate | src/main/java/id/ac/ui/cs/advprog/everest/repository/ReportRepository.java:86-90 | Exactly the reports on that date. |
| ReportRepositories.ReportRepository.FindByRepairDateBetween | src/main/java/id/ac/ui/cs/advprog/everest/repository/ReportRepository.java:92-98 | Exactly the reports inside the range, both ends included. |
| ReportRepositories.NameAndStatusComposes | src/main/java/id/ac/ui/cs/advprog/everest/repository/ReportRepository.java:70-84 | The combined query equals the status query applied to the name query's result. |
| ReportRepositories.OneDayRangeIsOneDate | src/main/java/id/ac/ui/cs/advprog/everest/repository/ReportRepository.java:92-98 | A range whose two ends are the same date is that single date. |
| CouponRepositories.FiltersAreStrict | src/main/java/id/ac/ui/cs/advprog/everest/repository/CouponRepository.java:44-57 | A coupon at its limit, or expiring on the date itself, is excluded, and so is one with no expiry. |
| CouponRepositories.CouponRepository.constructor | src/main/java/id/ac/ui/cs/advprog/everest/repository/CouponRepository.java:12 | An empty list. |
| CouponRepositories.CouponRepository.FindById | src/main/java/id/ac/ui/cs/advprog/everest/repository/CouponRepository.java:18-22 | Found iff some stored coupon has that id, and then that coupon. |
| CouponRepositories.CouponRepository.Save | src/main/java/id/ac/ui/cs/advprog/everest/repository/CouponRepository.java:24-38 | A null id gets a fresh one. An existing id is replaced at its position, otherwise the coupon is appended. Either way the saved coupon can then be found. |
| CouponRepositories.CouponRepository.DeleteById | src/main/java/id/ac/ui/cs/advprog/everest/repository/CouponRepository.java:40-42 | Removes that id and keeps every other coupon in order. |
| CouponRepositories.CouponRepository.FindByValidUntilAfter | src/main/java/id/ac/ui/cs/advprog/everest/repository/CouponRepository.java:44-49 | Exactly the coupons whose expiry is strictly after the date. |
| CouponRepositories.CouponRepository.FindByUsageCountLessThanMaxUsage | src/main/java/id/ac/ui/cs/advprog/everest/repository/CouponRepository.java:51-57 | Exactly the coupons with both counts present and usage strictly below the limit. |
| CouponRepositories.CouponRepository.ExistsByCode | src/main/java/id/ac/ui/cs/advprog/everest/repository/CouponRepository.java:59-62 | True iff some stored coupon has that code. |
| RequestRepositories.From | src/main/java/id/ac/ui/cs/advprog/everest/modules/requestServiceAcceptance/service/TechnicianRequestServiceImpl.java:37 | The incoming request carries the user's description, the technician and PENDING. |
| RequestRepositories.TechnicianRequestRepository.constructor | src/main/java/id/ac/ui/cs/advprog/everest/requestServiceAcceptance/repository/TechnicianRequestRepository.java:15 | An empty table. |
| RequestRepositories.TechnicianRequestRepository.Save | src/main/java/id/ac/ui/cs/advprog/everest/requestServiceAcceptance/repository/TechnicianRequestRepository.java:17-30 | A null technician is refused, then a request that is already taken, with nothing changed and every technician's listing as it was. Otherwise the request is stored and joins its technician's listing only. |
| RequestRepositories.TechnicianRequestRepository.FindByRequestId | src/main/java/id/ac/ui/cs/advprog/everest/requestServiceAcceptance/repository/TechnicianRequestRepository.java:32-34 | The stored request for that id, if any. |
| RequestRepositories.TechnicianRequestRepository.FindByTechnicianId | src/main/java/id/ac/ui/cs/advprog/everest/requestServiceAcceptance/repository/TechnicianRequestRepository.java:36-40 | Exactly the stored requests of that technician. |
| RequestRepositories.AssignedAfterAdd | src/main/java/id/ac/ui/cs/advprog/everest/requestServiceAcceptance/repository/TechnicianRequestRepository.java:36-40 | Storing a request under a new key adds it to its own technician's listing and leaves every other listing unchanged. |
| RequestRepositories.TechnicianRequestRepository.DeleteByRequestId | src/main/java/id/ac/ui/cs/advprog/everest/requestServiceAcceptance/repository/TechnicianRequestRepository.java:46-48 | Removes that id and reports whether it was there. |
| RequestRepositories.GeneratedIdOverwritesExplicitOne | src/main/java/id/ac/ui/cs/advprog/everest/requestServiceAcceptance/repository/UserRequestRepository.java:19-29 | From any state whose next generated key is free, an explicit save under that key and then a save without an id both succeed with the same id, the second replaces the first, and the same explicit id would have been refused. |
| RequestRepositories.GeneratedIdOverwritesTakenKey | src/main/java/id/ac/ui/cs/advprog/everest/requestServiceAcceptance/repository/UserRequestRepository.java:19-24 | Whenever the key after the counter is taken, a save without an id succeeds under that key, replaces the stored request and adds no key. |
| RequestRepositories.UserRequestRepository.constructor | src/main/java/id/ac/ui/cs/advprog/everest/requestServiceAcceptance/repository/UserRequestRepository.java:15-16 | An empty table with counter 0. |
| RequestRepositories.UserRequestRepository.Save | src/main/java/id/ac/ui/cs/advprog/everest/requestServiceAcceptance/repository/UserRequestRepository.java:18-31 | Corrected: a null id gets a key above every stored one. An existing id is refused. A save never replaces a stored request. |
| RequestRepositories.UserRequestRepository.FindById | src/main/java/id/ac/ui/cs/advprog/everest/requestServiceAcceptance/repository/UserRequestRepository.java:33-35 | The stored request for that id, if any. |
| RequestRepositories.UserRequestRepository.DeleteById | src/main/java/id/ac/ui/cs/advprog/everest/requestServiceAcceptance/repository/UserRequestRepository.java:41-43 | Removes that id and reports whether it was there. The counter is untouched. |
| TechnicianRequestService.TechnicianRequestService.constructor | src/main/java/id/ac/ui/cs/advprog/everest/modules/requestServiceAcceptance/service/TechnicianRequestServiceImpl.java:18-22 | A service over the two given repositories. |
| TechnicianRequestService.TechnicianRequestService.AssignRequestToTechnician | src/main/java/id/ac/ui/cs/advprog/everest/modules/requestServiceAcceptance/service/TechnicianRequestServiceImpl.java:25-39 | Refuses, in order, a null technician, an already assigned request and an unknown user request. Otherwise it stores the request, built from the user request, for that technician. Nothing changes on refusal. |
| TechnicianRequestService.TechnicianRequestService.DeleteRequest | src/main/java/id/ac/ui/cs/advprog/everest/modules/requestServiceAcceptance/service/TechnicianRequestServiceImpl.java:57-59 | Removes the assignment and reports whether it existed. |
| RequestLifecycle.StatusOf | src/main/java/id/ac/ui/cs/advprog/everest/modules/requestServiceAcceptance/models/PendingState.java:14-17 | The pending state reports PENDING and the reported state REPORTED. |
| RequestLifecycle.RequestContext.constructor | src/main/java/id/ac/ui/cs/advprog/everest/requestServiceAcceptance/model/RequestContext.java:12-15 | A new context is pending with no status log. |
| RequestLifecycle.RequestContext.LogStatusChange | src/main/java/id/ac/ui/cs/advprog/everest/requestServiceAcceptance/model/RequestContext.java:29-32 | Appends exactly one log entry for this request and its technician. It becomes the last log. |
| RequestLifecycle.RequestContext.LastStatusLog | src/main/java/id/ac/ui/cs/advprog/everest/requestServiceAcceptance/model/RequestContext.java:34-39 | None iff there are no logs, and otherwise the newest entry. |
| RequestLifecycle.RequestContext.PendingProcessAction | src/main/java/id/ac/ui/cs/advprog/everest/modules/requestServiceAcceptance/models/PendingState.java:6-12 | "create_report" logs PENDING to REPORTED and moves on to REPORTED. Any other action stays pending and logs nothing. |
| RequestLifecycle.RequestContext.ReportedProcessAction | src/test/java/id/ac/ui/cs/advprog/everest/requestServiceAcceptance/models/RequestContextTest.java:62-67 | "create_estimate" logs REPORTED to ESTIMATED and moves on to ESTIMATED. Any other action stays reported and logs nothing. |
| RequestLifecycle.RequestContext.ProcessAction | src/main/java/id/ac/ui/cs/advprog/everest/requestServiceAcceptance/model/RequestContext.java:17-19 | Delegates to the current state: pending + "create_report" moves to REPORTED with one new log entry, and reported + "create_estimate" moves to ESTIMATED with one new log entry. The log only ever grows at its end. |

## Left out

- Java exceptions are returned as error values (`Outcome`, `Result`). A failing call returns its error and leaves the state unchanged.
- The only exception-to-response translation modelled is the payment methods' `handle`. The other services' `GenericResponse` wrapping and message texts are not modelled beyond their error constructors.
- `DataAccessException` and database failures are not modelled.
- gRPC lookups (the random technician, user data), RabbitMQ events, audit logging and `@Transactional` rollback are not modelled. The random technician is a parameter.
- UUID generation, `LocalDateTime.now()` and `LocalDate.now()` are parameters.
- The coupon's `createdAt` and `updatedAt` columns are not modelled. `CouponServiceImpl.createCoupon` and `updateCoupon` stamp them with `LocalDateTime.now()` (CouponServiceImpl.java:51 and 73). `CouponService.CouponService.Create` and `Update` take no clock, and the model's `Coupon` has neither field.
- Authentication is not modelled. Token verification is delegated to the jjwt library (`JwtTokenConsumerImpl`) and to the remote gRPC auth service.
- Identifiers are `Uuid = nat` values. The services that take ids as strings parse them with `UUID.fromString` (RepairOrderServiceImpl.java:115, 180 and 263; TechnicianReportServiceImpl.java:319, 328 and 333). The malformed-id path is not modelled: the `IllegalArgumentException` caught at RepairOrderServiceImpl.java:130-131 and 255-256, and the one turned into a failed response by `handleException` at TechnicianReportServiceImpl.java:487-489.
- TechnicianReportService.TechnicianReportService.CreateDraft takes the order id as an already parsed `orderId`. It stands for `UUID.fromString(request.getRepairOrderId())` (TechnicianReportServiceImpl.java:68-70 and 333). The model does not tie it to the request's `repairOrderId` string, since string parsing is not modelled.
- List order is not modelled. `Ratings.RatingService.RatingsByTechnician`, `Ratings.RatingService.RatingsByUser`, `RequestRepositories.TechnicianRequestRepository.FindByTechnicianId` and the report service's queries return sets or maps, so the order and multiplicity of the Java lists are not captured.
- `CreateAndUpdateRepairOrderRequest` does not declare `paymentMethodId` or `couponCode` (TODO comments at lines 31-32), yet the service calls `getPaymentMethodId()` and `getCouponCode()` (RepairOrderServiceImpl.java:98, 102, 212 and 218). The model's `OrderRequest` carries both fields, as the service expects.
- The `ReportState` interface declares `readPermissions` (ReportState.java:15), while `TechnicianReport.validateReadPermissions` calls `state.validateReadPermissions` (TechnicianReport.java:121). The model follows the call site.
- `ReportStateMapper`, called by `initializeState`, is not part of this model. The factory `createState` stands in for it.
- The state classes other than `DraftState` (submitted, approved, rejected, in progress, completed) are not part of this model. Their transitions are inferred from the interfaces' names and `ReportValidationService`. `SubmittedApprove` assumes approval runs `validateForApproval`.
- The `PaymentType` enum is not part of this model. `BankTransfer` and `EWallet` are the two types the validator names, and `OtherType` stands for any other value.
- `RatingServiceImpl.createRating` is not modelled. Its builder call sets a property the `Rating` builder does not declare and never sets `repairOrderId`, so as written it cannot pass the constructor guard. The guards themselves are modelled by `Ratings.BuildRating`.
- RequestLifecycle.RequestContext.ProcessAction: the request states other than `PendingState`, and the reported state's steps other than "create_estimate", are not modelled. The "create_estimate" step (REPORTED to ESTIMATED, one more log entry) is the one RequestContextTest.java:62-67 exercises. For the unmodelled states and steps the model keeps the state and logs nothing, and the contract promises only that the log grows at its end.
- `getStatusLogs`, `getRequest`, `getAllPaymentMethods`, `getAllCoupons`, the repositories' `findAll` and the DTO conversions only copy or project data, and are not modelled beyond `FindAll`.
- Strings: `toLowerCase` and `toUpperCase` are modelled on ASCII letters only. `String.length` counts characters, not UTF-16 units.
- The `Long` counters (`nextId`, `idCounter`) are unbounded integers here, so their overflow is not modelled.
- `TechnicianRequestServiceImpl` imports its repositories from `modules/requestServiceAcceptance/repository` (lines 5-6). There `UserRequestRepository` is a JPA interface keyed by UUID whose `save` inserts or replaces. The JPA `TechnicianRequestRepository` is not modelled. The service is modelled over the in-memory `requestServiceAcceptance/repository` classes instead: int keys, a generated-id counter, and a `save` that refuses a taken request id. The JPA variant's replace-on-save and its `findByUserId` queries are not modelled.
- Other parallel copies of the repositories (`modules/technicianReport/repository`) are not modelled.
- `ReportRepository` filters on `getRepairDate`, which the `Report` entity does not declare. The date field is modelled as a `repairDate` day.
- TechnicianReportService.TechnicianReportService.ReportById uses the corrected view check (`CheckUserCanViewReport`). The check as written is kept as `CheckUserCanViewReportAsWritten`.
- TechnicianReportService.TechnicianReportService.ReportsByStatusForCustomer uses the corrected `CustomerCost`. The written computation is kept as `CustomerCostAsWritten`.
- RepairOrderService.RepairOrderService.Update uses the corrected `UpdateCouponCheck`. The written check is kept as `UpdateCouponCheckAsWritten`.
- RequestRepositories.UserRequestRepository.Save moves the counter past explicit ids. The written behaviour is kept as `SaveAsWritten`.

## Findings

| source | as written | input that shows it | evidently intended | confidence | as-written member | corrected member |
|---|---|---|---|---|---|---|
| src/main/java/id/ac/ui/cs/advprog/everest/modules/technicianreport/service/TechnicianReportServiceImpl.java:418-427 | `customerCanSee()` is evaluated and its result discarded, so the only customer condition is owning the order | the owning customer asks for a report still in DRAFT | a customer is refused a report its state hides from them | not executed | TechnicianReportService.CustomerReadsDraftAsWritten | TechnicianReportService.CheckUserCanViewReport |
| src/main/java/id/ac/ui/cs/advprog/everest/modules/technicianreport/service/TechnicianReportServiceImpl.java:266-273 | the discount is read through the order's coupon without a null check | a customer status query that matches a report whose repair order has no coupon | without a coupon the customer sees the undiscounted cost | not executed | TechnicianReportService.CouponlessOrderBreaksCustomerQuery | TechnicianReportService.CustomerCost |
| src/main/java/id/ac/ui/cs/advprog/everest/modules/repairorder/service/RepairOrderServiceImpl.java:215-234 | an update runs the full coupon check, including the usage limit, on the coupon the order already holds | an order holding the only use of a coupon with maxUsage 1 is updated with the same code | the order's own use is not counted against it, so keeping the coupon is allowed while it is unexpired | not executed | RepairOrderService.KeepingAFullCouponIsRefused | RepairOrderService.UpdateCouponCheck |
| src/main/java/id/ac/ui/cs/advprog/everest/requestServiceAcceptance/repository/UserRequestRepository.java:18-31 | a generated id is counter+1 and is written without checking the key, and explicit ids do not move the counter | save a request with id 1, then save a request with no id | a generated id never collides with a stored one | not executed | RequestRepositories.GeneratedIdOverwritesExplicitOne | RequestRepositories.UserRequestRepository.Save |
