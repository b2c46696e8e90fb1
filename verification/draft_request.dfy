/** CreateTechnicianReportDraftRequest: what a technician sends to open a
    draft report, and the field checks it runs on itself. */
module DraftRequest {
  import opened Common

  datatype CreateDraftRequest = CreateDraftRequest(
    repairOrderId: Option<string>,
    diagnosis: Option<string>,
    actionPlan: Option<string>,
    estimatedCost: Option<int>,
    estimatedTimeSeconds: Option<int>)

  /** InvalidDataTechnicianReport, one per field in declaration order. */
  datatype DraftError =
    | RepairOrderIdBlank
    | DiagnosisBlank
    | ActionPlanBlank
    | EstimatedCostInvalid
    | EstimatedTimeInvalid

  function DraftMessage(e: DraftError): string
  {
    match e
    case RepairOrderIdBlank => "repairOrderId cannot be null or blank"
    case DiagnosisBlank => "diagnosis cannot be null or blank"
    case ActionPlanBlank => "actionPlan cannot be null or blank"
    case EstimatedCostInvalid => "estimatedCost cannot be null or negative"
    case EstimatedTimeInvalid => "estimatedTimeSeconds must be positive"
  }

  /** The fields in the order the checks visit them. */
  const FieldOrder: seq<DraftError> :=
    [RepairOrderIdBlank, DiagnosisBlank, ActionPlanBlank, EstimatedCostInvalid, EstimatedTimeInvalid]

  /** Whether the field guarded by `f` is acceptable on its own. */
  predicate FieldOk(req: CreateDraftRequest, f: DraftError)
  {
    match f
    case RepairOrderIdBlank => !NullOrBlank(req.repairOrderId)
    case DiagnosisBlank => !NullOrBlank(req.diagnosis)
    case ActionPlanBlank => !NullOrBlank(req.actionPlan)
    case EstimatedCostInvalid => req.estimatedCost.Some? && req.estimatedCost.value >= 0
    case EstimatedTimeInvalid => req.estimatedTimeSeconds.Some? && req.estimatedTimeSeconds.value > 0
  }

  /** validate: the request passes iff every field is acceptable; otherwise
      the error names the first unacceptable field in declaration order. */
  function Validate(req: CreateDraftRequest): (r: Outcome<DraftError>)
    ensures r.Pass? <==> FieldOk(req, RepairOrderIdBlank) && FieldOk(req, DiagnosisBlank)
                         && FieldOk(req, ActionPlanBlank) && FieldOk(req, EstimatedCostInvalid)
                         && FieldOk(req, EstimatedTimeInvalid)
    ensures r.Fail? ==> !FieldOk(req, r.error)
    ensures r == Fail(RepairOrderIdBlank) <==> !FieldOk(req, RepairOrderIdBlank)
  {
    if NullOrBlank(req.repairOrderId) then Fail(RepairOrderIdBlank)
    else if NullOrBlank(req.diagnosis) then Fail(DiagnosisBlank)
    else if NullOrBlank(req.actionPlan) then Fail(ActionPlanBlank)
    else if req.estimatedCost.None? || req.estimatedCost.value < 0 then Fail(EstimatedCostInvalid)
    else if req.estimatedTimeSeconds.None? || req.estimatedTimeSeconds.value <= 0 then Fail(EstimatedTimeInvalid)
    else Pass
  }

  /** The first failing field, in declaration order, decides the error. */
  lemma ValidateReportsFirstFailingField(req: CreateDraftRequest)
    ensures Validate(req).Pass? <==> forall i :: 0 <= i < |FieldOrder| ==> FieldOk(req, FieldOrder[i])
    ensures Validate(req).Fail? ==>
              exists k :: 0 <= k < |FieldOrder| && FieldOrder[k] == Validate(req).error
                && forall j :: 0 <= j < k ==> FieldOk(req, FieldOrder[j])
  {
    var r := Validate(req);
    if r.Pass? {
      forall i | 0 <= i < |FieldOrder|
        ensures FieldOk(req, FieldOrder[i])
      {
      }
    } else {
      assert !FieldOk(req, FieldOrder[0]) || !FieldOk(req, FieldOrder[1]) || !FieldOk(req, FieldOrder[2])
             || !FieldOk(req, FieldOrder[3]) || !FieldOk(req, FieldOrder[4]);
      var k :| 0 <= k < 5 && FieldOrder[k] == r.error;
      assert forall j :: 0 <= j < k ==> FieldOk(req, FieldOrder[j]);
    }
  }

  /** A zero cost is accepted, a zero duration is not. */
  lemma ZeroCostButNotZeroTime(req: CreateDraftRequest)
    requires forall i :: 0 <= i < 3 ==> FieldOk(req, FieldOrder[i])
    ensures (req.estimatedCost == Some(0) && req.estimatedTimeSeconds.Some? && req.estimatedTimeSeconds.value > 0)
              ==> Validate(req).Pass?
    ensures (req.estimatedCost == Some(0) && req.estimatedTimeSeconds == Some(0))
              ==> Validate(req) == Fail(EstimatedTimeInvalid)
  {
    assert FieldOk(req, FieldOrder[0]) && FieldOk(req, FieldOrder[1]) && FieldOk(req, FieldOrder[2]);
  }
}
