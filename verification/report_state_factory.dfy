/** ReportStateFactory: rebuilds a report's state object from its stored
    status string. */
module ReportStateFactory {
  import opened Common
  import opened ReportStates

  /** STATE_MAP: each status constant and the state it stands for. */
  const StateMap: map<string, ReportState> := map[
    DRAFT := Draft,
    SUBMITTED := Submitted,
    APPROVED := Approved,
    REJECTED := Rejected,
    IN_PROGRESS := InProgress,
    COMPLETED := Completed]

  /** IllegalStateException("Unknown status: " + status) */
  datatype FactoryError = UnknownStatus(status: string)

  function FactoryMessage(e: FactoryError): string
  {
    "Unknown status: " + e.status
  }

  /** createState: a null status is a draft; a known constant gives its own
      state; anything else is refused. */
  function CreateState(status: Option<string>): (r: Result<ReportState, FactoryError>)
    ensures status.None? ==> r == Ok(Draft)
    ensures status.Some? && r.Ok? ==> Name(r.value) == status.value
    ensures status.Some? ==> (r.Err? <==> status.value !in StateMap)
    ensures r.Err? ==> r.error == UnknownStatus(status.value)
  {
    if status.None? then Ok(Draft)
    else if status.value in StateMap then Ok(StateMap[status.value])
    else Err(UnknownStatus(status.value))
  }

  /** The six constants are exactly the state names, and the factory undoes
      getName: a report's stored status rebuilds the state it was saved in. */
  lemma CreateStateInvertsName(s: ReportState)
    ensures Name(s) in StateMap
    ensures CreateState(Some(Name(s))) == Ok(s)
  {
  }

  /** Every name the factory accepts is the name of the state it builds, so
      a status that is not some state's name is unknown. */
  lemma CreateStateAcceptsOnlyNames(status: string)
    ensures CreateState(Some(status)).Ok? <==> exists s: ReportState :: Name(s) == status
  {
    if CreateState(Some(status)).Ok? {
      assert Name(StateMap[status]) == status;
    }
  }
}
