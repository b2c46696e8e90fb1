/** The in-memory repositories of the request-acceptance flow: user
    requests keyed by a generated or given id, and the requests technicians
    have taken, at most one technician per request. */
module RequestRepositories {
  import opened Common

  /** RequestStatus: the statuses a request carries in the acceptance flow. */
  datatype RequestStatus = Pending | Accepted | Reported | Estimated | InProgress | Rejected

  /** UserRequest: a customer's description, with an id once saved. */
  datatype UserRequest = UserRequest(id: Option<int>, userDescription: string)

  /** IncomingRequest: a user request as a technician sees it. */
  datatype IncomingRequest = IncomingRequest(
    requestId: int,
    technicianId: Option<int>,
    description: string,
    status: RequestStatus)

  /** IncomingRequest.from: the user request's id and description, the
      technician, and the status PENDING. */
  function From(userRequest: UserRequest, id: int, technicianId: int): (r: IncomingRequest)
    ensures r.requestId == id && r.technicianId == Some(technicianId)
    ensures r.description == userRequest.userDescription && r.status == Pending
  {
    IncomingRequest(id, Some(technicianId), userRequest.userDescription, Pending)
  }

  datatype RepositoryError =
    | TechnicianIdNull
    | AlreadyTaken(requestId: int, technicianId: Option<int>)
    | UserRequestExists

  /** The stored requests assigned to technician `t`. */
  function AssignedTo(m: map<int, IncomingRequest>, t: int): set<IncomingRequest>
  {
    set k | k in m && m[k].technicianId == Some(t) :: m[k]
  }

  /** Storing a request under a new key adds it to its technician's listing
      and leaves every other technician's listing as it was. */
  lemma {:induction false} AssignedAfterAdd(m: map<int, IncomingRequest>, k: int, v: IncomingRequest)
    requires k !in m && v.technicianId.Some?
    ensures AssignedTo(m[k := v], v.technicianId.value) == AssignedTo(m, v.technicianId.value) + {v}
    ensures forall t :: t != v.technicianId.value ==> AssignedTo(m[k := v], t) == AssignedTo(m, t)
  {
    var n := m[k := v];
    forall q | q in AssignedTo(m, v.technicianId.value)
      ensures q in AssignedTo(n, v.technicianId.value)
    {
      var j :| j in m && m[j].technicianId == v.technicianId && m[j] == q;
      assert j in n && n[j] == q;
    }
    forall t | t != v.technicianId.value
      ensures AssignedTo(n, t) == AssignedTo(m, t)
    {
      forall q | q in AssignedTo(m, t)
        ensures q in AssignedTo(n, t)
      {
        var j :| j in m && m[j].technicianId == Some(t) && m[j] == q;
        assert j in n && n[j] == q;
      }
    }
    assert v in AssignedTo(n, v.technicianId.value) by { assert n[k] == v; }
  }

  class TechnicianRequestRepository {
    var technicianRequests: map<int, IncomingRequest>

    /** Every stored request is filed under its own id and has a technician. */
    ghost predicate Valid()
      reads this
    {
      forall k :: k in technicianRequests ==>
        technicianRequests[k].requestId == k && technicianRequests[k].technicianId.Some?
    }

    constructor ()
      ensures Valid() && technicianRequests == map[]
    {
      technicianRequests := map[];
    }

    /** save: refused without a technician, and refused for a request some
        technician already holds; otherwise stored under its id. */
    method Save(request: IncomingRequest) returns (r: Result<IncomingRequest, RepositoryError>)
      requires Valid()
      modifies this
      ensures Valid()
      ensures request.technicianId.None? ==> r == Err(TechnicianIdNull)
      ensures request.technicianId.Some? && request.requestId in old(technicianRequests) ==>
                r == Err(AlreadyTaken(request.requestId, old(technicianRequests)[request.requestId].technicianId))
      ensures r.Ok? <==> request.technicianId.Some? && request.requestId !in old(technicianRequests)
      ensures r.Ok? ==> r.value == request && technicianRequests == old(technicianRequests)[request.requestId := request]
      ensures r.Ok? ==> FindByRequestId(request.requestId) == Some(request)
      ensures r.Err? ==> technicianRequests == old(technicianRequests)
      ensures r.Err? ==> forall t :: FindByTechnicianId(t) == old(FindByTechnicianId(t))
      ensures r.Ok? ==> FindByTechnicianId(request.technicianId.value) ==
                          old(FindByTechnicianId(request.technicianId.value)) + {request}
      ensures r.Ok? ==> forall t :: t != request.technicianId.value ==> FindByTechnicianId(t) == old(FindByTechnicianId(t))
    {
      if request.technicianId.None? {
        return Err(TechnicianIdNull);
      }
      if request.requestId in technicianRequests {
        return Err(AlreadyTaken(request.requestId, technicianRequests[request.requestId].technicianId));
      }
      AssignedAfterAdd(technicianRequests, request.requestId, request);
      technicianRequests := technicianRequests[request.requestId := request];
      r := Ok(request);
    }

    /** findByRequestId */
    function FindByRequestId(requestId: int): (r: Option<IncomingRequest>)
      reads this
      ensures r.Some? <==> requestId in technicianRequests
      ensures r.Some? ==> r.value == technicianRequests[requestId]
    {
      if requestId in technicianRequests then Some(technicianRequests[requestId]) else None
    }

    /** findByTechnicianId: the requests assigned to that technician. */
    function FindByTechnicianId(technicianId: int): (r: set<IncomingRequest>)
      reads this
      ensures forall q :: q in r ==> q in technicianRequests.Values && q.technicianId == Some(technicianId)
      ensures forall k :: k in technicianRequests && technicianRequests[k].technicianId == Some(technicianId) ==>
                technicianRequests[k] in r
    {
      AssignedTo(technicianRequests, technicianId)
    }

    /** findAll */
    function FindAll(): set<IncomingRequest>
      reads this
    {
      technicianRequests.Values
    }

    /** deleteByRequestId: true exactly when the request was there; it is
        gone afterwards either way. */
    method DeleteByRequestId(requestId: int) returns (removed: bool)
      requires Valid()
      modifies this
      ensures Valid()
      ensures removed <==> requestId in old(technicianRequests)
      ensures technicianRequests == old(technicianRequests) - {requestId}
      ensures FindByRequestId(requestId).None?
    {
      removed := requestId in technicianRequests;
      technicianRequests := technicianRequests - {requestId};
    }
  }

  /** UserRequestRepository.save as written: a generated id is the counter
      plus one and is stored whether or not an explicitly saved request
      already has it. Returns the new map, the new counter and the result. */
  function SaveAsWritten(userRequests: map<int, UserRequest>, idCounter: int, request: UserRequest)
    : (map<int, UserRequest>, int, Result<UserRequest, RepositoryError>)
  {
    if request.id.None? then
      var newId := idCounter + 1;
      var created := UserRequest(Some(newId), request.userDescription);
      (userRequests[newId := created], newId, Ok(created))
    else if request.id.value in userRequests then
      (userRequests, idCounter, Err(UserRequestExists))
    else
      (userRequests[request.id.value := request], idCounter, Ok(request))
  }

  /** Whenever the key after the counter is taken, a save without an id
      takes that key anyway and replaces what is stored there: the map
      gains no key although the save reports success. */
  lemma GeneratedIdOverwritesTakenKey(m: map<int, UserRequest>, n: int, desc: string)
    requires n + 1 in m
    ensures var (m2, c2, r2) := SaveAsWritten(m, n, UserRequest(None, desc));
            && r2 == Ok(UserRequest(Some(n + 1), desc)) && c2 == n + 1
            && m2.Keys == m.Keys && m2[n + 1] == r2.value
            && forall k :: k in m && k != n + 1 ==> m2[k] == m[k]
  {
  }

  /** From any state whose next generated key is still free, saving a
      request explicitly under that key and then one without an id: both
      saves succeed under the same id, the second replaces the first, and
      the same id given explicitly would have been refused. */
  lemma {:induction false} GeneratedIdOverwritesExplicitOne(m: map<int, UserRequest>, n: int, first: string, second: string)
    requires n + 1 !in m
    ensures var (m1, c1, r1) := SaveAsWritten(m, n, UserRequest(Some(n + 1), first));
            var (m2, c2, r2) := SaveAsWritten(m1, c1, UserRequest(None, second));
            && r1 == Ok(UserRequest(Some(n + 1), first)) && c1 == n
            && r2 == Ok(UserRequest(Some(n + 1), second))
            && m2 == m[n + 1 := UserRequest(Some(n + 1), second)]
            && |m2| == |m| + 1
            && SaveAsWritten(m1, c1, UserRequest(Some(n + 1), second)).2 == Err(UserRequestExists)
  {
    var (m1, c1, r1) := SaveAsWritten(m, n, UserRequest(Some(n + 1), first));
    var (m2, c2, r2) := SaveAsWritten(m1, c1, UserRequest(None, second));
    assert m2 == m[n + 1 := UserRequest(Some(n + 1), second)];
  }

  class UserRequestRepository {
    var userRequests: map<int, UserRequest>
    var idCounter: int

    /** Requests are filed under their ids, and the counter is at or above
        every stored id, so the next generated id is free. */
    ghost predicate Valid()
      reads this
    {
      forall k :: k in userRequests ==> userRequests[k].id == Some(k) && k <= idCounter
    }

    constructor ()
      ensures Valid() && userRequests == map[] && idCounter == 0
    {
      userRequests := map[];
      idCounter := 0;
    }

    /** save: a request without an id gets the next counter value; one with
        an id already stored is refused; one with a new id is stored as
        given and the counter moves past it. A save never replaces a stored
        request. */
    method Save(request: UserRequest) returns (r: Result<UserRequest, RepositoryError>)
      requires Valid()
      modifies this
      ensures Valid()
      ensures request.id.None? ==>
                && idCounter == old(idCounter) + 1
                && r == Ok(UserRequest(Some(idCounter), request.userDescription))
                && idCounter !in old(userRequests)
                && userRequests == old(userRequests)[idCounter := r.value]
      ensures request.id.Some? && request.id.value in old(userRequests) ==>
                r == Err(UserRequestExists) && userRequests == old(userRequests) && idCounter == old(idCounter)
      ensures request.id.Some? && request.id.value !in old(userRequests) ==>
                && r == Ok(request)
                && userRequests == old(userRequests)[request.id.value := request]
                && idCounter == (if request.id.value > old(idCounter) then request.id.value else old(idCounter))
      ensures forall k :: k in old(userRequests) ==> k in userRequests && userRequests[k] == old(userRequests)[k]
    {
      if request.id.None? {
        idCounter := idCounter + 1;
        var created := UserRequest(Some(idCounter), request.userDescription);
        userRequests := userRequests[idCounter := created];
        return Ok(created);
      }
      var id := request.id.value;
      if id in userRequests {
        return Err(UserRequestExists);
      }
      userRequests := userRequests[id := request];
      if id > idCounter {
        idCounter := id;
      }
      r := Ok(request);
    }

    /** findById */
    function FindById(id: int): (r: Option<UserRequest>)
      reads this
      ensures r.Some? <==> id in userRequests
      ensures r.Some? ==> r.value == userRequests[id]
    {
      if id in userRequests then Some(userRequests[id]) else None
    }

    /** findAll */
    function FindAll(): set<UserRequest>
      reads this
    {
      userRequests.Values
    }

    /** deleteById: true exactly when the request was there. */
    method DeleteById(id: int) returns (removed: bool)
      requires Valid()
      modifies this
      ensures Valid() && idCounter == old(idCounter)
      ensures removed <==> id in old(userRequests)
      ensures userRequests == old(userRequests) - {id}
    {
      removed := id in userRequests;
      userRequests := userRequests - {id};
    }
  }
}
