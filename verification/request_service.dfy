/** TechnicianRequestServiceImpl: a technician takes a user request. */
module TechnicianRequestService {
  import opened Common
  import opened RequestRepositories

  datatype AssignError =
    | TechnicianIdMissing
    | AlreadyAssigned
    | UserRequestNotFound

  function AssignMessage(e: AssignError): string
  {
    match e
    case TechnicianIdMissing => "Technician ID cannot be null."
    case AlreadyAssigned => "Request is already assigned to a technician."
    case UserRequestNotFound => "User request not found."
  }

  class TechnicianRequestService {
    const technicianRepository: TechnicianRequestRepository
    const userRequestRepository: UserRequestRepository

    ghost predicate Valid()
      reads this, technicianRepository, userRequestRepository
    {
      technicianRepository.Valid() && userRequestRepository.Valid()
    }

    constructor (technicianRepository: TechnicianRequestRepository, userRequestRepository: UserRequestRepository)
      ensures this.technicianRepository == technicianRepository
      ensures this.userRequestRepository == userRequestRepository
    {
      this.technicianRepository := technicianRepository;
      this.userRequestRepository := userRequestRepository;
    }

    /** assignRequestToTechnician: the technician id is checked first, then
        whether the request is taken, then whether the user request exists;
        success stores a PENDING request held by that technician. */
    method AssignRequestToTechnician(requestId: int, technicianId: Option<int>)
      returns (r: Result<IncomingRequest, AssignError>)
      requires Valid()
      modifies technicianRepository
      ensures Valid()
      ensures technicianId.None? ==> r == Err(TechnicianIdMissing)
      ensures technicianId.Some? && requestId in old(technicianRepository.technicianRequests) ==>
                r == Err(AlreadyAssigned)
      ensures (technicianId.Some? && requestId !in old(technicianRepository.technicianRequests)
               && requestId !in userRequestRepository.userRequests) ==> r == Err(UserRequestNotFound)
      ensures r.Ok? <==> technicianId.Some? && requestId !in old(technicianRepository.technicianRequests)
                         && requestId in userRequestRepository.userRequests
      ensures r.Ok? ==>
                && r.value == From(userRequestRepository.userRequests[requestId], requestId, technicianId.value)
                && technicianRepository.technicianRequests
                   == old(technicianRepository.technicianRequests)[requestId := r.value]
      ensures r.Err? ==> technicianRepository.technicianRequests == old(technicianRepository.technicianRequests)
    {
      if technicianId.None? {
        return Err(TechnicianIdMissing);
      }
      if technicianRepository.FindByRequestId(requestId).Some? {
        return Err(AlreadyAssigned);
      }
      var userRequest := userRequestRepository.FindById(requestId);
      if userRequest.None? {
        return Err(UserRequestNotFound);
      }
      var saved := technicianRepository.Save(From(userRequest.value, requestId, technicianId.value));
      if saved.Err? {
        // the checks above leave the repository no reason to refuse
        assert false;
      }
      r := Ok(saved.value);
    }

    /** deleteRequest: the repository's answer. */
    method DeleteRequest(requestId: int) returns (removed: bool)
      requires Valid()
      modifies technicianRepository
      ensures Valid()
      ensures removed <==> requestId in old(technicianRepository.technicianRequests)
      ensures technicianRepository.technicianRequests == old(technicianRepository.technicianRequests) - {requestId}
    {
      removed := technicianRepository.DeleteByRequestId(requestId);
    }
  }
}
