/** The service-request / proposal store behind the `/api/requests` routes
    (`server/routes/requests.ts`): an in-memory list of requests, each owning the
    proposals professionals sent for it. */
module Requests {
  import opened Common

  datatype RequestStatus = Open | InProgress | Completed | Cancelled
  datatype ProposalStatus = Pending | Accepted | Rejected
  datatype Urgency = Low | Medium | High
  datatype BudgetType = Range | Fixed
  datatype ContactPreference = ByPhone | ByChat | Both

  datatype Coordinates = Coordinates(lat: real, lng: real)
  datatype Location = Location(address: string, city: string, state: string, coordinates: Option<Coordinates>)
  datatype Budget = Budget(min: string, max: string, kind: BudgetType)

  /** The part of a request that its author fills in. */
  datatype RequestDetails = RequestDetails(
    category: string,
    title: string,
    description: string,
    location: Location,
    urgency: Urgency,
    budget: Budget,
    preferredDate: Option<string>,
    preferredTime: Option<string>,
    contactPreference: ContactPreference,
    images: seq<string>)

  datatype Proposal = Proposal(
    id: string,
    professionalId: string,
    professionalName: string,
    professionalAvatar: string,
    message: string,
    price: real,
    estimatedDuration: string,
    status: ProposalStatus,
    createdAt: Timestamp)

  datatype ServiceRequest = ServiceRequest(
    id: string,
    userId: string,
    details: RequestDetails,
    status: RequestStatus,
    createdAt: Timestamp,
    updatedAt: Timestamp,
    proposals: seq<Proposal>)

  /** The body of `POST /api/requests`. It is spread after `id` and `userId`, so a body
      carrying those keys overrides them; `status`, the timestamps and `proposals` are
      written after the spread and always win. */
  datatype NewRequestBody = NewRequestBody(id: Option<string>, userId: Option<string>, details: RequestDetails)

  /** The body of `PUT /api/requests/:id`: every key it carries overwrites the stored one. */
  datatype RequestPatch = RequestPatch(
    id: Option<string>,
    userId: Option<string>,
    category: Option<string>,
    title: Option<string>,
    description: Option<string>,
    location: Option<Location>,
    urgency: Option<Urgency>,
    budget: Option<Budget>,
    preferredDate: Option<string>,
    preferredTime: Option<string>,
    contactPreference: Option<ContactPreference>,
    images: Option<seq<string>>,
    status: Option<RequestStatus>,
    createdAt: Option<Timestamp>,
    proposals: Option<seq<Proposal>>)

  /** The body of `POST /api/requests/:id/proposals`, spread after `id` and `professionalId`. */
  datatype NewProposalBody = NewProposalBody(
    id: Option<string>,
    professionalId: Option<string>,
    professionalName: string,
    professionalAvatar: string,
    message: string,
    price: real,
    estimatedDuration: string)

  /** `{ requests, total }` */
  datatype RequestList = RequestList(requests: seq<ServiceRequest>, total: nat)

  function HasId(id: string): ServiceRequest -> bool {
    (r: ServiceRequest) => r.id == id
  }

  function OwnedBy(userId: string): ServiceRequest -> bool {
    (r: ServiceRequest) => r.userId == userId
  }

  /** The request `id` when it belongs to `userId` (the `findIndex` of update and cancel). */
  function OwnedMatch(id: string, userId: string): ServiceRequest -> bool {
    (r: ServiceRequest) => r.id == id && r.userId == userId
  }

  /** What the nearby query keeps: open requests whose coordinates are not null. */
  predicate IsNearby(r: ServiceRequest) {
    r.status == Open && r.details.location.coordinates.Some?
  }

  function ProposalHasId(id: string): Proposal -> bool {
    (p: Proposal) => p.id == id
  }

  predicate IsAccepted(p: Proposal) {
    p.status == Accepted
  }

  predicate DistinctIds(ps: seq<Proposal>) {
    forall i, j :: 0 <= i < j < |ps| ==> ps[i].id != ps[j].id
  }

  /** At most one proposal of the request is accepted. */
  predicate AtMostOneAccepted(r: ServiceRequest) {
    |Filter(r.proposals, IsAccepted)| <= 1
  }

  /** `{ ...r, ...patch, updatedAt }` */
  function ApplyPatch(r: ServiceRequest, patch: RequestPatch, now: Timestamp): (res: ServiceRequest)
    ensures res.updatedAt == now
    ensures res.id == patch.id.GetOr(r.id) && res.userId == patch.userId.GetOr(r.userId)
    ensures res.status == patch.status.GetOr(r.status) && res.createdAt == patch.createdAt.GetOr(r.createdAt)
    ensures res.proposals == patch.proposals.GetOr(r.proposals)
    ensures res.details.title == patch.title.GetOr(r.details.title)
    ensures res.details.budget == patch.budget.GetOr(r.details.budget)
    ensures res.details.location == patch.location.GetOr(r.details.location)
    ensures res.details.category == patch.category.GetOr(r.details.category)
    ensures res.details.description == patch.description.GetOr(r.details.description)
    ensures res.details.urgency == patch.urgency.GetOr(r.details.urgency)
    ensures res.details.preferredDate == (if patch.preferredDate.Some? then patch.preferredDate else r.details.preferredDate)
    ensures res.details.preferredTime == (if patch.preferredTime.Some? then patch.preferredTime else r.details.preferredTime)
    ensures res.details.contactPreference == patch.contactPreference.GetOr(r.details.contactPreference)
    ensures res.details.images == patch.images.GetOr(r.details.images)
    ensures patch == RequestPatch(None, None, None, None, None, None, None, None, None, None, None, None, None, None, None)
      ==> res == r.(updatedAt := now)
  {
    var d := r.details;
    ServiceRequest(
      patch.id.GetOr(r.id),
      patch.userId.GetOr(r.userId),
      RequestDetails(
        patch.category.GetOr(d.category),
        patch.title.GetOr(d.title),
        patch.description.GetOr(d.description),
        patch.location.GetOr(d.location),
        patch.urgency.GetOr(d.urgency),
        patch.budget.GetOr(d.budget),
        if patch.preferredDate.Some? then patch.preferredDate else d.preferredDate,
        if patch.preferredTime.Some? then patch.preferredTime else d.preferredTime,
        patch.contactPreference.GetOr(d.contactPreference),
        patch.images.GetOr(d.images)),
      patch.status.GetOr(r.status),
      patch.createdAt.GetOr(r.createdAt),
      now,
      patch.proposals.GetOr(r.proposals))
  }

  /** `{ id, professionalId, ...body, status: "pending", createdAt }` */
  function NewProposal(caller: string, body: NewProposalBody, freshId: string, now: Timestamp): (p: Proposal)
    ensures p.status == Pending && p.createdAt == now
    ensures p.id == body.id.GetOr(freshId) && p.professionalId == body.professionalId.GetOr(caller)
    ensures p.professionalName == body.professionalName && p.message == body.message && p.price == body.price
    ensures p.professionalAvatar == body.professionalAvatar && p.estimatedDuration == body.estimatedDuration
  {
    Proposal(
      body.id.GetOr(freshId),
      body.professionalId.GetOr(caller),
      body.professionalName,
      body.professionalAvatar,
      body.message,
      body.price,
      body.estimatedDuration,
      Pending,
      now)
  }

  /** The `forEach` that follows an accept: every proposal whose id differs from `id`
      becomes rejected. */
  function RejectOthers(ps: seq<Proposal>, id: string): (r: seq<Proposal>)
    ensures |r| == |ps|
    ensures forall k :: 0 <= k < |ps| ==> r[k] == if ps[k].id != id then ps[k].(status := Rejected) else ps[k]
    decreases |ps|
  {
    if ps == [] then []
    else [if ps[0].id != id then ps[0].(status := Rejected) else ps[0]] + RejectOthers(ps[1..], id)
  }

  /** The proposals after `PUT .../proposals/:id` sets the status of the found proposal
      `j` (whose id is `id`) to `status`. */
  function Decide(ps: seq<Proposal>, j: nat, id: string, status: ProposalStatus): (r: seq<Proposal>)
    requires j < |ps| && ps[j].id == id
    ensures |r| == |ps|
    ensures r[j] == ps[j].(status := status)
    ensures forall k :: 0 <= k < |ps| && k != j ==>
      r[k] == if status == Accepted && ps[k].id != id then ps[k].(status := Rejected) else ps[k]
  {
    var marked := ps[j := ps[j].(status := status)];
    if status == Accepted then RejectOthers(marked, id) else marked
  }

  /** The request after that decision: an accept also moves it to `in_progress`. */
  function Decided(r: ServiceRequest, j: nat, id: string, status: ProposalStatus, now: Timestamp): (res: ServiceRequest)
    requires j < |r.proposals| && r.proposals[j].id == id
    ensures res.proposals == Decide(r.proposals, j, id, status)
    ensures res.status == (if status == Accepted then InProgress else r.status) && res.updatedAt == now
    ensures res.(proposals := r.proposals, status := r.status, updatedAt := r.updatedAt) == r
  {
    r.(proposals := Decide(r.proposals, j, id, status),
       status := if status == Accepted then InProgress else r.status,
       updatedAt := now)
  }

  /** Accepting a proposal of a request whose proposal ids are distinct leaves exactly
      that proposal accepted and every other one rejected. */
  lemma AcceptLeavesExactlyOne(r: ServiceRequest, j: nat, id: string, now: Timestamp)
    requires j < |r.proposals| && r.proposals[j].id == id
    requires DistinctIds(r.proposals)
    ensures var r' := Decided(r, j, id, Accepted, now);
      && r'.status == InProgress
      && r'.proposals[j].status == Accepted
      && (forall k :: 0 <= k < |r.proposals| && k != j ==> r'.proposals[k].status == Rejected)
      && Filter(r'.proposals, IsAccepted) == [r'.proposals[j]]
      && AtMostOneAccepted(r')
  {
    var ps := Decide(r.proposals, j, id, Accepted);
    assert forall k :: 0 <= k < |ps| && k != j ==> ps[k].status == Rejected;
    FilterSingle(ps, IsAccepted, j);
  }

  /** Without distinct ids the accept does not enforce a single accepted proposal: a
      second proposal carrying the same id keeps an earlier `accepted`. */
  lemma AcceptWithDuplicateIds(a: Proposal)
    ensures var ps := [a.(id := "prop_1", status := Pending), a.(id := "prop_1", status := Accepted)];
      |Filter(Decide(ps, 0, "prop_1", Accepted), IsAccepted)| == 2
  {
    var ps := [a.(id := "prop_1", status := Pending), a.(id := "prop_1", status := Accepted)];
    var d := Decide(ps, 0, "prop_1", Accepted);
    assert d[0].status == Accepted && d[1].status == Accepted;
    FilterAll(d, IsAccepted);
  }

  /** A decision other than accept changes only the chosen proposal: the request status
      and the siblings are untouched, and the accepted count cannot grow. */
  lemma NonAcceptChangesOnlyThatProposal(r: ServiceRequest, j: nat, id: string, status: ProposalStatus, now: Timestamp)
    requires j < |r.proposals| && r.proposals[j].id == id && status != Accepted
    ensures var r' := Decided(r, j, id, status, now);
      && r'.status == r.status
      && r'.proposals == r.proposals[j := r.proposals[j].(status := status)]
      && |Filter(r'.proposals, IsAccepted)| <= |Filter(r.proposals, IsAccepted)|
  {
    FilterLengthUpdate(r.proposals, j, r.proposals[j].(status := status), IsAccepted);
  }

  /** A new proposal is pending, so adding it keeps the accepted proposals as they were. */
  lemma NewProposalKeepsAccepted(ps: seq<Proposal>, caller: string, body: NewProposalBody, freshId: string, now: Timestamp)
    ensures Filter(ps + [NewProposal(caller, body, freshId, now)], IsAccepted) == Filter(ps, IsAccepted)
  {
    var p := NewProposal(caller, body, freshId, now);
    FilterAppend(ps, [p], IsAccepted);
    FilterNone([p], IsAccepted);
  }

  /** Creating a request adds it to its owner's listing, at the end, and to nobody else's. */
  lemma CreatedRequestListed(rs: seq<ServiceRequest>, created: ServiceRequest, userId: string)
    ensures Filter(rs + [created], OwnedBy(userId))
         == Filter(rs, OwnedBy(userId)) + (if created.userId == userId then [created] else [])
  {
    FilterAppend(rs, [created], OwnedBy(userId));
    if created.userId == userId {
      FilterAll([created], OwnedBy(userId));
    } else {
      FilterNone([created], OwnedBy(userId));
    }
  }

  /** Cancelling keeps the request in every listing: no listing changes its length. */
  lemma CancelKeepsListings(rs: seq<ServiceRequest>, i: nat, now: Timestamp, userId: string)
    requires i < |rs|
    ensures var rs' := rs[i := rs[i].(status := Cancelled, updatedAt := now)];
      |rs'| == |rs| && |Filter(rs', OwnedBy(userId))| == |Filter(rs, OwnedBy(userId))|
  {
    FilterLengthUpdate(rs, i, rs[i].(status := Cancelled, updatedAt := now), OwnedBy(userId));
  }

  class RequestStore {
    var requests: seq<ServiceRequest>

    /** The module-level `requests` array, starting from the given seed. */
    constructor (initial: seq<ServiceRequest>)
      ensures requests == initial
    {
      requests := initial;
    }

    /** `GET /api/requests`: the caller's requests and their number. */
    function GetRequests(caller: string): (r: RequestList)
      reads this
      ensures r.total == |r.requests|
      ensures forall x :: multiset(r.requests)[x] == if x.userId == caller then multiset(requests)[x] else 0
      ensures forall x :: x in r.requests <==> x in requests && x.userId == caller
    {
      var mine := Filter(requests, OwnedBy(caller));
      RequestList(mine, |mine|)
    }

    /** `GET /api/requests/:id` */
    function GetRequest(id: string): (r: Response<ServiceRequest>)
      reads this
      ensures r.Ok? ==> r.value.id == id
      ensures r.Ok? ==> exists k :: 0 <= k < |requests| && requests[k] == r.value && (forall j :: 0 <= j < k ==> requests[j].id != id)
      ensures r.NotFound? <==> forall k :: 0 <= k < |requests| ==> requests[k].id != id
      ensures r.NotFound? ==> r.message == "Request not found"
      ensures !r.Unauthorized? && !r.BadRequest?
    {
      match FindIndex(requests, HasId(id))
      case None => NotFound("Request not found")
      case Some(i) => Ok(requests[i])
    }

    /** `GET /api/requests/nearby`: the query's `lat`, `lng` and `radius` play no part. */
    function GetNearbyRequests(lat: Option<string>, lng: Option<string>, radius: Option<string>): (r: RequestList)
      reads this
      ensures r.total == |r.requests|
      ensures forall x :: multiset(r.requests)[x] == if IsNearby(x) then multiset(requests)[x] else 0
      ensures forall x :: x in r.requests <==> x in requests && x.status == Open && x.details.location.coordinates.Some?
    {
      var near := Filter(requests, IsNearby);
      RequestList(near, |near|)
    }

    /** `POST /api/requests` */
    method CreateRequest(caller: string, body: NewRequestBody, freshId: string, now: Timestamp)
      returns (created: ServiceRequest)
      modifies this
      ensures requests == old(requests) + [created]
      ensures created.status == Open && created.proposals == []
      ensures created.id == body.id.GetOr(freshId) && created.userId == body.userId.GetOr(caller)
      ensures created.details == body.details && created.createdAt == now && created.updatedAt == now
    {
      created := ServiceRequest(body.id.GetOr(freshId), body.userId.GetOr(caller), body.details, Open, now, now, []);
      requests := requests + [created];
    }

    /** `PUT /api/requests/:id` */
    method UpdateRequest(caller: string, id: string, patch: RequestPatch, now: Timestamp)
      returns (res: Response<ServiceRequest>)
      modifies this
      ensures match FindIndex(old(requests), OwnedMatch(id, caller))
        case None => res == NotFound("Request not found") && requests == old(requests)
        case Some(i) =>
          && requests == old(requests)[i := ApplyPatch(old(requests)[i], patch, now)]
          && res == Ok(requests[i])
    {
      var found := FindIndex(requests, OwnedMatch(id, caller));
      if found.None? {
        return NotFound("Request not found");
      }
      var i := found.value;
      requests := requests[i := ApplyPatch(requests[i], patch, now)];
      res := Ok(requests[i]);
    }

    /** `DELETE /api/requests/:id`: cancels, and does not remove, the caller's request. */
    method DeleteRequest(caller: string, id: string, now: Timestamp) returns (res: Response<string>)
      modifies this
      ensures |requests| == |old(requests)|
      ensures match FindIndex(old(requests), OwnedMatch(id, caller))
        case None => res == NotFound("Request not found") && requests == old(requests)
        case Some(i) =>
          && requests == old(requests)[i := old(requests)[i].(status := Cancelled, updatedAt := now)]
          && res == Ok("Request cancelled successfully")
    {
      var found := FindIndex(requests, OwnedMatch(id, caller));
      if found.None? {
        return NotFound("Request not found");
      }
      var i := found.value;
      requests := requests[i := requests[i].(status := Cancelled, updatedAt := now)];
      res := Ok("Request cancelled successfully");
    }

    /** `POST /api/requests/:id/proposals`: no check of the request's status or owner. */
    method CreateProposal(caller: string, requestId: string, body: NewProposalBody, freshId: string, now: Timestamp)
      returns (res: Response<Proposal>)
      modifies this
      ensures |requests| == |old(requests)|
      ensures res.Ok? ==> res.value.status == Pending
      ensures match FindIndex(old(requests), HasId(requestId))
        case None => res == NotFound("Request not found") && requests == old(requests)
        case Some(i) =>
          var p := NewProposal(caller, body, freshId, now);
          && requests == old(requests)[i := old(requests)[i].(proposals := old(requests)[i].proposals + [p], updatedAt := now)]
          && res == Ok(p)
    {
      var found := FindIndex(requests, HasId(requestId));
      if found.None? {
        return NotFound("Request not found");
      }
      var i := found.value;
      var p := NewProposal(caller, body, freshId, now);
      requests := requests[i := requests[i].(proposals := requests[i].proposals + [p], updatedAt := now)];
      res := Ok(p);
    }

    /** `PUT /api/requests/:requestId/proposals/:proposalId`: accept or reject. Neither the
        request's owner nor its status is checked. */
    method UpdateProposal(requestId: string, proposalId: string, status: ProposalStatus, now: Timestamp)
      returns (res: Response<Proposal>)
      modifies this
      ensures |requests| == |old(requests)|
      ensures match FindIndex(old(requests), HasId(requestId))
        case None => res == NotFound("Request not found") && requests == old(requests)
        case Some(i) =>
          match FindIndex(old(requests)[i].proposals, ProposalHasId(proposalId))
          case None => res == NotFound("Proposal not found") && requests == old(requests)
          case Some(j) =>
            && requests == old(requests)[i := Decided(old(requests)[i], j, proposalId, status, now)]
            && res == Ok(requests[i].proposals[j])
    {
      var found := FindIndex(requests, HasId(requestId));
      if found.None? {
        return NotFound("Request not found");
      }
      var i := found.value;
      var r := requests[i];
      var foundProposal := FindIndex(r.proposals, ProposalHasId(proposalId));
      if foundProposal.None? {
        return NotFound("Proposal not found");
      }
      var j := foundProposal.value;
      var ps := r.proposals[j := r.proposals[j].(status := status)];
      var requestStatus := r.status;
      if status == Accepted {
        requestStatus := InProgress;
        ghost var before := ps;
        var k := 0;
        while k < |ps|
          invariant 0 <= k <= |ps| == |before|
          invariant forall m :: 0 <= m < k ==>
            ps[m] == if before[m].id != proposalId then before[m].(status := Rejected) else before[m]
          invariant forall m :: k <= m < |ps| ==> ps[m] == before[m]
        {
          if ps[k].id != proposalId {
            ps := ps[k := ps[k].(status := Rejected)];
          }
          k := k + 1;
        }
        assert ps == RejectOthers(before, proposalId);
      }
      requests := requests[i := r.(proposals := ps, status := requestStatus, updatedAt := now)];
      res := Ok(ps[j]);
    }
  }
}
