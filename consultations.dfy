/** `ConsultationRequestViewSet.get_queryset` of backend/api/views.py: staff, admins and
    super admins list every request, customers only the ones linked to them. */
module Consultations {
  import opened Wrappers
  import opened Models
  import opened Seqs
  import opened Permissions

  function VisibleConsultations(requester: User, requests: seq<ConsultationRequest>): (r: seq<ConsultationRequest>)
    ensures requester.role != Customer ==> r == requests
    ensures requester.role == Customer ==>
      forall c :: c in r <==> c in requests && c.user == Some(requester.id)
  {
    if requester.role == Staff then requests
    else if requester.role == Customer then Filter(requests, (c: ConsultationRequest) => c.user == Some(requester.id))
    else requests
  }

  /** A customer's listing is exactly what `IsOwnerOrAdmin` would let them open; requests
      submitted without a signed-in user are listed to no customer. */
  lemma CustomerListingMatchesOwnership(requester: User, requests: seq<ConsultationRequest>)
    requires requester.role == Customer
    ensures forall c :: c in VisibleConsultations(requester, requests) <==>
      c in requests && IsOwnerOrAdmin(requester, c.user)
    ensures forall c :: c in VisibleConsultations(requester, requests) ==> c.user.Some?
  {
  }

  /** The staff listing is not narrowed by specialization: a request whose product belongs to
      another specialization is listed to a staff member whom `IsStaffSpecialist` refuses. */
  lemma StaffListsBeyondSpecialization(requester: User, requests: seq<ConsultationRequest>, c: ConsultationRequest, catalog: Catalog)
    requires requester.role == Staff && c in requests && StaffBranchDefined(c, catalog)
    requires requester.specialization != Some(LinkedSpecialization(c, catalog))
    ensures c in VisibleConsultations(requester, requests)
    ensures !IsStaffSpecialist(requester, c, catalog)
  {
  }
}
