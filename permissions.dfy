/** The object-level permission predicates of backend/api/permissions.py. */
module Permissions {
  import opened Wrappers
  import opened Models

  /** `IsOwnerOrAdmin.has_object_permission`. `owner` is the object's `user` key (None when
      the link is empty, which never equals a signed-in requester). */
  function IsOwnerOrAdmin(requester: User, owner: Option<UserId>): (allowed: bool)
    ensures IsAdminRole(requester.role) ==> allowed
    ensures !IsAdminRole(requester.role) ==> (allowed <==> owner == Some(requester.id))
    ensures owner.None? ==> (allowed <==> IsAdminRole(requester.role))
  {
    if IsAdminRole(requester.role) then true else owner == Some(requester.id)
  }

  /** The specialization of the category of the product a consultation request links to:
      `obj.product.category.specialization_code`. */
  function LinkedSpecialization(obj: ConsultationRequest, catalog: Catalog): Specialization
    requires obj.product.Some? && obj.product.value in catalog.products
    requires catalog.products[obj.product.value].category in catalog.categories
  {
    catalog.categories[catalog.products[obj.product.value].category].specializationCode
  }

  /** Whether a staff member's specialization may follow the links of `obj`: it needs a
      linked product whose category exists. Without one the staff branch cannot be evaluated. */
  predicate StaffBranchDefined(obj: ConsultationRequest, catalog: Catalog)
  {
    obj.product.Some? && obj.product.value in catalog.products
    && catalog.products[obj.product.value].category in catalog.categories
  }

  /** `IsStaffSpecialist.has_object_permission`. The staff branch follows the product link
      unconditionally, so it is defined only when the link resolves. */
  function IsStaffSpecialist(requester: User, obj: ConsultationRequest, catalog: Catalog): (allowed: bool)
    requires requester.role == Staff ==> StaffBranchDefined(obj, catalog)
    ensures IsAdminRole(requester.role) ==> allowed
    ensures requester.role == Customer ==> !allowed
    ensures requester.role == Staff ==>
      (allowed <==> requester.specialization == Some(LinkedSpecialization(obj, catalog)))
    ensures requester.role == Staff && requester.specialization.None? ==> !allowed
  {
    if requester.role == SuperAdmin || requester.role == Admin then true
    else if requester.role == Staff then
      Some(LinkedSpecialization(obj, catalog)) == requester.specialization
    else false
  }

  /** Two staff members with different specializations never share access to the same request. */
  lemma StaffAccessIsExclusive(a: User, b: User, obj: ConsultationRequest, catalog: Catalog)
    requires a.role == Staff && b.role == Staff && StaffBranchDefined(obj, catalog)
    requires a.specialization != b.specialization
    ensures !(IsStaffSpecialist(a, obj, catalog) && IsStaffSpecialist(b, obj, catalog))
  {
  }
}
