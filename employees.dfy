/** `EmployeeViewSet` of backend/api/views.py: an enterprise's beneficiary list, scoped to
    the requester on every read and stamped with the requester on every create. */
module Employees {
  import opened Wrappers
  import opened Models
  import opened Seqs

  /** What a client may send for a new employee. `enterprise` may be sent but is a read-only
      field of `EnterpriseEmployeeSerializer`, so it is ignored. */
  datatype EmployeePayload = EmployeePayload(
    fullName: string,
    phone: string,
    email: string,
    address: string,
    enterprise: Option<UserId>)

  /** `get_queryset`: only the employees whose enterprise is the requester. */
  function VisibleEmployees(requester: User, employees: seq<Employee>): (r: seq<Employee>)
    ensures forall e :: e in r <==> e in employees && e.enterprise == requester.id
  {
    Filter(employees, (e: Employee) => e.enterprise == requester.id)
  }

  /** A new employee joins the listing of its enterprise, after the ones it already had, and
      of no other user. */
  lemma VisibleAfterCreate(requester: User, employees: seq<Employee>, e: Employee)
    ensures VisibleEmployees(requester, employees + [e]) ==
      VisibleEmployees(requester, employees) + (if e.enterprise == requester.id then [e] else [])
  {
    var keep := (x: Employee) => x.enterprise == requester.id;
    FilterAppend(employees, [e], keep);
    if e.enterprise == requester.id {
      FilterKeepsAll([e], keep);
    } else {
      FilterKeepsNone([e], keep);
    }
  }

  /** The `EnterpriseEmployee` table. */
  class EmployeeBook {
    var employees: seq<Employee>
    var nextId: EmployeeId

    ghost predicate Valid()
      reads this
    {
      forall i :: 0 <= i < |employees| ==> employees[i].id < nextId
    }

    constructor ()
      ensures Valid() && employees == []
    {
      employees := [];
      nextId := 1;
    }

    /** `perform_create`: the serializer saves the payload with `enterprise` set to the
        requester, whatever enterprise the payload named. */
    method Create(requester: User, payload: EmployeePayload, now: Timestamp) returns (e: Employee)
      requires Valid()
      modifies this
      ensures Valid()
      ensures e == Employee(old(nextId), requester.id, payload.fullName, payload.phone, payload.email, payload.address, now)
      ensures employees == old(employees) + [e]
      ensures nextId == old(nextId) + 1
    {
      e := Employee(nextId, requester.id, payload.fullName, payload.phone, payload.email, payload.address, now);
      employees := employees + [e];
      nextId := nextId + 1;
    }
  }
}
