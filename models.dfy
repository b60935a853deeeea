/** The records of backend/api/models.py: users and their roles, the catalog, orders, carts,
    enterprise employees and consultation requests, with the field constraints as predicates,
    and the user table whose `save` enforces the internal-email rule. */
module Models {
  import opened Wrappers

  type UserId = nat
  type CategoryId = nat
  type ProductId = nat
  type PackageId = nat
  type OrderId = nat
  type OrderItemId = nat
  type CartId = nat
  type CartItemId = nat
  type EmployeeId = nat
  type ConsultationId = nat

  /** Timestamps (`auto_now_add` fields) are supplied by the caller. */
  type Timestamp = int

  // ---------------------------------------------------------------- users

  /** `User.ROLE_CHOICES`. */
  datatype Role = SuperAdmin | Admin | Staff | Customer

  /** `User.STAFF_SPECIALIZATION`, also the choices of `Category.specialization_code`. */
  datatype Specialization = Property | Health | Vehicle | Marine

  /** `User.USER_TYPE_CHOICES`. */
  datatype UserType = Individual | Enterprise

  /** The `role` field's default. */
  const DefaultRole: Role := Customer

  /** A user row. An empty `email` is the field's blank value; `phone`, `userType` and
      `specialization` are nullable. */
  datatype User = User(
    id: UserId,
    username: string,
    email: string,
    role: Role,
    phone: Option<string>,
    userType: Option<UserType>,
    specialization: Option<Specialization>)

  /** The stored text of a role choice. */
  function RoleName(r: Role): string
  {
    match r
    case SuperAdmin => "super_admin"
    case Admin => "admin"
    case Staff => "staff"
    case Customer => "customer"
  }

  /** Reads a role choice back from its stored text; anything else is not a choice. */
  function ParseRole(s: string): (r: Option<Role>)
    ensures r.Some? ==> RoleName(r.value) == s
  {
    if s == "super_admin" then Some(SuperAdmin)
    else if s == "admin" then Some(Admin)
    else if s == "staff" then Some(Staff)
    else if s == "customer" then Some(Customer)
    else None
  }

  /** Every role survives the trip to its stored text and back. */
  lemma ParseRoleName(r: Role)
    ensures ParseRole(RoleName(r)) == Some(r)
  {
    match r
    case SuperAdmin =>
    case Admin =>
      assert RoleName(r) != "super_admin";
    case Staff =>
      assert RoleName(r) != "super_admin" && RoleName(r) != "admin";
    case Customer =>
      assert RoleName(r) != "super_admin" && RoleName(r) != "admin" && RoleName(r) != "staff";
  }

  /** The stored text of a user-type choice. */
  function UserTypeName(t: UserType): string
  {
    match t
    case Individual => "individual"
    case Enterprise => "enterprise"
  }

  function ParseUserType(s: string): (t: Option<UserType>)
    ensures t.Some? ==> UserTypeName(t.value) == s
    ensures t.None? ==> s != "individual" && s != "enterprise"
  {
    if s == "individual" then Some(Individual)
    else if s == "enterprise" then Some(Enterprise)
    else None
  }

  /** The `role in ['admin', 'super_admin']` test used throughout the views and permissions. */
  predicate IsAdminRole(r: Role)
  {
    r == Admin || r == SuperAdmin
  }

  /** The roles `User.save` treats as internal: admin, staff and super_admin. */
  predicate IsInternalRole(r: Role)
  {
    r == Admin || r == Staff || r == SuperAdmin
  }

  /** The organisation's e-mail suffix. */
  const OrgEmailSuffix: string := "@tisbroker.com"

  /** Python's `str.endswith`: an exact, case-sensitive comparison of the last characters. */
  predicate EndsWith(s: string, suffix: string)
  {
    |suffix| <= |s| && s[|s| - |suffix|..] == suffix
  }

  /** `EndsWith` holds exactly when the string is some prefix followed by the suffix. */
  lemma EndsWithMeansConcat(s: string, suffix: string)
    ensures EndsWith(s, suffix) <==> exists p :: s == p + suffix
  {
    if EndsWith(s, suffix) {
      var p := s[..|s| - |suffix|];
      assert s == p + suffix;
    }
    if exists p :: s == p + suffix {
      var p :| s == p + suffix;
      assert s[|s| - |suffix|..] == suffix;
    }
  }

  /** The guard in `User.save`: an internal role with a non-empty e-mail that does not end in
      the organisation's suffix may not be saved. */
  function EmailAllowed(role: Role, email: string): (ok: bool)
    ensures role == Customer ==> ok
    ensures email == "" ==> ok
    ensures ok <==> !IsInternalRole(role) || email == "" || exists p :: email == p + OrgEmailSuffix
  {
    EndsWithMeansConcat(email, OrgEmailSuffix);
    !(IsInternalRole(role) && email != "" && !EndsWith(email, OrgEmailSuffix))
  }

  /** The suffix test does not fold case: an upper-case domain is refused for an admin. */
  lemma UpperCaseDomainRefused()
    ensures !EmailAllowed(Admin, "a@TISBROKER.COM")
    ensures EmailAllowed(Admin, "a@tisbroker.com")
  {
    assert !EndsWith("a@TISBROKER.COM", OrgEmailSuffix) by {
      assert "a@TISBROKER.COM"[1] != OrgEmailSuffix[0] || "a@TISBROKER.COM"[2] != OrgEmailSuffix[1];
    }
    assert "a@tisbroker.com" == "a" + OrgEmailSuffix;
  }

  /** The message of the `ValidationError` raised by `User.save`. */
  const InternalEmailMessage: string := "Nhân viên/Admin phải sử dụng email @tisbroker.com"

  /** Why a save did not happen: the model's own guard, or a unique column of the table. */
  datatype SaveError = ValidationError(message: string) | IntegrityError(column: string)

  /** Whether `u` would repeat another stored user's `username`, or a non-null `phone` of
      another stored user (both columns are unique; NULL phones never clash). */
  predicate ClashesWith(users: map<UserId, User>, u: User)
  {
    exists k :: k in users && k != u.id &&
      (users[k].username == u.username || (u.phone.Some? && users[k].phone == u.phone))
  }

  /** Every stored row satisfies the e-mail rule, and the unique columns are unique. */
  ghost predicate TableInvariant(users: map<UserId, User>)
  {
    (forall k :: k in users ==> users[k].id == k && EmailAllowed(users[k].role, users[k].email))
    && (forall j, k :: j in users && k in users && j != k ==> users[j].username != users[k].username)
    && (forall j, k :: j in users && k in users && j != k && users[j].phone.Some? ==> users[j].phone != users[k].phone)
  }

  /** The user table. `Save` is `User.save`: the guard first, then the write. */
  class UserTable {
    var users: map<UserId, User>
    /** The primary key the database would hand to the next inserted row. */
    var nextId: UserId

    ghost predicate Valid()
      reads this
    {
      TableInvariant(users) && (forall k :: k in users ==> k < nextId)
    }

    constructor ()
      ensures Valid() && users == map[] && nextId == 1
    {
      users := map[];
      nextId := 1;
    }

    /** Inserts or overwrites the row with `u.id`. An internal role with a foreign e-mail
        raises `ValidationError` and nothing is written; a repeated unique column fails in
        the database and nothing is written. */
    method Save(u: User) returns (r: Result<UserId, SaveError>)
      requires Valid()
      modifies this
      ensures Valid()
      ensures !EmailAllowed(u.role, u.email) ==>
        r == Err(ValidationError(InternalEmailMessage)) && users == old(users) && nextId == old(nextId)
      ensures EmailAllowed(u.role, u.email) && ClashesWith(old(users), u) ==>
        r.Err? && r.error.IntegrityError? && users == old(users) && nextId == old(nextId)
      ensures EmailAllowed(u.role, u.email) && !ClashesWith(old(users), u) ==>
        r == Ok(u.id) && users == old(users)[u.id := u]
        && nextId == (if u.id < old(nextId) then old(nextId) else u.id + 1)
      ensures r.Ok? ==> u.id in users && users[u.id] == u
    {
      if !EmailAllowed(u.role, u.email) {
        return Err(ValidationError(InternalEmailMessage));
      }
      if ClashesWith(users, u) {
        var k :| k in users && k != u.id &&
          (users[k].username == u.username || (u.phone.Some? && users[k].phone == u.phone));
        return Err(IntegrityError(if users[k].username == u.username then "username" else "phone"));
      }
      users := users[u.id := u];
      if nextId <= u.id {
        nextId := u.id + 1;
      }
      r := Ok(u.id);
    }
  }

  // -------------------------------------------------------------- catalog

  /** `Category`: `slug` is unique; `specialization_code` is one of the specializations. */
  datatype Category = Category(name: string, slug: string, specializationCode: Specialization)

  /** `Product.target_audience` choices. */
  datatype Audience = IndividualAudience | EnterpriseAudience

  function AudienceName(a: Audience): string
  {
    match a
    case IndividualAudience => "ind"
    case EnterpriseAudience => "ent"
  }

  datatype Product = Product(
    category: CategoryId,
    name: string,
    providerName: string,
    description: string,
    isFeatured: bool,
    isPriceHidden: bool,
    targetAudience: Audience,
    createdAt: Timestamp)

  /** `ProductPackage`: a purchasable duration of a product. Prices have no decimal places. */
  datatype Package = Package(product: ProductId, durationLabel: string, price: int, durationDays: int)

  /** The catalog tables, keyed by primary key. */
  datatype Catalog = Catalog(
    categories: map<CategoryId, Category>,
    products: map<ProductId, Product>,
    packages: map<PackageId, Package>)
  {
    /** Foreign keys resolve and category slugs are unique. */
    ghost predicate Valid()
    {
      && (forall p :: p in products ==> products[p].category in categories)
      && (forall k :: k in packages ==> packages[k].product in products)
      && (forall c, d :: c in categories && d in categories && c != d ==> categories[c].slug != categories[d].slug)
    }
  }

  // --------------------------------------------------------------- orders

  /** `Order.STATUS_CHOICES`; new orders are pending. */
  datatype OrderStatus = Pending | Confirmed | Active | Cancelled

  const DefaultOrderStatus: OrderStatus := Pending

  datatype Order = Order(
    id: OrderId,
    code: string,
    user: UserId,
    status: OrderStatus,
    totalAmount: int,
    createdAt: Timestamp,
    processedBy: Option<UserId>,
    beneficiaryNote: string)

  datatype OrderItem = OrderItem(id: OrderItemId, order: OrderId, package: PackageId, quantity: int)

  /** `Order.code` is unique across all orders. */
  ghost predicate CodesUnique(orders: seq<Order>)
  {
    forall i, j :: 0 <= i < j < |orders| ==> orders[i].code != orders[j].code
  }

  // ---------------------------------------------------------------- carts

  /** `CartItem.quantity` and `OrderItem.quantity` default to 1. */
  const DefaultQuantity: int := 1

  /** A `CartItem` row. Each user has at most one cart (a one-to-one key), kept by the cart engine. */
  datatype CartItem = CartItem(id: CartItemId, cart: CartId, package: PackageId, quantity: int)

  // ------------------------------------------- employees and consultations

  /** `EnterpriseEmployee`: a beneficiary owned by one enterprise user. */
  datatype Employee = Employee(
    id: EmployeeId,
    enterprise: UserId,
    fullName: string,
    phone: string,
    email: string,
    address: string,
    createdAt: Timestamp)

  /** `ConsultationRequest`: the product and the user are optional links. */
  datatype ConsultationRequest = ConsultationRequest(
    id: ConsultationId,
    customerName: string,
    customerContact: string,
    product: Option<ProductId>,
    user: Option<UserId>,
    assignedStaff: Option<UserId>,
    status: string,
    createdAt: Timestamp)

  const DefaultConsultationStatus: string := "new"
}
