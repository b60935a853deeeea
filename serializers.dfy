/** The response shaping of backend/api/serializers.py: the product payload and its
    `provider_name` redaction, registration's username default, and the cart-item and
    order-item views whose price is read from the package at serialization time. */
module Serializers {
  import opened Wrappers
  import opened Models

  // ------------------------------------------------------ product payload

  /** `ProductPackageSerializer`: id, duration_label, price, duration_days. */
  datatype PackageView = PackageView(id: PackageId, durationLabel: string, price: int, durationDays: int)

  /** A value of a serialized field. */
  datatype Value =
    | Text(text: string)
    | Number(number: int)
    | Flag(flag: bool)
    | Texts(texts: seq<string>)
    | Packages(packages: seq<PackageView>)

  /** Who is asking. The serializer's context may hold no request at all, and a request's
      user may be anonymous. */
  datatype Requester = NoRequest | Anonymous | SignedIn(user: User)

  /** `request and request.user.is_authenticated and request.user.role in ['admin', 'super_admin']`. */
  predicate MaySeeProvider(req: Requester)
  {
    req.SignedIn? && IsAdminRole(req.user.role)
  }

  const ProviderKey: string := "provider_name"

  /** The fields of `ProductSerializer` before `to_representation` adjusts them: every model
      field, the image gallery and the packages. */
  function ProductFields(id: ProductId, p: Product, images: seq<string>, packages: seq<PackageView>): (data: map<string, Value>)
    ensures ProviderKey in data && data[ProviderKey] == Text(p.providerName)
    ensures "packages" in data && data["packages"] == Packages(packages)
  {
    map[
      "id" := Number(id),
      "category" := Number(p.category),
      "name" := Text(p.name),
      ProviderKey := Text(p.providerName),
      "description" := Text(p.description),
      "is_featured" := Flag(p.isFeatured),
      "is_price_hidden" := Flag(p.isPriceHidden),
      "target_audience" := Text(AudienceName(p.targetAudience)),
      "created_at" := Number(p.createdAt),
      "images" := Texts(images),
      "packages" := Packages(packages)
    ]
  }

  /** The adjustment in `ProductSerializer.to_representation`: unless the requester may see
      the provider, `provider_name` is popped (absent or not). */
  function Redact(data: map<string, Value>, req: Requester): (r: map<string, Value>)
    ensures ProviderKey in r <==> ProviderKey in data && MaySeeProvider(req)
    ensures forall k :: k != ProviderKey ==> (k in r <==> k in data)
    ensures forall k :: k in r ==> k in data && r[k] == data[k]
  {
    if MaySeeProvider(req) then data else data - {ProviderKey}
  }

  /** Popping twice is popping once: `pop(key, None)` tolerates an absent key. */
  lemma {:induction false} RedactIdempotent(data: map<string, Value>, req: Requester)
    ensures Redact(Redact(data, req), req) == Redact(data, req)
  {
    var once := Redact(data, req);
    var twice := Redact(once, req);
    assert twice.Keys == once.Keys;
  }

  /** `ProductSerializer(product, context={'request': ...}).data`. */
  function ProductRepresentation(id: ProductId, p: Product, images: seq<string>, packages: seq<PackageView>, req: Requester): (r: map<string, Value>)
    ensures ProviderKey in r <==> MaySeeProvider(req)
    ensures ProviderKey in r ==> r[ProviderKey] == Text(p.providerName)
    ensures forall k :: k != ProviderKey && k in ProductFields(id, p, images, packages) ==>
      k in r && r[k] == ProductFields(id, p, images, packages)[k]
  {
    Redact(ProductFields(id, p, images, packages), req)
  }

  /** No request, an anonymous user, or a staff or customer user never receives the provider. */
  lemma ProviderHiddenFromNonAdmins(id: ProductId, p: Product, images: seq<string>, packages: seq<PackageView>, req: Requester)
    requires req.NoRequest? || req.Anonymous? || (req.SignedIn? && (req.user.role == Staff || req.user.role == Customer))
    ensures ProviderKey !in ProductRepresentation(id, p, images, packages, req)
  {
  }

  // --------------------------------------------------------- registration

  /** `RegisterSerializer.create`'s adjustment of `validated_data`: without a `username` but
      with a `phone`, the phone becomes the username. */
  function DefaultUsername<V>(data: map<string, V>): (r: map<string, V>)
    ensures "username" in data ==> r == data
    ensures "username" !in data && "phone" !in data ==> r == data
    ensures "username" !in data && "phone" in data ==> "username" in r && r["username"] == data["phone"]
    ensures r.Keys == data.Keys + (if "phone" in data then {"username"} else {})
    ensures forall k :: k in data ==> k in r && r[k] == data[k]
  {
    if "username" !in data && "phone" in data then data["username" := data["phone"]] else data
  }

  /** Defaulting the username twice changes nothing more. */
  lemma DefaultUsernameIdempotent<V>(data: map<string, V>)
    ensures DefaultUsername(DefaultUsername(data)) == DefaultUsername(data)
  {
  }

  /** Why registration did not create a user: Django's `create_user` needs a non-empty
      username, and the model's own `save` may refuse the row. */
  datatype RegisterError = UsernameRequired | Rejected(cause: SaveError)

  /** The text of an optional validated field, with the model field's blank default. */
  function TextOr(data: map<string, string>, key: string, blank: string): string
  {
    if key in data then data[key] else blank
  }

  /** The validated data a `RegisterSerializer` passes to `create`: the choice fields hold
      one of their choices. */
  predicate ChoicesValid(data: map<string, string>)
  {
    ("role" in data ==> ParseRole(data["role"]).Some?)
    && ("user_type" in data ==> ParseUserType(data["user_type"]).Some?)
  }

  /** The row `create_user(**data)` builds for primary key `id` (the password is not modelled,
      and `specialization` is not a field of this serializer). */
  function NewUser(id: UserId, data: map<string, string>): (u: User)
    requires ChoicesValid(data) && "username" in data
    ensures u.id == id && u.username == data["username"]
    ensures u.role == (if "role" in data then ParseRole(data["role"]).value else DefaultRole)
    ensures u.email == TextOr(data, "email", "")
    ensures u.phone == (if "phone" in data then Some(data["phone"]) else None)
    ensures u.specialization.None?
  {
    User(
      id,
      data["username"],
      TextOr(data, "email", ""),
      if "role" in data then ParseRole(data["role"]).value else DefaultRole,
      if "phone" in data then Some(data["phone"]) else None,
      if "user_type" in data then ParseUserType(data["user_type"]) else None,
      None)
  }

  /** `RegisterSerializer.create`: default the username, then create the user through the
      table, whose `save` applies the internal-email rule. */
  method Register(table: UserTable, data: map<string, string>) returns (r: Result<UserId, RegisterError>)
    requires table.Valid() && ChoicesValid(data)
    modifies table
    ensures table.Valid()
    ensures table.nextId == old(table.nextId) + (if r.Ok? then 1 else 0)
    ensures var filled := DefaultUsername(data);
      if "username" !in filled || filled["username"] == "" then
        r == Err(UsernameRequired) && table.users == old(table.users)
      else
        var u := NewUser(old(table.nextId), filled);
        && (EmailAllowed(u.role, u.email) && !ClashesWith(old(table.users), u) ==>
              r == Ok(u.id) && table.users == old(table.users)[u.id := u])
        && (!EmailAllowed(u.role, u.email) ==>
              r == Err(Rejected(ValidationError(InternalEmailMessage))) && table.users == old(table.users))
        && (ClashesWith(old(table.users), u) ==> r.Err? && table.users == old(table.users))
  {
    var filled := DefaultUsername(data);
    if "username" !in filled || filled["username"] == "" {
      return Err(UsernameRequired);
    }
    var u := NewUser(table.nextId, filled);
    var saved := table.Save(u);
    match saved
    case Ok(id) => r := Ok(id);
    case Err(e) => r := Err(Rejected(e));
  }

  // ------------------------------------------------------ cart and order items

  /** `CartItemSerializer`: the price, product name and duration come from the package as it
      is when the item is serialized. */
  datatype CartItemView = CartItemView(
    id: CartItemId,
    package: PackageId,
    productName: string,
    duration: string,
    price: int,
    quantity: int)

  /** `OrderItemSerializer`: the same live lookups, without the ids. */
  datatype OrderItemView = OrderItemView(productName: string, duration: string, quantity: int, price: int)

  /** The package an item refers to, and that package's product, exist. */
  predicate Resolves(catalog: Catalog, package: PackageId)
  {
    package in catalog.packages && catalog.packages[package].product in catalog.products
  }

  function ViewCartItem(item: CartItem, catalog: Catalog): (v: CartItemView)
    requires Resolves(catalog, item.package)
    ensures v.id == item.id && v.package == item.package && v.quantity == item.quantity
    ensures v.price == catalog.packages[item.package].price
  {
    var pkg := catalog.packages[item.package];
    CartItemView(item.id, item.package, catalog.products[pkg.product].name, pkg.durationLabel, pkg.price, item.quantity)
  }

  function ViewOrderItem(item: OrderItem, catalog: Catalog): (v: OrderItemView)
    requires Resolves(catalog, item.package)
    ensures v.quantity == item.quantity
    ensures v.price == catalog.packages[item.package].price
  {
    var pkg := catalog.packages[item.package];
    OrderItemView(catalog.products[pkg.product].name, pkg.durationLabel, item.quantity, pkg.price)
  }

  /** The catalog after a package's price is changed to `price`. */
  function Repriced(catalog: Catalog, package: PackageId, price: int): (c: Catalog)
    requires package in catalog.packages
    ensures c.packages.Keys == catalog.packages.Keys && c.products == catalog.products
    ensures c.packages[package].price == price
  {
    catalog.(packages := catalog.packages[package := catalog.packages[package].(price := price)])
  }

  /** Item prices are not captured: changing a package's price changes the price shown for
      every existing cart item and order item of that package, and nothing else. */
  lemma ItemPricesFollowPackage(c: CartItem, o: OrderItem, catalog: Catalog, package: PackageId, price: int)
    requires package in catalog.packages && Resolves(catalog, c.package) && Resolves(catalog, o.package)
    ensures var after := Repriced(catalog, package, price);
      && ViewCartItem(c, after) == ViewCartItem(c, catalog).(price := if c.package == package then price else ViewCartItem(c, catalog).price)
      && ViewOrderItem(o, after) == ViewOrderItem(o, catalog).(price := if o.package == package then price else ViewOrderItem(o, catalog).price)
  {
  }
}
