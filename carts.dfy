/** `CartViewSet` of backend/api/views.py: one cart per user, created on first use, and a
    table of (item id, cart, package, quantity) rows that `add` upserts, `update_item`
    overwrites or deletes, and `list` prices from the current package prices. */
module Carts {
  import opened Wrappers
  import opened Models
  import opened Seqs
  import opened Http
  import opened Serializers

  const AddedMessage: string := "Added to cart"
  const PackageNotFoundMessage: string := "Product Package not found"
  const UpdatedMessage: string := "Cart updated"
  const ItemNotFoundMessage: string := "Item not found"

  // ------------------------------------------------------------- lookups

  /** The position of the row for (cart, package), if there is one: the lookup half of
      `CartItem.objects.get_or_create(cart=cart, package=package)`. */
  function FindRow(items: seq<CartItem>, cart: CartId, package: PackageId): (r: Option<nat>)
    ensures r.Some? ==> r.value < |items| && items[r.value].cart == cart && items[r.value].package == package
    ensures r.None? ==> forall i :: 0 <= i < |items| ==> !(items[i].cart == cart && items[i].package == package)
  {
    if items == [] then None
    else if items[0].cart == cart && items[0].package == package then Some(0)
    else match FindRow(items[1..], cart, package)
      case None => None
      case Some(k) => Some(k + 1)
  }

  /** The position of the row with id `id` in cart `cart`. */
  function FindInCart(items: seq<CartItem>, cart: CartId, id: CartItemId): (r: Option<nat>)
    ensures r.Some? ==> r.value < |items| && items[r.value].id == id && items[r.value].cart == cart
    ensures r.None? ==> forall i :: 0 <= i < |items| ==> !(items[i].id == id && items[i].cart == cart)
  {
    if items == [] then None
    else if items[0].id == id && items[0].cart == cart then Some(0)
    else match FindInCart(items[1..], cart, id)
      case None => None
      case Some(k) => Some(k + 1)
  }

  /** `CartItem.objects.get(id=item_id, cart__user=user)`: the ownership test is part of the
      lookup, so the row is found only if it lies in the requester's own cart. */
  function FindOwned(items: seq<CartItem>, carts: map<UserId, CartId>, user: UserId, id: CartItemId): (r: Option<nat>)
    ensures r.Some? ==> r.value < |items| && items[r.value].id == id && user in carts && items[r.value].cart == carts[user]
    ensures r.None? ==> forall i :: 0 <= i < |items| && items[i].id == id ==> user !in carts || items[i].cart != carts[user]
  {
    if user in carts then FindInCart(items, carts[user], id) else None
  }

  /** The stored quantity of the row for (cart, package), if there is a row. */
  function QuantityOf(items: seq<CartItem>, cart: CartId, package: PackageId): Option<int>
  {
    match FindRow(items, cart, package)
    case None => None
    case Some(k) => Some(items[k].quantity)
  }

  /** The rows whose (cart, package) pair is the given one. */
  function RowsFor(items: seq<CartItem>, cart: CartId, package: PackageId): seq<CartItem>
  {
    Filter(items, (row: CartItem) => row.cart == cart && row.package == package)
  }

  // ---------------------------------------------------------- invariants

  /** Row ids increase along the table (rows are kept in insertion order). */
  ghost predicate IdsIncreasing(items: seq<CartItem>)
  {
    forall i, j :: 0 <= i < j < |items| ==> items[i].id < items[j].id
  }

  /** No two rows share a (cart, package) pair. The storage does not enforce this; `add` keeps
      it, and `get_or_create` would fail on a table that broke it. */
  ghost predicate RowsUnique(items: seq<CartItem>)
  {
    forall i, j :: 0 <= i < j < |items| ==> !(items[i].cart == items[j].cart && items[i].package == items[j].package)
  }

  /** Distinct users own distinct carts (the one-to-one key from cart to user). */
  ghost predicate CartsInjective(carts: map<UserId, CartId>)
  {
    forall u, v :: u in carts && v in carts && u != v ==> carts[u] != carts[v]
  }

  // ------------------------------------------------------------------ add

  /** The table after `add` has found its package: an existing row's quantity grows by the
      requested amount; otherwise a new row is created with the field's default quantity,
      whatever amount was requested. */
  function AddRow(items: seq<CartItem>, cart: CartId, package: PackageId, quantity: int, freshId: CartItemId): (r: seq<CartItem>)
    ensures match FindRow(items, cart, package)
      case Some(k) => |r| == |items| && r[k].quantity == items[k].quantity + quantity
      case None => |r| == |items| + 1 && r[|items|] == CartItem(freshId, cart, package, DefaultQuantity)
    ensures forall i :: 0 <= i < |items| ==>
      r[i].id == items[i].id && r[i].cart == items[i].cart && r[i].package == items[i].package
    ensures forall i :: 0 <= i < |items| && !(items[i].cart == cart && items[i].package == package) ==> r[i] == items[i]
  {
    match FindRow(items, cart, package)
    case Some(k) => items[k := items[k].(quantity := items[k].quantity + quantity)]
    case None => items + [CartItem(freshId, cart, package, DefaultQuantity)]
  }

  /** Two tables with the same (cart, package) pairs, position by position, find the same rows. */
  lemma {:induction false} FindRowSameKeys(a: seq<CartItem>, b: seq<CartItem>, cart: CartId, package: PackageId)
    requires |a| == |b|
    requires forall i :: 0 <= i < |a| ==> a[i].cart == b[i].cart && a[i].package == b[i].package
    ensures FindRow(a, cart, package) == FindRow(b, cart, package)
  {
    if a != [] {
      FindRowSameKeys(a[1..], b[1..], cart, package);
    }
  }

  /** Appending a row for another pair does not change where a pair's row is found. */
  lemma {:induction false} FindRowAppend(items: seq<CartItem>, row: CartItem, cart: CartId, package: PackageId)
    ensures FindRow(items + [row], cart, package) ==
      if FindRow(items, cart, package).Some? then FindRow(items, cart, package)
      else if row.cart == cart && row.package == package then Some(|items|)
      else None
  {
    if items != [] {
      assert (items + [row])[1..] == items[1..] + [row];
      FindRowAppend(items[1..], row, cart, package);
    }
  }

  /** `add` as seen through the quantities: the added pair holds its old quantity plus the
      request, or 1 if it had no row; every other pair keeps its quantity. */
  lemma AddRowQuantities(items: seq<CartItem>, cart: CartId, package: PackageId, quantity: int, freshId: CartItemId, c: CartId, p: PackageId)
    ensures QuantityOf(AddRow(items, cart, package, quantity, freshId), c, p) ==
      if c == cart && p == package then
        (match QuantityOf(items, cart, package)
          case Some(q) => Some(q + quantity)
          case None => Some(DefaultQuantity))
      else QuantityOf(items, c, p)
  {
    var r := AddRow(items, cart, package, quantity, freshId);
    match FindRow(items, cart, package)
    case Some(k) =>
      FindRowSameKeys(r, items, c, p);
    case None =>
      assert r == items + [CartItem(freshId, cart, package, DefaultQuantity)];
      FindRowAppend(items, CartItem(freshId, cart, package, DefaultQuantity), c, p);
  }

  /** `add` never duplicates a (cart, package) row and keeps ids increasing. */
  lemma AddRowKeepsInvariants(items: seq<CartItem>, cart: CartId, package: PackageId, quantity: int, freshId: CartItemId)
    requires RowsUnique(items) && IdsIncreasing(items)
    requires forall i :: 0 <= i < |items| ==> items[i].id < freshId
    ensures RowsUnique(AddRow(items, cart, package, quantity, freshId))
    ensures IdsIncreasing(AddRow(items, cart, package, quantity, freshId))
  {
  }

  /** Every row after `add` points to a known cart and package, and only a created row
      takes the fresh id. */
  lemma AddRowReferences(items: seq<CartItem>, cart: CartId, package: PackageId, quantity: int, freshId: CartItemId,
                         carts: set<CartId>, packages: set<PackageId>)
    requires forall i :: 0 <= i < |items| ==> items[i].id < freshId && items[i].cart in carts && items[i].package in packages
    requires cart in carts && package in packages
    ensures var r := AddRow(items, cart, package, quantity, freshId);
      forall i :: 0 <= i < |r| ==>
        && r[i].id < (if FindRow(items, cart, package).Some? then freshId else freshId + 1)
        && r[i].cart in carts && r[i].package in packages
  {
  }

  /** With unique rows, a pair has one row after it is added, none or one before. */
  lemma {:induction false} UniqueRowsCount(items: seq<CartItem>, cart: CartId, package: PackageId)
    requires RowsUnique(items)
    ensures |RowsFor(items, cart, package)| == if FindRow(items, cart, package).Some? then 1 else 0
  {
    if items != [] {
      assert RowsUnique(items[1..]);
      UniqueRowsCount(items[1..], cart, package);
      if items[0].cart == cart && items[0].package == package {
        assert FindRow(items[1..], cart, package).None?;
      }
    }
  }

  /** Adding the same package twice to a cart that did not hold it leaves exactly one row,
      whose quantity is 1 plus the second request: the first request's amount is dropped. */
  lemma TwoAdds(items: seq<CartItem>, cart: CartId, package: PackageId, q1: int, q2: int, id1: CartItemId, id2: CartItemId)
    requires RowsUnique(items) && IdsIncreasing(items)
    requires forall i :: 0 <= i < |items| ==> items[i].id < id1
    requires QuantityOf(items, cart, package).None?
    ensures var after := AddRow(AddRow(items, cart, package, q1, id1), cart, package, q2, id2);
      && QuantityOf(after, cart, package) == Some(DefaultQuantity + q2)
      && |RowsFor(after, cart, package)| == 1
  {
    var once := AddRow(items, cart, package, q1, id1);
    AddRowQuantities(items, cart, package, q1, id1, cart, package);
    AddRowKeepsInvariants(items, cart, package, q1, id1);
    AddRowQuantities(once, cart, package, q2, id2, cart, package);
    var twice := AddRow(once, cart, package, q2, id2);
    FindRowSameKeys(twice, once, cart, package);
    assert RowsUnique(twice);
    UniqueRowsCount(twice, cart, package);
  }

  // --------------------------------------------------------------- update

  /** The table after `update_item` has found row `k`: a quantity of zero or less deletes the
      row, a positive one replaces the stored quantity. */
  function UpdateRow(items: seq<CartItem>, k: nat, quantity: int): (r: seq<CartItem>)
    requires k < |items| && IdsIncreasing(items)
    ensures quantity <= 0 ==> |r| == |items| - 1
    ensures quantity <= 0 ==> forall row :: row in r <==> row in items && row.id != items[k].id
    ensures quantity > 0 ==> |r| == |items| && r[k] == items[k].(quantity := quantity)
    ensures quantity > 0 ==> forall i :: 0 <= i < |items| && i != k ==> r[i] == items[i]
  {
    if quantity <= 0 then
      var r := items[..k] + items[k + 1..];
      assert forall row :: row in r <==> row in items && row.id != items[k].id by {
        forall row
          ensures row in r <==> row in items && row.id != items[k].id
        {
          if row in items && row.id != items[k].id {
            var i :| 0 <= i < |items| && items[i] == row;
            assert i != k;
            if i < k { assert r[i] == row; } else { assert r[i - 1] == row; }
          }
        }
      }
      r
    else items[k := items[k].(quantity := quantity)]
  }

  /** Deleting row `k` keeps ids increasing and pairs unique; the rows after it move down one place. */
  lemma RemoveRowKeepsInvariants(items: seq<CartItem>, k: nat)
    requires k < |items| && IdsIncreasing(items) && RowsUnique(items)
    ensures var r := items[..k] + items[k + 1..];
      && |r| == |items| - 1
      && (forall i :: 0 <= i < |r| ==> r[i] == items[if i < k then i else i + 1])
      && IdsIncreasing(r) && RowsUnique(r)
  {
    var r := items[..k] + items[k + 1..];
    assert forall i :: 0 <= i < |r| ==> r[i] == items[if i < k then i else i + 1];
  }

  /** An item id that lies in another user's cart is not found, exactly as an id that does not
      exist: both give "Item not found" and leave the table alone. */
  lemma ForeignItemNotFound(items: seq<CartItem>, carts: map<UserId, CartId>, user: UserId, owner: UserId, k: nat)
    requires CartsInjective(carts) && IdsIncreasing(items)
    requires k < |items| && owner in carts && items[k].cart == carts[owner] && owner != user
    ensures FindOwned(items, carts, user, items[k].id).None?
  {
  }

  // ----------------------------------------------------------------- list

  /** `cart.items.all()`. */
  function CartRows(items: seq<CartItem>, cart: CartId): (rows: seq<CartItem>)
    ensures forall row :: row in rows <==> row in items && row.cart == cart
  {
    Filter(items, (row: CartItem) => row.cart == cart)
  }

  /** `sum(item.package.price * item.quantity for item in items)`, reading current prices. */
  function TotalPrice(rows: seq<CartItem>, packages: map<PackageId, Package>): int
    requires forall row :: row in rows ==> row.package in packages
  {
    if rows == [] then 0
    else packages[rows[0].package].price * rows[0].quantity + TotalPrice(rows[1..], packages)
  }

  /** An empty cart totals 0, and a cart of non-negative quantities at non-negative prices
      never totals below 0. */
  lemma {:induction false} TotalPriceNonNegative(rows: seq<CartItem>, packages: map<PackageId, Package>)
    requires forall row :: row in rows ==> row.package in packages
    ensures rows == [] ==> TotalPrice(rows, packages) == 0
    ensures (forall row :: row in rows ==> row.quantity >= 0 && packages[row.package].price >= 0) ==>
      TotalPrice(rows, packages) >= 0
  {
    if rows != [] {
      TotalPriceNonNegative(rows[1..], packages);
      if forall row :: row in rows ==> row.quantity >= 0 && packages[row.package].price >= 0 {
        assert rows[0] in rows;
        var p := packages[rows[0].package].price;
        assert p * rows[0].quantity >= 0;
      }
    }
  }

  /** The sum of price times quantity over serialized items. */
  function ViewsTotal(views: seq<CartItemView>): int
  {
    if views == [] then 0 else views[0].price * views[0].quantity + ViewsTotal(views[1..])
  }

  /** The body of the `list` response. */
  datatype CartListing = CartListing(items: seq<CartItemView>, totalPrice: int, totalItems: nat)

  function ViewRows(rows: seq<CartItem>, catalog: Catalog): (views: seq<CartItemView>)
    requires forall row :: row in rows ==> Resolves(catalog, row.package)
    ensures |views| == |rows|
    ensures forall i :: 0 <= i < |rows| ==> views[i] == ViewCartItem(rows[i], catalog)
  {
    if rows == [] then [] else [ViewCartItem(rows[0], catalog)] + ViewRows(rows[1..], catalog)
  }

  /** The total over the rows is the total over what the response shows. */
  lemma {:induction false} TotalMatchesViews(rows: seq<CartItem>, catalog: Catalog)
    requires forall row :: row in rows ==> row.package in catalog.packages
    requires forall row :: row in rows ==> Resolves(catalog, row.package)
    ensures TotalPrice(rows, catalog.packages) == ViewsTotal(ViewRows(rows, catalog))
  {
    if rows != [] {
      TotalMatchesViews(rows[1..], catalog);
      assert ViewRows(rows, catalog)[1..] == ViewRows(rows[1..], catalog);
    }
  }

  /** `list`: the serialized rows of the cart, the price total and the number of ROWS (not
      the sum of their quantities). */
  function Listing(rows: seq<CartItem>, catalog: Catalog): (r: CartListing)
    requires forall row :: row in rows ==> row.package in catalog.packages
    requires forall row :: row in rows ==> Resolves(catalog, row.package)
    ensures r.totalItems == |rows| == |r.items|
    ensures forall i :: 0 <= i < |rows| ==>
      r.items[i].id == rows[i].id && r.items[i].quantity == rows[i].quantity
      && r.items[i].price == catalog.packages[rows[i].package].price
    ensures r.totalPrice == ViewsTotal(r.items)
  {
    TotalMatchesViews(rows, catalog);
    CartListing(ViewRows(rows, catalog), TotalPrice(rows, catalog.packages), |rows|)
  }

  /** The sum of the quantities of the rows of one package. */
  function PackageQuantity(rows: seq<CartItem>, package: PackageId): int
  {
    if rows == [] then 0
    else (if rows[0].package == package then rows[0].quantity else 0) + PackageQuantity(rows[1..], package)
  }

  /** Totals are recomputed, never cached: after a package's price changes from `old` to
      `price`, the total moves by the difference times that package's quantity in the cart. */
  lemma {:induction false} TotalAfterRepricing(rows: seq<CartItem>, packages: map<PackageId, Package>, package: PackageId, price: int)
    requires package in packages
    requires forall row :: row in rows ==> row.package in packages
    ensures TotalPrice(rows, packages[package := packages[package].(price := price)]) ==
      TotalPrice(rows, packages) + (price - packages[package].price) * PackageQuantity(rows, package)
  {
    if rows != [] {
      var after := packages[package := packages[package].(price := price)];
      TotalAfterRepricing(rows[1..], packages, package, price);
      var q := rows[0].quantity;
      if rows[0].package == package {
        assert after[rows[0].package].price * q == packages[package].price * q + (price - packages[package].price) * q;
      }
      var rest := PackageQuantity(rows[1..], package);
      assert (price - packages[package].price) * PackageQuantity(rows, package) ==
        (price - packages[package].price) * (if rows[0].package == package then q else 0) + (price - packages[package].price) * rest;
    }
  }

  // --------------------------------------------------------------- engine

  /** The cart tables and the catalog they price from. */
  class CartEngine {
    /** The catalog; the cart views only read it. */
    var catalog: Catalog
    /** `Cart`: the one cart of each user that has one. */
    var carts: map<UserId, CartId>
    /** `CartItem`, in insertion order. */
    var items: seq<CartItem>
    var nextCartId: CartId
    var nextItemId: CartItemId

    ghost predicate Valid()
      reads this
    {
      && catalog.Valid()
      && CartsInjective(carts)
      && (forall u :: u in carts ==> carts[u] < nextCartId)
      && IdsIncreasing(items)
      && RowsUnique(items)
      && (forall i :: 0 <= i < |items| ==>
            items[i].id < nextItemId && items[i].cart in carts.Values && items[i].package in catalog.packages)
    }

    constructor (catalog: Catalog)
      requires catalog.Valid()
      ensures Valid() && this.catalog == catalog && carts == map[] && items == []
    {
      this.catalog := catalog;
      carts := map[];
      items := [];
      nextCartId := 1;
      nextItemId := 1;
    }

    /** `Cart.objects.get_or_create(user=user)`. */
    method GetOrCreateCart(user: UserId) returns (cart: CartId)
      requires Valid()
      modifies this`carts, this`nextCartId
      ensures Valid()
      ensures user in carts && cart == carts[user]
      ensures user in old(carts) ==> carts == old(carts) && cart == old(carts)[user] && nextCartId == old(nextCartId)
      ensures user !in old(carts) ==> carts == old(carts)[user := old(nextCartId)] && nextCartId == old(nextCartId) + 1
    {
      if user in carts {
        cart := carts[user];
      } else {
        cart := nextCartId;
        carts := carts[user := cart];
        nextCartId := nextCartId + 1;
        assert forall i :: 0 <= i < |items| ==> items[i].cart in carts.Values by {
          forall i | 0 <= i < |items|
            ensures items[i].cart in carts.Values
          {
            var u :| u in old(carts) && old(carts)[u] == items[i].cart;
            assert u != user && carts[u] == items[i].cart;
          }
        }
      }
    }

    /** `add`: the cart is fetched or created first; an unknown package then gives 404 and
        writes no row; otherwise the row for the package is upserted. */
    method Add(user: UserId, package: PackageId, quantity: int) returns (r: Result<string, ApiError>)
      requires Valid()
      modifies this`carts, this`nextCartId, this`items, this`nextItemId
      ensures Valid()
      ensures user in carts
      ensures user in old(carts) ==> carts == old(carts) && nextCartId == old(nextCartId)
      ensures user !in old(carts) ==> carts == old(carts)[user := old(nextCartId)] && nextCartId == old(nextCartId) + 1
      ensures nextItemId == old(nextItemId) +
        (if package in catalog.packages && FindRow(old(items), carts[user], package).None? then 1 else 0)
      ensures package !in catalog.packages ==>
        r == Err(NotFound(PackageNotFoundMessage)) && items == old(items)
      ensures package in catalog.packages ==>
        r == Ok(AddedMessage) && items == AddRow(old(items), carts[user], package, quantity, old(nextItemId))
    {
      var cart := GetOrCreateCart(user);
      if package !in catalog.packages {
        return Err(NotFound(PackageNotFoundMessage));
      }
      var created := FindRow(items, cart, package).None?;
      AddRowKeepsInvariants(items, cart, package, quantity, nextItemId);
      AddRowReferences(items, cart, package, quantity, nextItemId, carts.Values, catalog.packages.Keys);
      items := AddRow(items, cart, package, quantity, nextItemId);
      if created {
        nextItemId := nextItemId + 1;
      }
      r := Ok(AddedMessage);
    }

    /** `update_item`: the item must be in the requester's cart; a quantity of zero or less
        deletes it, a positive one is stored as given. */
    method UpdateItem(user: UserId, id: CartItemId, quantity: int) returns (r: Result<string, ApiError>)
      requires Valid()
      modifies this`items
      ensures Valid()
      ensures match FindOwned(old(items), carts, user, id)
        case None => r == Err(NotFound(ItemNotFoundMessage)) && items == old(items)
        case Some(k) => r == Ok(UpdatedMessage) && items == UpdateRow(old(items), k, quantity)
    {
      match FindOwned(items, carts, user, id)
      case None =>
        r := Err(NotFound(ItemNotFoundMessage));
      case Some(k) =>
        if quantity <= 0 {
          RemoveRowKeepsInvariants(items, k);
          assert UpdateRow(items, k, quantity) == items[..k] + items[k + 1..];
        }
        items := UpdateRow(items, k, quantity);
        r := Ok(UpdatedMessage);
    }

    /** `list`: the cart is fetched or created, then its rows are serialized and totalled
        from the current package prices. */
    method List(user: UserId) returns (r: CartListing)
      requires Valid()
      modifies this`carts, this`nextCartId
      ensures Valid()
      ensures user in carts
      ensures user in old(carts) ==> carts == old(carts) && nextCartId == old(nextCartId)
      ensures user !in old(carts) ==> carts == old(carts)[user := old(nextCartId)] && nextCartId == old(nextCartId) + 1
      ensures forall row :: row in CartRows(items, carts[user]) ==> Resolves(catalog, row.package)
      ensures r == Listing(CartRows(items, carts[user]), catalog)
    {
      var cart := GetOrCreateCart(user);
      var rows := CartRows(items, cart);
      r := Listing(rows, catalog);
    }
  }
}
