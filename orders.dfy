/** `OrderViewSet` of backend/api/views.py: who sees which orders, and `buy_now`, which prices
    one package times a quantity and records a pending order with a single item. */
module Orders {
  import opened Wrappers
  import opened Models
  import opened Seqs
  import opened Http
  import opened Permissions

  /** The 400 body when the package does not exist. */
  const PackageMissingMessage: string := "Gói sản phẩm không tồn tại"
  /** The 400 body when the database refuses a second order with the same code. The view
      passes on the text of the database's integrity error, so the wording depends on the
      database backend; this is SQLite's. */
  const DuplicateCodeMessage: string := "UNIQUE constraint failed: api_order.code"

  // ----------------------------------------------------------- visibility

  /** `get_queryset`: admins and super admins see every order, everyone else their own. */
  function VisibleOrders(requester: User, orders: seq<Order>): (r: seq<Order>)
    ensures forall o :: o in r <==> o in orders && IsOwnerOrAdmin(requester, Some(o.user))
    ensures IsAdminRole(requester.role) ==> r == orders
    ensures !IsAdminRole(requester.role) ==> forall i :: 0 <= i < |r| ==> r[i].user == requester.id
  {
    if IsAdminRole(requester.role) then orders
    else Filter(orders, (o: Order) => o.user == requester.id)
  }

  /** A new order shows up in exactly the listings of admins and of its buyer, after the
      orders they saw before. */
  lemma VisibleAfterPlacing(requester: User, orders: seq<Order>, o: Order)
    ensures VisibleOrders(requester, orders + [o]) ==
      VisibleOrders(requester, orders) + (if IsAdminRole(requester.role) || o.user == requester.id then [o] else [])
  {
    if !IsAdminRole(requester.role) {
      FilterAppend(orders, [o], (x: Order) => x.user == requester.id);
    }
  }

  // ----------------------------------------------------------- order codes

  function DigitChar(d: nat): (c: char)
    requires d < 10
    ensures '0' <= c <= '9'
  {
    "0123456789"[d]
  }

  /** The decimal text of `n`, as Python's `str(int)` writes a non-negative integer. */
  function DecimalText(n: nat): (s: string)
    ensures |s| >= 1
    ensures n >= 10 ==> |s| >= 2
  {
    if n < 10 then [DigitChar(n)] else DecimalText(n / 10) + [DigitChar(n % 10)]
  }

  /** A decimal text holds only digits. */
  lemma {:induction false} DecimalTextDigits(n: nat)
    ensures forall i :: 0 <= i < |DecimalText(n)| ==> '0' <= DecimalText(n)[i] <= '9'
  {
    if n >= 10 {
      DecimalTextDigits(n / 10);
    }
  }

  /** Distinct numbers have distinct decimal texts. */
  lemma {:induction false} DecimalTextInjective(a: nat, b: nat)
    requires DecimalText(a) == DecimalText(b)
    ensures a == b
  {
    if a >= 10 && b >= 10 {
      var sa, sb := DecimalText(a), DecimalText(b);
      assert sa[..|sa| - 1] == DecimalText(a / 10);
      assert sb[..|sb| - 1] == DecimalText(b / 10);
      DecimalTextInjective(a / 10, b / 10);
      assert "0123456789"[a % 10] == sa[|sa| - 1] == "0123456789"[b % 10];
    } else if a < 10 && b < 10 {
      assert "0123456789"[a] == DecimalText(a)[0] == "0123456789"[b];
    }
  }

  /** `f"ORD-{int(time.time())}"` for the clock reading `seconds`. */
  function OrderCode(seconds: nat): (code: string)
    ensures |code| >= 5 && code[..4] == "ORD-"
    ensures forall i :: 4 <= i < |code| ==> '0' <= code[i] <= '9'
  {
    DecimalTextDigits(seconds);
    "ORD-" + DecimalText(seconds)
  }

  /** Two `buy_now` calls get the same code exactly when they read the same second. */
  lemma OrderCodeCollides(s1: nat, s2: nat)
    ensures OrderCode(s1) == OrderCode(s2) <==> s1 == s2
  {
    if OrderCode(s1) == OrderCode(s2) {
      assert DecimalText(s1) == OrderCode(s1)[4..];
      assert DecimalText(s2) == OrderCode(s2)[4..];
      DecimalTextInjective(s1, s2);
    }
  }

  // ------------------------------------------------------------------ items

  /** `order.items.all()`. */
  function ItemsOf(items: seq<OrderItem>, order: OrderId): (r: seq<OrderItem>)
    ensures forall it :: it in r <==> it in items && it.order == order
  {
    Filter(items, (it: OrderItem) => it.order == order)
  }

  /** An order that had no items before gains exactly the one appended for it. */
  lemma {:induction false} OnlyItemOfNewOrder(items: seq<OrderItem>, order: OrderId, item: OrderItem)
    requires forall it :: it in items ==> it.order != order
    requires item.order == order
    ensures ItemsOf(items + [item], order) == [item]
  {
    var keep := (it: OrderItem) => it.order == order;
    FilterAppend(items, [item], keep);
    FilterKeepsNone(items, keep);
    FilterKeepsAll([item], keep);
  }

  // ------------------------------------------------------------------- book

  ghost predicate OrderIdsIncreasing(orders: seq<Order>)
  {
    forall i, j :: 0 <= i < j < |orders| ==> orders[i].id < orders[j].id
  }

  ghost predicate ItemIdsIncreasing(items: seq<OrderItem>)
  {
    forall i, j :: 0 <= i < j < |items| ==> items[i].id < items[j].id
  }

  /** Whether some stored order already has `code`. */
  predicate CodeTaken(orders: seq<Order>, code: string)
  {
    exists i :: 0 <= i < |orders| && orders[i].code == code
  }

  /** The `Order` and `OrderItem` tables. */
  class OrderBook {
    var orders: seq<Order>
    var items: seq<OrderItem>
    var nextOrderId: OrderId
    var nextItemId: OrderItemId

    ghost predicate Valid()
      reads this
    {
      && CodesUnique(orders)
      && OrderIdsIncreasing(orders)
      && ItemIdsIncreasing(items)
      && (forall i :: 0 <= i < |orders| ==> orders[i].id < nextOrderId)
      && (forall i :: 0 <= i < |items| ==> items[i].id < nextItemId && items[i].order < nextOrderId)
    }

    constructor ()
      ensures Valid() && orders == [] && items == [] && nextOrderId == 1 && nextItemId == 1
    {
      orders := [];
      items := [];
      nextOrderId := 1;
      nextItemId := 1;
    }

    /** `buy_now`. An unknown package gives 400 and writes nothing. Otherwise the order is
        created pending, for price times quantity, under the code of the clock reading
        `seconds`; a code already in use makes the database refuse the order, which the view
        also reports as 400, and nothing is written. On success one item follows the order. */
    method BuyNow(requester: User, package: PackageId, quantity: int, seconds: nat, now: Timestamp,
                  packages: map<PackageId, Package>) returns (r: Result<Order, ApiError>)
      requires Valid()
      modifies this
      ensures Valid()
      ensures nextOrderId == old(nextOrderId) + (if r.Ok? then 1 else 0)
      ensures nextItemId == old(nextItemId) + (if r.Ok? then 1 else 0)
      ensures package !in packages ==>
        r == Err(BadRequest(PackageMissingMessage)) && orders == old(orders) && items == old(items)
      ensures package in packages && CodeTaken(old(orders), OrderCode(seconds)) ==>
        r == Err(BadRequest(DuplicateCodeMessage)) && orders == old(orders) && items == old(items)
      ensures package in packages && !CodeTaken(old(orders), OrderCode(seconds)) ==>
        && r.Ok?
        && r.value == Order(old(nextOrderId), OrderCode(seconds), requester.id, Pending,
                            packages[package].price * quantity, now, None, "")
        && orders == old(orders) + [r.value]
        && items == old(items) + [OrderItem(old(nextItemId), r.value.id, package, quantity)]
        && ItemsOf(items, r.value.id) == [OrderItem(old(nextItemId), r.value.id, package, quantity)]
    {
      if package !in packages {
        return Err(BadRequest(PackageMissingMessage));
      }
      var total := packages[package].price * quantity;
      var code := OrderCode(seconds);
      if CodeTaken(orders, code) {
        return Err(BadRequest(DuplicateCodeMessage));
      }
      var order := Order(nextOrderId, code, requester.id, DefaultOrderStatus, total, now, None, "");
      orders := orders + [order];
      nextOrderId := nextOrderId + 1;
      var item := OrderItem(nextItemId, order.id, package, quantity);
      OnlyItemOfNewOrder(items, order.id, item);
      items := items + [item];
      nextItemId := nextItemId + 1;
      r := Ok(order);
    }
  }

  /** A direct purchase of two units of a 500000 package is a pending order of 1000000 with
      one item of quantity two; a second purchase in the same second is refused. */
  method BuyNowScenario(buyer: User)
  {
    var book := new OrderBook();
    var packages := map[7 := Package(3, "6 Tháng", 500000, 180)];
    var r := book.BuyNow(buyer, 7, 2, 42, 0, packages);
    assert !CodeTaken([], OrderCode(42));
    assert r.Ok? && r.value.status == Pending && r.value.totalAmount == 1000000;
    assert ItemsOf(book.items, r.value.id) == [OrderItem(1, r.value.id, 7, 2)];
    var again := book.BuyNow(buyer, 7, 1, 42, 0, packages);
    assert book.orders[0].code == OrderCode(42);
    assert again == Err(BadRequest(DuplicateCodeMessage));
  }
}
