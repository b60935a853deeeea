/** `DashboardSummaryView.get` of backend/api/views.py: revenue of active orders, the number
    of orders, the number of pending orders and the five most recently created orders. */
module Dashboard {
  import opened Models
  import opened Seqs

  /** How many recent orders the summary shows. */
  const RecentLimit: nat := 5

  datatype Summary = Summary(revenue: int, totalOrders: nat, pendingOrders: nat, recentOrders: seq<Order>)

  function SumAmounts(orders: seq<Order>): int
  {
    if orders == [] then 0 else orders[0].totalAmount + SumAmounts(orders[1..])
  }

  lemma {:induction false} SumAmountsAppend(a: seq<Order>, b: seq<Order>)
    ensures SumAmounts(a + b) == SumAmounts(a) + SumAmounts(b)
  {
    if a == [] {
      assert a + b == b;
    } else {
      assert (a + b)[1..] == a[1..] + b;
      SumAmountsAppend(a[1..], b);
    }
  }

  lemma {:induction false} SumAmountsNonNegative(orders: seq<Order>)
    ensures (forall o :: o in orders ==> o.totalAmount >= 0) ==> SumAmounts(orders) >= 0
  {
    if orders != [] {
      SumAmountsNonNegative(orders[1..]);
      if forall o :: o in orders ==> o.totalAmount >= 0 {
        assert orders[0] in orders;
      }
    }
  }

  function WithStatus(orders: seq<Order>, status: OrderStatus): (r: seq<Order>)
    ensures forall o :: o in r <==> o in orders && o.status == status
  {
    Filter(orders, (o: Order) => o.status == status)
  }

  /** `aggregate(Sum('total_amount'))` over active orders, `or 0` when there are none. */
  function Revenue(orders: seq<Order>): (revenue: int)
    ensures (forall o :: o in orders && o.status == Active ==> o.totalAmount >= 0) ==> revenue >= 0
  {
    SumAmountsNonNegative(WithStatus(orders, Active));
    SumAmounts(WithStatus(orders, Active))
  }

  /** Only active orders count towards revenue, each with its full amount. */
  lemma RevenueAppend(orders: seq<Order>, o: Order)
    ensures Revenue(orders + [o]) == Revenue(orders) + (if o.status == Active then o.totalAmount else 0)
  {
    var keep := (x: Order) => x.status == Active;
    FilterAppend(orders, [o], keep);
    SumAmountsAppend(WithStatus(orders, Active), WithStatus([o], Active));
    if o.status == Active {
      FilterKeepsAll([o], keep);
    } else {
      FilterKeepsNone([o], keep);
    }
  }

  /** Without active orders the revenue is 0 (the `or 0` of the view). */
  lemma RevenueWithoutActive(orders: seq<Order>)
    requires forall o :: o in orders ==> o.status != Active
    ensures Revenue(orders) == 0
  {
    FilterKeepsNone(orders, (x: Order) => x.status == Active);
  }

  // --------------------------------------------------------- newest first

  /** `order_by('-created_at')`: no order is newer than one before it. */
  ghost predicate NewestFirst(s: seq<Order>)
  {
    forall i, j :: 0 <= i < j < |s| ==> s[i].createdAt >= s[j].createdAt
  }

  /** An order no older than anything in a newest-first sequence can go in front of it. */
  lemma PrependNewest(h: Order, t: seq<Order>)
    requires NewestFirst(t)
    requires forall x :: x in t ==> x.createdAt <= h.createdAt
    ensures NewestFirst([h] + t)
  {
    forall i, j | 0 <= i < j < |[h] + t|
      ensures ([h] + t)[i].createdAt >= ([h] + t)[j].createdAt
    {
      if i == 0 {
        assert ([h] + t)[j] in t;
      }
    }
  }

  /** Whatever is bounded in `s`, and `o`, is bounded in a sequence holding just those. */
  lemma BoundedByMultiset(r: seq<Order>, s: seq<Order>, o: Order, bound: int)
    requires multiset(r) == multiset(s) + multiset{o}
    requires forall x :: x in s ==> x.createdAt <= bound
    requires o.createdAt <= bound
    ensures forall x :: x in r ==> x.createdAt <= bound
  {
    forall x | x in r
      ensures x.createdAt <= bound
    {
      assert x in multiset(r);
      if x != o {
        assert x in multiset(s);
      }
    }
  }

  function InsertNewest(o: Order, s: seq<Order>): (r: seq<Order>)
    requires NewestFirst(s)
    ensures NewestFirst(r)
    ensures multiset(r) == multiset(s) + multiset{o}
    ensures |r| == |s| + 1
  {
    if s == [] || o.createdAt >= s[0].createdAt then
      PrependNewest(o, s);
      [o] + s
    else
      var rest := InsertNewest(o, s[1..]);
      assert forall x :: x in s[1..] ==> x.createdAt <= s[0].createdAt by {
        forall x | x in s[1..]
          ensures x.createdAt <= s[0].createdAt
        {
          var j :| 0 <= j < |s[1..]| && s[1..][j] == x;
          assert s[j + 1] == x;
        }
      }
      BoundedByMultiset(rest, s[1..], o, s[0].createdAt);
      PrependNewest(s[0], rest);
      assert s == [s[0]] + s[1..];
      [s[0]] + rest
  }

  /** The orders, newest first. */
  function SortNewest(orders: seq<Order>): (r: seq<Order>)
    ensures NewestFirst(r)
    ensures multiset(r) == multiset(orders)
    ensures |r| == |orders|
  {
    if orders == [] then []
    else
      assert orders == [orders[0]] + orders[1..];
      InsertNewest(orders[0], SortNewest(orders[1..]))
  }

  /** In a newest-first sequence, nothing after the first `k` is newer than any of them. */
  lemma PrefixHoldsNewest(sorted: seq<Order>, k: nat)
    requires NewestFirst(sorted) && k <= |sorted|
    ensures multiset(sorted[..k]) <= multiset(sorted)
    ensures forall o, i :: o in multiset(sorted) - multiset(sorted[..k]) && 0 <= i < k ==> o.createdAt <= sorted[i].createdAt
  {
    var head, tail := sorted[..k], sorted[k..];
    assert sorted == head + tail;
    assert multiset(sorted) - multiset(head) == multiset(tail);
    forall o: Order, i: int | o in multiset(tail) && 0 <= i < k
      ensures o.createdAt <= sorted[i].createdAt
    {
      assert o in tail;
      var j :| 0 <= j < |tail| && tail[j] == o;
      assert sorted[k + j] == o;
    }
  }

  /** `Order.objects.order_by('-created_at')[:5]`: at most five orders, newest first, drawn
      from the given orders, and no order left out is newer than one shown. */
  function RecentOrders(orders: seq<Order>): (r: seq<Order>)
    ensures |r| == if |orders| < RecentLimit then |orders| else RecentLimit
    ensures NewestFirst(r)
    ensures multiset(r) <= multiset(orders)
    ensures forall o, i :: o in multiset(orders) - multiset(r) && 0 <= i < |r| ==> o.createdAt <= r[i].createdAt
  {
    var sorted := SortNewest(orders);
    var k := if |sorted| < RecentLimit then |sorted| else RecentLimit;
    PrefixHoldsNewest(sorted, k);
    sorted[..k]
  }

  /** The summary the view returns. */
  function Summarize(orders: seq<Order>): (s: Summary)
    ensures s.totalOrders == |orders|
    ensures s.pendingOrders <= s.totalOrders
    ensures s.revenue == Revenue(orders)
    ensures s.recentOrders == RecentOrders(orders)
  {
    Summary(Revenue(orders), |orders|, |WithStatus(orders, Pending)|, RecentOrders(orders))
  }

  /** The counts of a summary: the pending count includes exactly the pending orders, and a
      new order adds one to the total and, if pending, one to the pending count. */
  lemma SummaryCountsAppend(orders: seq<Order>, o: Order)
    ensures Summarize(orders + [o]).totalOrders == Summarize(orders).totalOrders + 1
    ensures Summarize(orders + [o]).pendingOrders ==
      Summarize(orders).pendingOrders + (if o.status == Pending then 1 else 0)
  {
    var keep := (x: Order) => x.status == Pending;
    FilterAppend(orders, [o], keep);
    if o.status == Pending {
      FilterKeepsAll([o], keep);
    } else {
      FilterKeepsNone([o], keep);
    }
  }
}
