# Insurance brokerage backend: carts, orders and role rules in Dafny

This project models the logic layer of a Django REST backend for an insurance brokerage. That layer has five parts:

- the role-based rules that decide who sees which orders, consultation requests and employee records;
- the per-user shopping cart (`add`, `update_item`, `list`);
- the direct purchase `buy_now`, which creates a pending order with one item;
- the admin dashboard aggregates;
- the rule, applied when a user row is saved, that internal staff must use the organisation's e-mail domain.

The ORM is replaced by in-memory tables:

- Tables that the views change in place are classes whose methods carry `modifies` clauses. These are `Models.UserTable`, `Carts.CartEngine`, `Orders.OrderBook` and `Employees.EmployeeBook`.
- Queries, permission checks, serializers and the dashboard are pure functions over sequences and maps.

Every state-changing method states its whole new state in terms of a specification function. The properties the code promises are proved about those functions as lemmas.

Files, one module each:

- `wrappers.dfy`: Option and Result.
- `http.dfy`: the 404 and 400 responses.
- `seqs.dfy`: `Filter`, the in-memory `queryset.filter`.
- `models.dfy`: the records, their choices and defaults, the e-mail guard and the user table.
- `permissions.dfy`: the two object-permission predicates.
- `serializers.dfy`: product redaction, registration, and the live-priced item views.
- `carts.dfy`: `CartViewSet`.
- `orders.dfy`: `OrderViewSet`.
- `dashboard.dfy`: `DashboardSummaryView`.
- `employees.dfy`: `EmployeeViewSet`.
- `consultations.dfy`: the consultation list filter.

In these places the code behaves in ways a reader may not expect; the model follows the code:

- A new cart row gets quantity 1, the field default, not the requested quantity. Two adds of q1 then q2 therefore give 1 + q2, not q1 + q2 (`Carts.TwoAdds`).
- `buy_now` with an unknown package answers 400, not 404.
- `IsStaffSpecialist` has no open default for a request without a product. Its staff branch follows the product link unconditionally, so it is only defined when the link resolves (a precondition).
- Staff list every consultation request. The specialization check exists only as an object permission. Neither permission class is used by any view in `views.py`: `IsOwnerOrAdmin` is imported there but not used, and `IsStaffSpecialist` is not imported.
- Uniqueness of a (cart, package) row is not a storage constraint. `add` keeps it (`Carts.AddRowKeepsInvariants`), and the cart engine's invariant carries it.
- The order code is `ORD-` followed by the clock's whole seconds. Two purchases in the same second get the same code (`Orders.OrderCodeCollides`). The database then refuses the second one, and the view's catch-all handler answers 400.
- Item prices are not captured when an item is stored. Cart and order item views read the package's current price (`Serializers.ItemPricesFollowPackage`, `Carts.TotalAfterRepricing`).

## Model

| member | source | states |
|---|---|---|
| `Models.ParseRole` | backend/api/models.py:10-15 | a parsed role's stored text is the text that was parsed |
| `Models.ParseRoleName` | backend/api/models.py:10-15 | every role choice parses back from its stored text (round trip) |
| `Models.ParseUserType` | backend/api/models.py:16-19 | the two user-type choices parse back; any other text is not a choice |
| `Models.EndsWithMeansConcat` | backend/api/models.py:47 | `endswith` holds exactly when the string is some prefix followed by the suffix |
| `Models.EmailAllowed` | backend/api/models.py:46-47 | a save passes the guard iff the role is not internal, the e-mail is empty, or the e-mail is some prefix followed by `@tisbroker.com`; customers and empty e-mails always pass |
| `Models.UpperCaseDomainRefused` | backend/api/models.py:47 | the test is case-sensitive: an admin with `a@TISBROKER.COM` is refused and one with `a@tisbroker.com` is not |
| `Models.UserTable.Save` | backend/api/models.py:44-50 | a failing guard gives `ValidationError` and writes nothing; a repeated username or phone gives an integrity error and writes nothing; otherwise exactly row `u.id` becomes `u`; every stored row always satisfies the e-mail rule |
| `Permissions.IsOwnerOrAdmin` | backend/api/permissions.py:5-8 | admin and super_admin are always allowed; any other role is allowed iff the object's user is the requester, so an object with no user is refused |
| `Permissions.IsStaffSpecialist` | backend/api/permissions.py:12-18 | admin and super_admin are allowed; customers are refused; staff are allowed iff their specialization equals the linked product's category code, so a staff member with none is refused; needs the product link only for staff |
| `Permissions.StaffAccessIsExclusive` | backend/api/permissions.py:15-17 | two staff members with different specializations never both pass for the same request |
| `Serializers.ProductFields` | backend/api/serializers.py:47-53 | the unredacted product payload carries `provider_name` with the product's provider, and the packages |
| `Serializers.Redact` | backend/api/serializers.py:55-63 | `provider_name` remains iff it was there and the requester is a signed-in admin or super_admin; every other key and value is unchanged |
| `Serializers.RedactIdempotent` | backend/api/serializers.py:62 | redacting twice equals redacting once (popping an absent key is harmless) |
| `Serializers.ProductRepresentation` | backend/api/serializers.py:55-63 | the payload has `provider_name` iff the requester may see it, and then with the product's value; all other fields are the unredacted ones |
| `Serializers.ProviderHiddenFromNonAdmins` | backend/api/serializers.py:58-62 | with no request, an anonymous user, or a staff or customer user, the payload has no `provider_name` |
| `Serializers.DefaultUsername` | backend/api/serializers.py:23-24 | without `username` but with `phone`, `username` becomes the phone; otherwise the data is unchanged; existing keys never change |
| `Serializers.DefaultUsernameIdempotent` | backend/api/serializers.py:23-24 | defaulting twice equals defaulting once |
| `Serializers.NewUser` | backend/api/serializers.py:27 | the created row takes username, e-mail (blank by default), role (customer by default) and phone from the data, and has no specialization |
| `Serializers.Register` | backend/api/serializers.py:21-28 | after defaulting, a missing or empty username creates nothing; otherwise the new row is saved under the next id exactly when `User.save` accepts it, and a refused e-mail gives the validation error |
| `Serializers.ViewCartItem` | backend/api/serializers.py:66-73 | a cart item's view shows its id, package and quantity, and the package's current price |
| `Serializers.ViewOrderItem` | backend/api/serializers.py:75-82 | an order item's view shows its quantity and the package's current price |
| `Serializers.ItemPricesFollowPackage` | backend/api/serializers.py:68-78 | after a package's price changes, every cart and order item of that package shows the new price and nothing else in any view changes |
| `Carts.FindRow` | backend/api/views.py:193 | finds a row with the given cart and package, or reports that no row has them |
| `Carts.FindOwned` | backend/api/views.py:206 | finds the item with that id only inside the requester's own cart; otherwise no row with that id lies in that cart |
| `Carts.AddRow` | backend/api/views.py:193-196 | an existing row gains exactly the requested amount; otherwise one row is appended with quantity 1 and the fresh id; ids, carts and packages of existing rows stay, and rows of other pairs are untouched |
| `Carts.AddRowQuantities` | backend/api/views.py:193-196 | the added pair's quantity becomes old + requested, or 1 if it had no row; every other (cart, package) pair keeps its quantity |
| `Carts.AddRowKeepsInvariants` | backend/api/views.py:193 | adding never creates a second row for a (cart, package) pair and keeps row ids increasing |
| `Carts.TwoAdds` | backend/api/views.py:186-197 | two adds of one package to a cart without it leave exactly one row, with quantity 1 + second amount |
| `Carts.UpdateRow` | backend/api/views.py:207-211 | a quantity of 0 or less removes exactly that item, keeping all other rows; a positive one sets that row's quantity to exactly the value, all other rows unchanged |
| `Carts.RemoveRowKeepsInvariants` | backend/api/views.py:208 | deleting a row keeps ids increasing and pairs unique, and later rows shift down one place |
| `Carts.ForeignItemNotFound` | backend/api/views.py:205-214 | an item id in another user's cart is not found, exactly like an id that does not exist |
| `Carts.CartRows` | backend/api/views.py:178 | the rows listed are exactly the stored rows of that cart |
| `Carts.ViewRows` | backend/api/views.py:181 | one view per row, in order, each the row's serialized view |
| `Carts.TotalPriceNonNegative` | backend/api/views.py:179 | an empty cart totals 0, and with non-negative quantities and prices the total is never negative |
| `Carts.TotalMatchesViews` | backend/api/views.py:179-181 | the computed `total_price` equals the sum of price times quantity over the serialized items |
| `Carts.Listing` | backend/api/views.py:176-184 | `total_items` is the number of rows, not the sum of quantities; each item shows its row's quantity and its package's current price; `total_price` is the sum of price times quantity over the items shown |
| `Carts.TotalAfterRepricing` | backend/api/views.py:179 | after a price change the total moves by (new - old price) times that package's quantity in the cart: the total is recomputed, never cached |
| `Carts.CartEngine.GetOrCreateCart` | backend/api/views.py:177 | the user has exactly one cart afterwards; an existing cart is reused, otherwise one cart with a fresh id is added; carts stay one per user |
| `Carts.CartEngine.Add` | backend/api/views.py:186-199 | the cart exists afterwards, even on failure, and the cart counter moves only when it was created; the item counter moves only when a row was created; an unknown package gives 404 "Product Package not found" and no row changes; otherwise the rows become `AddRow` of the old rows and the answer is "Added to cart" |
| `Carts.CartEngine.UpdateItem` | backend/api/views.py:201-214 | an item not found in the requester's cart gives 404 "Item not found" and no change; otherwise the rows become `UpdateRow` of the old rows and the answer is "Cart updated" |
| `Carts.CartEngine.List` | backend/api/views.py:176-184 | the cart exists afterwards, the cart counter moves only when it was created, and the answer is the listing of its rows at current prices |
| `Orders.VisibleOrders` | backend/api/views.py:108-112 | an order is listed iff `IsOwnerOrAdmin` allows it; admin and super_admin get all orders; everyone else gets only orders whose user is themselves |
| `Orders.VisibleAfterPlacing` | backend/api/views.py:108-112 | a new order is appended to the listings of admins and its buyer, and to no one else's |
| `Orders.DecimalTextInjective` | backend/api/views.py:123 | distinct clock readings have distinct decimal texts |
| `Orders.DecimalTextDigits` | backend/api/views.py:123 | `str` of a whole number of seconds holds only the digits 0-9 |
| `Orders.OrderCode` | backend/api/views.py:123 | every code is `ORD-` followed by at least one character, and all of them are digits |
| `Orders.OrderCodeCollides` | backend/api/views.py:122-123 | two codes are equal iff the two clock readings are the same second |
| `Orders.ItemsOf` | backend/api/models.py:117 | an order's items are exactly the stored items pointing to it |
| `Orders.OnlyItemOfNewOrder` | backend/api/views.py:125-131 | an order that had no items has exactly the one item created after it |
| `Orders.OrderBook.BuyNow` | backend/api/views.py:114-136 | both id counters move by one exactly on success; unknown package: 400 and nothing written; code already taken: 400 and nothing written; otherwise one pending order for price × quantity by the requester, and exactly one item (package, quantity) for it; codes stay unique |
| `Dashboard.WithStatus` | backend/api/views.py:223-225 | the orders kept are exactly those with the given status |
| `Dashboard.Revenue` | backend/api/views.py:223 | the summed amount of the active orders is never negative when none of them has a negative amount |
| `Dashboard.RevenueAppend` | backend/api/views.py:223 | a new order adds its amount to revenue iff it is active |
| `Dashboard.RevenueWithoutActive` | backend/api/views.py:223 | with no active order the revenue is 0 |
| `Dashboard.InsertNewest` | backend/api/views.py:228 | inserting into a newest-first sequence keeps it newest-first and adds exactly that order |
| `Dashboard.SortNewest` | backend/api/views.py:228 | the result is newest-first and a permutation of the orders |
| `Dashboard.PrefixHoldsNewest` | backend/api/views.py:228 | in a newest-first sequence nothing past the first k is newer than any of them |
| `Dashboard.RecentOrders` | backend/api/views.py:227-228 | min(5, n) orders, newest first, drawn from the orders, and no order left out is newer than one shown |
| `Dashboard.Summarize` | backend/api/views.py:222-236 | `total_orders` is the number of orders, `pending_orders` is at most that, revenue is the active revenue, and the recent orders are the five newest |
| `Dashboard.SummaryCountsAppend` | backend/api/views.py:224-225 | a new order adds one to the total and one to the pending count iff it is pending |
| `Employees.VisibleEmployees` | backend/api/views.py:142-143 | an employee is listed iff its enterprise is the requester |
| `Employees.VisibleAfterCreate` | backend/api/views.py:142-146 | a new employee is appended to its enterprise's listing and to no one else's |
| `Employees.EmployeeBook.Create` | backend/api/views.py:145-146 | the new employee belongs to the requester, whatever enterprise the payload named, and is appended with the next id |
| `Consultations.VisibleConsultations` | backend/api/views.py:156-162 | staff, admin and super_admin list every request; a customer lists exactly the requests linked to them |
| `Consultations.CustomerListingMatchesOwnership` | backend/api/views.py:160-161 | a customer's listing is exactly what `IsOwnerOrAdmin` allows; requests without a user are never listed to a customer |
| `Consultations.StaffListsBeyondSpecialization` | backend/api/views.py:158-159 | a request of another specialization is listed to a staff member whom `IsStaffSpecialist` refuses |

## Left out

- Login and token issuance (`CustomLoginView`, token and refresh routes): these belong to external authentication libraries.
- `UserViewSet.me`, news, categories and product CRUD, featured products and search: these are framework configuration with no logic of their own.
- Image and avatar uploads, including the per-image loop in `ProductViewSet.create`: this is file storage I/O.
- Permission plumbing (`get_permissions`, `IsAuthenticated`, `IsAdminUser`, `AllowAny`) and URL routing: every modelled view assumes a signed-in requester.
- The admin site configuration: it is display only.
- Password hashing, and Django's `normalize_email` and `normalize_username`: these are library code inside `create_user`. The first lower-cases the domain of an e-mail before `save`, so registration with `A@TISBROKER.COM` would reach the guard lower-cased. The model applies the guard to the e-mail as given.
- Parsing of the request body. The model takes the quantity as an already parsed `int`. `add` and `buy_now` read the quantity with a default of 1, so a caller of `Carts.CartEngine.Add` or `Orders.OrderBook.BuyNow` passes 1 when the quantity is missing. `update_item` has no default: a missing quantity, like a non-numeric one in any of the three views, raises outside the handlers and gives a server error. A missing `package_id` or `item_id` behaves like an id that does not exist.
- The clock: the order code's seconds and all `created_at` stamps are parameters.
- Concurrency: the `get_or_create` races in the cart, and parallel `buy_now` calls beyond the same-second collision modelled above.
- Column limits (`max_length`, `max_digits`, and the 32-bit range of the `IntegerField` quantities of `OrderItem` and `CartItem`): whether the database enforces them depends on the backend. Quantities and amounts are unbounded integers, so the model never sees an overflowing `+=` in `add` or an out-of-range quantity in `update_item`.
- `Orders.OrderBook.BuyNow`: all or nothing, unlike the view, which creates the order and then the item outside a transaction. If the item insert fails (for example a quantity beyond the `IntegerField` range on a backend that checks it), the view answers 400 and keeps a pending order with no item. The model has no failing item insert. The duplicate-code message is SQLite's wording; another backend words the error differently.
- Null values inside registration data: a field is either present with text or absent.
- The nested JSON of orders (`OrderSerializer` with its items) in the `buy_now` and dashboard responses. The model returns the `Order` records; item views are `Serializers.ViewOrderItem`.
- Row order: tables keep insertion order, and `cart.items.all()` is taken in that order (the source sets no ordering). `order_by('-created_at')` leaves ties unordered; the model breaks them its own way.
- Order status transitions, staff auto-assignment and chat messages: no code in the source performs them.
- `Models.UserTable.Save`: deleting rows and the other ways Django writes a row without `save` (`queryset.update`) are not modelled.
