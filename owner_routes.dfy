// The shop owner's routes: product create / partial update / delete scoped to
// the caller's shop, the order listing joined with customer contacts, the
// order-status update and the per-item sales details of delivered orders.

module OwnerRoutes {
  import opened Common
  import opened ProductModel
  import opened OrderModel
  import opened CustomerModel
  import opened Store

  predicate IsOwner(user: TokenPayload) {
    user.userType == OwnerUser
  }

  const AccessDenied: HttpError := HttpError(403, "Access denied.")

  // ---------------------------------------------------------------------------
  // GET /products
  // ---------------------------------------------------------------------------

  /** `Product.find({ shopId })`: the products of one shop. */
  function ShopProducts(products: map<Id, Product>, shopId: Id): (r: map<Id, Product>)
    ensures r.Keys <= products.Keys
    ensures forall pid :: pid in r ==> r[pid] == products[pid] && r[pid].shopId == shopId
    ensures forall pid :: pid in products && products[pid].shopId == shopId ==> pid in r
  {
    map pid | pid in products && products[pid].shopId == shopId :: products[pid]
  }

  method ListProducts(db: Database, user: TokenPayload) returns (r: Result<map<Id, Product>, HttpError>)
    ensures !IsOwner(user) ==> r == Err(HttpError(403, "Access denied. Must be a shop owner."))
    ensures IsOwner(user) ==> r == Ok(ShopProducts(db.products, user.id))
  {
    if !IsOwner(user) {
      return Err(HttpError(403, "Access denied. Must be a shop owner."));
    }
    return Ok(ShopProducts(db.products, user.id));
  }

  // ---------------------------------------------------------------------------
  // POST /products
  // ---------------------------------------------------------------------------

  /** The product fields of a request body; `None` is a field the body leaves undefined. */
  datatype ProductFields = ProductFields(
    name: Option<string>,
    description: Option<string>,
    price: Option<int>,
    costPrice: Option<int>,
    stockQuantity: Option<int>,
    category: Option<string>,
    details: Option<Details>)

  /** JavaScript truthiness of an optional number: `undefined` and `0` are falsy. */
  predicate TruthyNumber(n: Option<int>) {
    n.Some? && n.value != 0
  }

  const MissingFields: HttpError := HttpError(400, "Missing required product fields.")
  const InvalidNumbers: HttpError := HttpError(400, "Price, cost, and stock must be valid positive numbers.")

  /** The create handler's two checks, then the document it builds for `shopId`. */
  function NewProduct(shopId: Id, body: ProductFields): (r: Result<Product, HttpError>)
    ensures r.Ok? ==> ValidProduct(r.value) && r.value.shopId == shopId
    ensures r.Ok? ==> r.value.details == body.details.GetOr(EmptyDetails)
  {
    if !Truthy(body.name) || !Truthy(body.description) || !TruthyNumber(body.price)
       || body.costPrice.None? || !TruthyNumber(body.stockQuantity) || !Truthy(body.category)
    then Err(MissingFields)
    else if body.price.value <= 0 || body.costPrice.value < 0 || body.stockQuantity.value < 0
    then Err(InvalidNumbers)
    else Ok(Product(shopId, body.name.value, body.description.value, body.category.value,
                    body.price.value, body.costPrice.value, body.stockQuantity.value,
                    body.details.GetOr(EmptyDetails)))
  }

  /**
   * What create accepts, stated without truthiness: all text fields non-empty,
   * price at least one cent, cost not negative, and stock at least ONE, since a
   * stock of 0 is falsy and so counts as missing.
   */
  lemma NewProductAcceptsExactly(shopId: Id, body: ProductFields)
    ensures NewProduct(shopId, body).Ok? <==>
      && body.name.Some? && body.name.value != ""
      && body.description.Some? && body.description.value != ""
      && body.category.Some? && body.category.value != ""
      && body.price.Some? && body.price.value >= MinPrice
      && body.costPrice.Some? && body.costPrice.value >= 0
      && body.stockQuantity.Some? && body.stockQuantity.value >= 1
  {
  }

  /** A field that is missing is reported as missing even when another is out of range. */
  lemma MissingBeforeRange(shopId: Id, body: ProductFields)
    ensures NewProduct(shopId, body) == Err(MissingFields) <==>
      !Truthy(body.name) || !Truthy(body.description) || !Truthy(body.category)
      || !TruthyNumber(body.price) || body.costPrice.None? || !TruthyNumber(body.stockQuantity)
  {
  }

  /** POST /products: 403 for non-owners, 400 from the checks, otherwise a new product in the caller's shop. */
  method CreateProduct(db: Database, user: TokenPayload, body: ProductFields) returns (r: Result<Id, HttpError>)
    requires db.Valid()
    modifies db`products, db`nextId
    ensures db.Valid()
    ensures !IsOwner(user) ==> r == Err(AccessDenied)
    ensures IsOwner(user) && NewProduct(user.id, body).Err? ==> r == Err(NewProduct(user.id, body).error)
    ensures IsOwner(user) && NewProduct(user.id, body).Ok? ==> r.Ok?
    ensures r.Err? ==> unchanged(db)
    ensures r.Ok? ==> (
      && IsOwner(user) && NewProduct(user.id, body).Ok?
      && r.value == old(db.nextId) && r.value !in old(db.products)
      && db.products == old(db.products)[r.value := NewProduct(user.id, body).value]
      && db.orders == old(db.orders) && db.customers == old(db.customers) && db.owners == old(db.owners))
  {
    if !IsOwner(user) {
      return Err(AccessDenied);
    }
    var product := NewProduct(user.id, body);
    if product.Err? {
      return Err(product.error);
    }
    var id := db.InsertProduct(product.value);
    return Ok(id);
  }

  // ---------------------------------------------------------------------------
  // PUT /products/:id
  // ---------------------------------------------------------------------------

  /** `$set: updates`: every field the body defines replaces the stored one. */
  function ApplyPatch(p: Product, u: ProductFields): (r: Product)
    ensures r.shopId == p.shopId
  {
    Product(
      p.shopId,
      u.name.GetOr(p.name),
      u.description.GetOr(p.description),
      u.category.GetOr(p.category),
      u.price.GetOr(p.price),
      u.costPrice.GetOr(p.costPrice),
      u.stockQuantity.GetOr(p.stockQuantity),
      u.details.GetOr(p.details))
  }

  const EmptyPatch: ProductFields := ProductFields(None, None, None, None, None, None, None)

  /** A field the body leaves undefined keeps its stored value; a defined one takes the body's. */
  lemma PatchTouchesOnlyPresentFields(p: Product, u: ProductFields)
    ensures var r := ApplyPatch(p, u);
      && (u.name.None? ==> r.name == p.name) && (u.name.Some? ==> r.name == u.name.value)
      && (u.description.None? ==> r.description == p.description)
      && (u.category.None? ==> r.category == p.category)
      && (u.price.None? ==> r.price == p.price) && (u.price.Some? ==> r.price == u.price.value)
      && (u.costPrice.None? ==> r.costPrice == p.costPrice)
      && (u.stockQuantity.None? ==> r.stockQuantity == p.stockQuantity)
      && (u.stockQuantity.Some? ==> r.stockQuantity == u.stockQuantity.value)
      && (u.details.None? ==> r.details == p.details)
  {
  }

  lemma EmptyPatchChangesNothing(p: Product)
    ensures ApplyPatch(p, EmptyPatch) == p
  {
  }

  /** Sending the same update twice stores what sending it once did. */
  lemma PatchIdempotent(p: Product, u: ProductFields)
    ensures ApplyPatch(ApplyPatch(p, u), u) == ApplyPatch(p, u)
  {
  }

  /** `runValidators: true`: every field the update sets must pass its schema validator. */
  predicate PatchValid(u: ProductFields) {
    && (u.name.Some? ==> u.name.value != "")
    && (u.description.Some? ==> u.description.value != "")
    && (u.category.Some? ==> u.category.value != "")
    && (u.price.Some? ==> u.price.value >= MinPrice)
    && (u.costPrice.Some? ==> u.costPrice.value >= 0)
    && (u.stockQuantity.Some? ==> u.stockQuantity.value >= 0)
  }

  /** A validated update keeps a valid product valid, and a valid listing valid whatever its stock. */
  lemma PatchKeepsProductValid(p: Product, u: ProductFields)
    requires PatchValid(u)
    ensures ValidProduct(p) ==> ValidProduct(ApplyPatch(p, u))
    ensures ValidListing(p) ==> ValidListing(ApplyPatch(p, u))
  {
  }

  /** An update that fails validation on any field yields a product the schema refuses. */
  lemma InvalidPatchBreaksProduct(p: Product, u: ProductFields)
    requires !PatchValid(u)
    ensures !ValidProduct(ApplyPatch(p, u))
  {
  }

  const UpdateFailed: HttpError := HttpError(500, "Server error updating product.")
  const ProductNotFound: HttpError := HttpError(404, "Product not found or access denied.")

  /** The caller's own product `pid`, as `{ _id: productId, shopId: req.user.id }` matches it. */
  predicate OwnsProduct(products: map<Id, Product>, pid: Id, shopId: Id) {
    pid in products && products[pid].shopId == shopId
  }

  /**
   * PUT /products/:id. The update validators run before the query matches,
   * so an invalid update is a 500 even for a product that is not the caller's.
   */
  method UpdateProduct(db: Database, user: TokenPayload, pid: Id, u: ProductFields)
    returns (r: Result<Product, HttpError>)
    requires db.Valid()
    modifies db`products
    ensures db.Valid()
    ensures !IsOwner(user) ==> r == Err(AccessDenied)
    ensures IsOwner(user) && !PatchValid(u) ==> r == Err(UpdateFailed)
    ensures IsOwner(user) && PatchValid(u) && !OwnsProduct(old(db.products), pid, user.id) ==> r == Err(ProductNotFound)
    ensures IsOwner(user) && PatchValid(u) && OwnsProduct(old(db.products), pid, user.id) ==> r.Ok?
    ensures r.Err? ==> db.products == old(db.products)
    ensures r.Ok? ==> (
      && IsOwner(user) && PatchValid(u) && OwnsProduct(old(db.products), pid, user.id)
      && r.value == ApplyPatch(old(db.products)[pid], u)
      && db.products == old(db.products)[pid := r.value])
  {
    if !IsOwner(user) {
      return Err(AccessDenied);
    }
    if !PatchValid(u) {
      return Err(UpdateFailed);
    }
    if !OwnsProduct(db.products, pid, user.id) {
      return Err(ProductNotFound);
    }
    var updated := ApplyPatch(db.products[pid], u);
    PatchKeepsProductValid(db.products[pid], u);
    db.products := db.products[pid := updated];
    return Ok(updated);
  }

  // ---------------------------------------------------------------------------
  // DELETE /products/:id
  // ---------------------------------------------------------------------------

  method DeleteProduct(db: Database, user: TokenPayload, pid: Id) returns (r: Result<(), HttpError>)
    requires db.Valid()
    modifies db`products
    ensures db.Valid()
    ensures !IsOwner(user) ==> r == Err(AccessDenied)
    ensures IsOwner(user) && !OwnsProduct(old(db.products), pid, user.id) ==> r == Err(ProductNotFound)
    ensures IsOwner(user) && OwnsProduct(old(db.products), pid, user.id) ==> r.Ok?
    ensures r.Err? ==> db.products == old(db.products)
    ensures r.Ok? ==> (
      && IsOwner(user) && OwnsProduct(old(db.products), pid, user.id)
      && db.products == old(db.products) - {pid})
  {
    if !IsOwner(user) {
      return Err(AccessDenied);
    }
    if !OwnsProduct(db.products, pid, user.id) {
      return Err(ProductNotFound);
    }
    db.products := db.products - {pid};
    return Ok(());
  }

  /** Deleting removes exactly the one product: every other product, of any shop, stays as it was. */
  lemma DeleteKeepsOthers(products: map<Id, Product>, pid: Id, other: Id)
    requires other in products && other != pid
    ensures other in products - {pid} && (products - {pid})[other] == products[other]
  {
  }

  // ---------------------------------------------------------------------------
  // GET /orders: the shop's orders with customer contacts
  // ---------------------------------------------------------------------------

  /** The orders of `shopId`, in storage order (the newest-first sort is not modelled). */
  function OrdersOfShop(orders: seq<Order>, shopId: Id, deliveredOnly: bool): (r: seq<Order>)
    ensures forall o :: o in r <==> o in orders && o.shopId == shopId && (deliveredOnly ==> o.status == Delivered)
    ensures |r| <= |orders|
  {
    if orders == [] then []
    else
      var last := orders[|orders| - 1];
      var init := OrdersOfShop(orders[..|orders| - 1], shopId, deliveredOnly);
      assert orders == orders[..|orders| - 1] + [last];
      if last.shopId == shopId && (deliveredOnly ==> last.status == Delivered) then init + [last] else init
  }

  /**
   * The listing keeps storage order: the orders of one stretch of storage come
   * before those of the next, so a single order is listed at most once and in place.
   */
  lemma {:induction false} OrdersOfShopAppend(a: seq<Order>, b: seq<Order>, shopId: Id, deliveredOnly: bool)
    ensures OrdersOfShop(a + b, shopId, deliveredOnly) == OrdersOfShop(a, shopId, deliveredOnly) + OrdersOfShop(b, shopId, deliveredOnly)
  {
    if b != [] {
      assert (a + b)[..|a + b| - 1] == a + b[..|b| - 1];
      OrdersOfShopAppend(a, b[..|b| - 1], shopId, deliveredOnly);
    } else {
      assert a + b == a;
    }
  }

  /** `{ name, phone }` of a customer, as `Customer.find(..., 'name phone')` returns it. */
  datatype Contact = Contact(name: string, phone: string)

  const NotAvailable: Contact := Contact("N/A", "N/A")

  /**
   * `customerMap`: the customers whose id some order names, keyed by id
   * (a later entry with the same id would replace an earlier one).
   */
  function CustomerMap(customers: seq<Customer>, orders: seq<Order>): (r: map<Id, Contact>)
    ensures forall id :: id in r <==>
      (exists i :: 0 <= i < |customers| && customers[i].id == id) && (exists o :: o in orders && o.customerId == id)
  {
    if customers == [] then map[]
    else
      var c := customers[|customers| - 1];
      var init := customers[..|customers| - 1];
      var prev := CustomerMap(init, orders);
      assert forall i :: 0 <= i < |init| ==> init[i] == customers[i];
      if exists o :: o in orders && o.customerId == c.id then prev[c.id := Contact(c.name, c.phone)] else prev
  }

  /** `customerMap.get(id)`, with `'N/A'` for both fields when there is none. */
  function ContactOf(cmap: map<Id, Contact>, id: Id): Contact {
    if id in cmap then cmap[id] else NotAvailable
  }

  /** The looked-up contact is that of a customer with the order's id. */
  lemma {:induction false} CustomerMapNamesTheCustomer(customers: seq<Customer>, orders: seq<Order>, id: Id)
    requires id in CustomerMap(customers, orders)
    ensures exists i :: (
      && 0 <= i < |customers| && customers[i].id == id
      && CustomerMap(customers, orders)[id] == Contact(customers[i].name, customers[i].phone))
  {
    var c := customers[|customers| - 1];
    var init := customers[..|customers| - 1];
    if c.id != id || !(exists o :: o in orders && o.customerId == c.id) {
      CustomerMapNamesTheCustomer(init, orders, id);
      var i :| 0 <= i < |init| && init[i].id == id
        && CustomerMap(init, orders)[id] == Contact(init[i].name, init[i].phone);
      assert customers[i] == init[i];
    } else {
      assert customers[|customers| - 1] == c;
    }
  }

  /** An order row of the listing: the order plus `customerName` and `customerPhone`. */
  datatype OrderRow = OrderRow(order: Order, customerName: string, customerPhone: string)

  function WithCustomerInfo(order: Order, cmap: map<Id, Contact>): OrderRow {
    var c := ContactOf(cmap, order.customerId);
    OrderRow(order, c.name, c.phone)
  }

  /**
   * The join: an order of a registered customer shows that customer's name and
   * phone; an order whose customer is gone shows 'N/A'.
   */
  lemma JoinShowsCustomerOrNA(customers: seq<Customer>, orders: seq<Order>, k: nat)
    requires k < |orders|
    ensures var row := WithCustomerInfo(orders[k], CustomerMap(customers, orders));
      && row.order == orders[k]
      && ((exists i :: 0 <= i < |customers| && customers[i].id == orders[k].customerId) ==> orders[k].customerId in CustomerMap(customers, orders))
      && ((forall i :: 0 <= i < |customers| ==> customers[i].id != orders[k].customerId) ==> row.customerName == "N/A" && row.customerPhone == "N/A")
      && (orders[k].customerId in CustomerMap(customers, orders) ==>
            exists i :: 0 <= i < |customers| && customers[i].id == orders[k].customerId
              && row.customerName == customers[i].name && row.customerPhone == customers[i].phone)
  {
    var id := orders[k].customerId;
    assert orders[k] in orders;
    if id in CustomerMap(customers, orders) {
      CustomerMapNamesTheCustomer(customers, orders, id);
    }
  }

  function OrdersWithCustomerInfo(orders: seq<Order>, cmap: map<Id, Contact>): (r: seq<OrderRow>)
    ensures |r| == |orders| && forall k :: 0 <= k < |orders| ==> r[k] == WithCustomerInfo(orders[k], cmap)
  {
    seq(|orders|, k requires 0 <= k < |orders| => WithCustomerInfo(orders[k], cmap))
  }

  method ListOrders(db: Database, user: TokenPayload) returns (r: Result<seq<OrderRow>, HttpError>)
    ensures !IsOwner(user) ==> r == Err(HttpError(403, "Access denied. Must be a shop owner."))
    ensures IsOwner(user) ==> r.Ok? && var orders := OrdersOfShop(db.orders, user.id, false);
      r.value == OrdersWithCustomerInfo(orders, CustomerMap(db.customers, orders))
  {
    if !IsOwner(user) {
      return Err(HttpError(403, "Access denied. Must be a shop owner."));
    }
    var orders := OrdersOfShop(db.orders, user.id, false);
    var cmap := CustomerMap(db.customers, orders);
    return Ok(OrdersWithCustomerInfo(orders, cmap));
  }

  // ---------------------------------------------------------------------------
  // PUT /orders/:id/status
  // ---------------------------------------------------------------------------

  /** `findOneAndUpdate({ _id: orderId, shopId })`: the position of that order of that shop. */
  method FindOrder(orders: seq<Order>, orderId: Id, shopId: Id) returns (r: Option<nat>)
    ensures r.Some? ==> r.value < |orders| && orders[r.value].id == orderId && orders[r.value].shopId == shopId
    ensures r.Some? ==> forall i :: 0 <= i < r.value ==> !(orders[i].id == orderId && orders[i].shopId == shopId)
    ensures r.None? ==> forall i :: 0 <= i < |orders| ==> !(orders[i].id == orderId && orders[i].shopId == shopId)
  {
    var i := 0;
    while i < |orders|
      invariant 0 <= i <= |orders|
      invariant forall j :: 0 <= j < i ==> !(orders[j].id == orderId && orders[j].shopId == shopId)
    {
      if orders[i].id == orderId && orders[i].shopId == shopId {
        return Some(i);
      }
      i := i + 1;
    }
    return None;
  }

  /** The shop has an order with that id, which is what the status update's query needs to match. */
  predicate ShopHasOrder(orders: seq<Order>, orderId: Id, shopId: Id) {
    exists i :: 0 <= i < |orders| && orders[i].id == orderId && orders[i].shopId == shopId
  }

  const InvalidStatus: HttpError := HttpError(400, "Invalid status provided.")
  const OrderNotFound: HttpError := HttpError(404, "Order not found or access denied.")

  /**
   * PUT /orders/:id/status: any of the five names is accepted from any current
   * status; only the `status` of the caller's own order changes.
   */
  method UpdateOrderStatus(db: Database, user: TokenPayload, orderId: Id, status: Option<string>)
    returns (r: Result<Order, HttpError>)
    requires db.Valid()
    modifies db`orders
    ensures db.Valid()
    ensures !IsOwner(user) ==> r == Err(AccessDenied)
    ensures IsOwner(user) && !(status.Some? && status.value in StatusNames) ==> r == Err(InvalidStatus)
    ensures r.Err? ==> db.orders == old(db.orders)
    ensures r.Err? && r.error == OrderNotFound ==>
      forall i :: 0 <= i < |old(db.orders)| ==> !(old(db.orders)[i].id == orderId && old(db.orders)[i].shopId == user.id)
    ensures IsOwner(user) && status.Some? && status.value in StatusNames ==>
      (r.Ok? <==> ShopHasOrder(old(db.orders), orderId, user.id))
    ensures IsOwner(user) && status.Some? && status.value in StatusNames && !ShopHasOrder(old(db.orders), orderId, user.id) ==>
      r == Err(OrderNotFound)
    ensures r.Ok? ==> (
      && IsOwner(user) && status.Some? && ParseStatus(status.value).Some?
      && exists i :: (
        && 0 <= i < |old(db.orders)| && old(db.orders)[i].id == orderId && old(db.orders)[i].shopId == user.id
        && r.value == old(db.orders)[i].(status := ParseStatus(status.value).value)
        && db.orders == old(db.orders)[i := r.value]))
  {
    if !IsOwner(user) {
      return Err(AccessDenied);
    }
    if status.None? || ParseStatus(status.value).None? {
      return Err(InvalidStatus);
    }
    var newStatus := ParseStatus(status.value).value;
    var found := FindOrder(db.orders, orderId, user.id);
    if found.None? {
      return Err(OrderNotFound);
    }
    var i := found.value;
    var updated := db.orders[i].(status := newStatus);
    db.ReplaceOrder(i, updated);
    return Ok(updated);
  }

  /** A status update changes one order's status and nothing else of any order. */
  lemma StatusUpdateTouchesOnlyStatus(orders: seq<Order>, i: nat, s: Status, j: nat)
    requires i < |orders| && j < |orders|
    ensures var after := orders[i := orders[i].(status := s)];
      && after[j].id == orders[j].id && after[j].items == orders[j].items
      && after[j].totalAmount == orders[j].totalAmount && after[j].customerId == orders[j].customerId
      && after[j].shopId == orders[j].shopId && after[j].orderDate == orders[j].orderDate
      && (j != i ==> after[j] == orders[j])
      && (j == i ==> after[j].status == s)
  {
  }

  // ---------------------------------------------------------------------------
  // GET /analytics/details
  // ---------------------------------------------------------------------------

  /** One row of `soldDetails`; money stays in integer cents (no `toFixed`). */
  datatype SoldDetail = SoldDetail(
    orderId: Id,
    orderDate: int,
    productName: string,
    quantitySold: int,
    sellingPrice: int,
    costPrice: int,
    revenue: int,
    profit: int,
    customerId: Id,
    customerName: string,
    customerPhone: string)

  function DetailOf(order: Order, item: OrderItem, c: Contact): SoldDetail {
    var revenue := item.quantity * item.sellingPrice;
    var cost := item.quantity * item.costPrice;
    SoldDetail(order.id, order.orderDate, item.name, item.quantity, item.sellingPrice, item.costPrice,
               revenue, revenue - cost, order.customerId, c.name, c.phone)
  }

  /** The rows of one order, one per item, in item order. */
  function RowsOfOrder(order: Order, c: Contact): (r: seq<SoldDetail>)
    ensures |r| == |order.items|
  {
    seq(|order.items|, j requires 0 <= j < |order.items| => DetailOf(order, order.items[j], c))
  }

  /** `soldDetails`: the rows of every order in turn. */
  function DetailRows(orders: seq<Order>, cmap: map<Id, Contact>): seq<SoldDetail> {
    if orders == [] then []
    else
      var last := orders[|orders| - 1];
      DetailRows(orders[..|orders| - 1], cmap) + RowsOfOrder(last, ContactOf(cmap, last.customerId))
  }

  /** The number of order items of a list of orders. */
  function ItemCount(orders: seq<Order>): nat {
    if orders == [] then 0 else ItemCount(orders[..|orders| - 1]) + |orders[|orders| - 1].items|
  }

  lemma {:induction false} DetailRowsCount(orders: seq<Order>, cmap: map<Id, Contact>)
    ensures |DetailRows(orders, cmap)| == ItemCount(orders)
  {
    if orders != [] {
      DetailRowsCount(orders[..|orders| - 1], cmap);
    }
  }

  function RevenueOf(rows: seq<SoldDetail>): int {
    if rows == [] then 0 else RevenueOf(rows[..|rows| - 1]) + rows[|rows| - 1].revenue
  }

  function ProfitOf(rows: seq<SoldDetail>): int {
    if rows == [] then 0 else ProfitOf(rows[..|rows| - 1]) + rows[|rows| - 1].profit
  }

  lemma {:induction false} RevenueAppend(a: seq<SoldDetail>, b: seq<SoldDetail>)
    ensures RevenueOf(a + b) == RevenueOf(a) + RevenueOf(b)
    decreases |b|
  {
    if b == [] {
      assert a + b == a;
    } else {
      assert (a + b)[..|a + b| - 1] == a + b[..|b| - 1];
      RevenueAppend(a, b[..|b| - 1]);
    }
  }

  /** The items' revenue is the order's line total. */
  lemma {:induction false} RowsOfOrderRevenue(order: Order, c: Contact)
    ensures RevenueOf(RowsOfOrder(order, c)) == ItemsTotal(order.items)
    decreases |order.items|
  {
    var items := order.items;
    if items != [] {
      var shorter := order.(items := items[..|items| - 1]);
      RowsOfOrderRevenue(shorter, c);
      var rows := RowsOfOrder(order, c);
      assert rows[..|rows| - 1] == RowsOfOrder(shorter, c);
    }
  }

  /** The sum of the stored totals of a list of orders. */
  function TotalsOf(orders: seq<Order>): int {
    if orders == [] then 0 else TotalsOf(orders[..|orders| - 1]) + orders[|orders| - 1].totalAmount
  }

  /**
   * When every order's total is the sum of its own lines, as checkout stores
   * it, the report's revenue adds up to the orders' totals.
   */
  lemma {:induction false} ReportRevenueIsOrderTotals(orders: seq<Order>, cmap: map<Id, Contact>)
    requires forall o :: o in orders ==> TotalConsistent(o)
    ensures RevenueOf(DetailRows(orders, cmap)) == TotalsOf(orders)
  {
    if orders != [] {
      var last := orders[|orders| - 1];
      var init := orders[..|orders| - 1];
      assert forall o :: o in init ==> o in orders;
      assert last in orders;
      ReportRevenueIsOrderTotals(init, cmap);
      RevenueAppend(DetailRows(init, cmap), RowsOfOrder(last, ContactOf(cmap, last.customerId)));
      RowsOfOrderRevenue(last, ContactOf(cmap, last.customerId));
    }
  }

  /** Each row's profit is its revenue less the quantity at the purchase-time cost. */
  lemma {:induction false} RowProfit(orders: seq<Order>, cmap: map<Id, Contact>, k: nat)
    requires k < |DetailRows(orders, cmap)|
    ensures var row := DetailRows(orders, cmap)[k];
      row.profit == row.revenue - row.quantitySold * row.costPrice
      && row.revenue == row.quantitySold * row.sellingPrice
  {
    var init := orders[..|orders| - 1];
    var prev := DetailRows(init, cmap);
    if k < |prev| {
      RowProfit(init, cmap, k);
    } else {
      var last := orders[|orders| - 1];
      assert DetailRows(orders, cmap)[k] == RowsOfOrder(last, ContactOf(cmap, last.customerId))[k - |prev|];
    }
  }

  /** GET /analytics/details: the nested `forEach` over delivered orders and their items. */
  method SalesDetails(db: Database, user: TokenPayload) returns (r: Result<seq<SoldDetail>, HttpError>)
    ensures !IsOwner(user) ==> r == Err(AccessDenied)
    ensures IsOwner(user) ==> r.Ok? && var orders := OrdersOfShop(db.orders, user.id, true);
      r.value == DetailRows(orders, CustomerMap(db.customers, orders))
  {
    if !IsOwner(user) {
      return Err(AccessDenied);
    }
    var orders := OrdersOfShop(db.orders, user.id, true);
    var cmap := CustomerMap(db.customers, orders);
    var soldDetails: seq<SoldDetail> := [];
    var k := 0;
    while k < |orders|
      invariant 0 <= k <= |orders|
      invariant soldDetails == DetailRows(orders[..k], cmap)
    {
      var order := orders[k];
      var customerInfo := ContactOf(cmap, order.customerId);
      ghost var before := soldDetails;
      var j := 0;
      while j < |order.items|
        invariant 0 <= j <= |order.items|
        invariant soldDetails == before + RowsOfOrder(order, customerInfo)[..j]
      {
        var item := order.items[j];
        soldDetails := soldDetails + [DetailOf(order, item, customerInfo)];
        assert RowsOfOrder(order, customerInfo)[..j + 1] == RowsOfOrder(order, customerInfo)[..j] + [DetailOf(order, item, customerInfo)];
        j := j + 1;
      }
      assert RowsOfOrder(order, customerInfo)[..j] == RowsOfOrder(order, customerInfo);
      assert orders[..k + 1][..k] == orders[..k];
      k := k + 1;
    }
    assert orders[..k] == orders;
    return Ok(soldDetails);
  }
}
