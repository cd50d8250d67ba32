// POST /checkout: validate every cart line against stock, group the lines by the
// shop that owns each product, save one `Processing` order per shop with
// purchase-time snapshots and a server-side total, then decrement stock.

module CustomerRoutes {
  import opened Common
  import opened ProductModel
  import opened OrderModel
  import opened Store

  /** A parsed JSON request body: each key holds an array of `{ productId, quantity }` lines. */
  type RequestBody = map<string, seq<CartLine>>

  /** `const { cartItems } = req.body`: only this key is read. */
  function CartItemsOf(body: RequestBody): Option<seq<CartLine>> {
    if "cartItems" in body then Some(body["cartItems"]) else None
  }

  /** The product an error message names: its name, or the requested id when there is none. */
  datatype ProductLabel = ByName(name: string) | ById(id: Id)

  datatype CheckoutError =
    | Forbidden                             // 403 from the customers-only gate
    | EmptyCart                             // 400 "Cart is empty."
    | InsufficientStock(product: ProductLabel)  // 400 "Insufficient stock for product: ..."

  function HttpStatusOf(e: CheckoutError): nat {
    if e.Forbidden? then 403 else 400
  }

  // ---------------------------------------------------------------------------
  // Validation (the first loop)
  // ---------------------------------------------------------------------------

  /** The check applied to one line: the product exists and its UNCHANGED stock covers this line alone. */
  predicate LineOk(products: map<Id, Product>, line: CartLine) {
    line.productId in products && products[line.productId].stockQuantity >= line.quantity
  }

  predicate AllLinesOk(products: map<Id, Product>, lines: seq<CartLine>) {
    forall i :: 0 <= i < |lines| ==> LineOk(products, lines[i])
  }

  /** `product?.name || item.productId` */
  function Rejection(products: map<Id, Product>, line: CartLine): CheckoutError {
    InsufficientStock(
      if line.productId in products && products[line.productId].name != ""
      then ByName(products[line.productId].name)
      else ById(line.productId))
  }

  /** The error of the first line that fails, if any does. */
  function FirstRejection(products: map<Id, Product>, lines: seq<CartLine>): (r: Option<CheckoutError>)
    ensures r.None? <==> AllLinesOk(products, lines)
    ensures r.Some? ==> exists i :: 0 <= i < |lines| && !LineOk(products, lines[i]) && r.value == Rejection(products, lines[i])
  {
    if lines == [] then None
    else if !LineOk(products, lines[0]) then Some(Rejection(products, lines[0]))
    else
      var rest := FirstRejection(products, lines[1..]);
      assert AllLinesOk(products, lines) <== AllLinesOk(products, lines[1..]) by {
        if AllLinesOk(products, lines[1..]) {
          forall i | 0 <= i < |lines| ensures LineOk(products, lines[i]) {
            if i > 0 { assert lines[i] == lines[1..][i - 1]; }
          }
        }
      }
      rest
  }

  lemma {:induction false} FirstRejectionAt(products: map<Id, Product>, lines: seq<CartLine>, i: nat)
    requires i < |lines|
    requires AllLinesOk(products, lines[..i]) && !LineOk(products, lines[i])
    ensures FirstRejection(products, lines) == Some(Rejection(products, lines[i]))
  {
    if i > 0 {
      assert lines[..i][0] == lines[0];
      assert lines[1..][..i - 1] == lines[..i][1..];
      var tail := lines[1..];
      assert tail[..i - 1] == lines[..i][1..];
      assert AllLinesOk(products, tail[..i - 1]) by {
        forall j | 0 <= j < i - 1 ensures LineOk(products, tail[j]) {
          assert tail[j] == lines[..i][j + 1];
        }
      }
      FirstRejectionAt(products, tail, i - 1);
    }
  }

  // ---------------------------------------------------------------------------
  // Grouping by shop (the `shopIdMap`)
  // ---------------------------------------------------------------------------

  /** `{ product, quantity }`: a validated line with the product document read for it. */
  datatype Picked = Picked(productId: Id, product: Product, quantity: int)

  function ShopOf(p: Picked): Id {
    p.product.shopId
  }

  predicate AllKnown(products: map<Id, Product>, lines: seq<CartLine>) {
    forall i :: 0 <= i < |lines| ==> lines[i].productId in products
  }

  /** The validated lines, each paired with its product as read during validation. */
  function Picks(products: map<Id, Product>, lines: seq<CartLine>): (r: seq<Picked>)
    requires AllKnown(products, lines)
    ensures |r| == |lines|
    ensures forall i :: 0 <= i < |r| ==>
      r[i] == Picked(lines[i].productId, products[lines[i].productId], lines[i].quantity)
  {
    if lines == [] then []
    else
      var last := lines[|lines| - 1];
      Picks(products, lines[..|lines| - 1]) + [Picked(last.productId, products[last.productId], last.quantity)]
  }

  /** The keys of `shopIdMap` in insertion order: each shop once, where it first appears. */
  function ShopsInOrder(picks: seq<Picked>): seq<Id> {
    if picks == [] then []
    else
      var prev := ShopsInOrder(picks[..|picks| - 1]);
      var s := ShopOf(picks[|picks| - 1]);
      if s in prev then prev else prev + [s]
  }

  predicate Distinct(ids: seq<Id>) {
    forall i, j :: 0 <= i < j < |ids| ==> ids[i] != ids[j]
  }

  /** Each shop of the cart is listed exactly once, and no other shop is. */
  lemma {:induction false} ShopsInOrderExact(picks: seq<Picked>)
    ensures Distinct(ShopsInOrder(picks))
    ensures forall s :: s in ShopsInOrder(picks) <==> exists i :: 0 <= i < |picks| && ShopOf(picks[i]) == s
  {
    if picks != [] {
      var init := picks[..|picks| - 1];
      ShopsInOrderExact(init);
      assert forall i :: 0 <= i < |init| ==> init[i] == picks[i];
    }
  }

  /** The array `shopIdMap.get(shopId)`: that shop's lines, in cart order. */
  function LinesOfShop(picks: seq<Picked>, shopId: Id): seq<Picked> {
    if picks == [] then []
    else
      var last := picks[|picks| - 1];
      LinesOfShop(picks[..|picks| - 1], shopId) + (if ShopOf(last) == shopId then [last] else [])
  }

  /** A shop's group holds exactly the cart's lines for that shop, each as often as the cart does. */
  lemma {:induction false} LinesOfShopExact(picks: seq<Picked>, shopId: Id)
    ensures forall p :: multiset(LinesOfShop(picks, shopId))[p] == (if ShopOf(p) == shopId then multiset(picks)[p] else 0)
  {
    if picks != [] {
      var init := picks[..|picks| - 1];
      LinesOfShopExact(init, shopId);
      assert picks == init + [picks[|picks| - 1]];
    }
  }

  /** The groups of `shops`, one after the other. */
  function FlattenGroups(picks: seq<Picked>, shops: seq<Id>): seq<Picked> {
    if shops == [] then []
    else FlattenGroups(picks, shops[..|shops| - 1]) + LinesOfShop(picks, shops[|shops| - 1])
  }

  lemma NoLinesForAbsentShop(picks: seq<Picked>, s: Id)
    requires s !in ShopsInOrder(picks)
    ensures LinesOfShop(picks, s) == []
  {
    ShopsInOrderExact(picks);
    LinesOfShopExact(picks, s);
  }

  lemma {:induction false} FlattenSnoc(picks: seq<Picked>, p: Picked, shops: seq<Id>)
    requires Distinct(shops)
    ensures multiset(FlattenGroups(picks + [p], shops)) ==
            multiset(FlattenGroups(picks, shops)) + (if ShopOf(p) in shops then multiset{p} else multiset{})
  {
    if shops != [] {
      var init := shops[..|shops| - 1];
      var s := shops[|shops| - 1];
      FlattenSnoc(picks, p, init);
      assert (picks + [p])[..|picks + [p]| - 1] == picks;
      assert LinesOfShop(picks + [p], s) == LinesOfShop(picks, s) + (if ShopOf(p) == s then [p] else []);
      assert s !in init;
      assert ShopOf(p) in shops <==> ShopOf(p) in init || ShopOf(p) == s;
    }
  }

  /** Grouping loses no line and invents none: the groups together are a permutation of the cart. */
  lemma {:induction false} GroupingPartitions(picks: seq<Picked>)
    ensures multiset(FlattenGroups(picks, ShopsInOrder(picks))) == multiset(picks)
  {
    if picks != [] {
      var init := picks[..|picks| - 1];
      var p := picks[|picks| - 1];
      assert picks == init + [p];
      var shops := ShopsInOrder(init);
      ShopsInOrderExact(init);
      GroupingPartitions(init);
      FlattenSnoc(init, p, shops);
      if ShopOf(p) !in shops {
        NoLinesForAbsentShop(init, ShopOf(p));
        assert ShopsInOrder(picks) == shops + [ShopOf(p)];
        assert (shops + [ShopOf(p)])[..|shops|] == shops;
        assert LinesOfShop(picks, ShopOf(p)) == [p];
      }
    }
  }

  /** Every group that becomes an order holds at least one line. */
  lemma EveryShopHasLines(picks: seq<Picked>, s: Id)
    requires s in ShopsInOrder(picks)
    ensures |LinesOfShop(picks, s)| > 0
  {
    ShopsInOrderExact(picks);
    LinesOfShopExact(picks, s);
    var i :| 0 <= i < |picks| && ShopOf(picks[i]) == s;
    assert multiset(LinesOfShop(picks, s))[picks[i]] > 0;
  }

  // ---------------------------------------------------------------------------
  // Sums over lines
  // ---------------------------------------------------------------------------

  /** A left fold adding `w` over the lines. */
  function SumOver(xs: seq<Picked>, w: Picked -> int): int {
    if xs == [] then 0 else SumOver(xs[..|xs| - 1], w) + w(xs[|xs| - 1])
  }

  lemma {:induction false} SumOverAppend(a: seq<Picked>, b: seq<Picked>, w: Picked -> int)
    ensures SumOver(a + b, w) == SumOver(a, w) + SumOver(b, w)
    decreases |b|
  {
    if b == [] {
      assert a + b == a;
    } else {
      assert (a + b)[..|a + b| - 1] == a + b[..|b| - 1];
      SumOverAppend(a, b[..|b| - 1], w);
    }
  }

  /** A sum over lines does not depend on their order. */
  lemma {:induction false} SumOverPermutation(a: seq<Picked>, b: seq<Picked>, w: Picked -> int)
    requires multiset(a) == multiset(b)
    ensures SumOver(a, w) == SumOver(b, w)
    decreases |a|
  {
    if a == [] {
      assert |b| == |multiset(b)| == 0;
    } else {
      var init := a[..|a| - 1];
      var x := a[|a| - 1];
      assert a == init + [x];
      assert x in multiset(b);
      var j :| 0 <= j < |b| && b[j] == x;
      var rest := b[..j] + b[j + 1..];
      assert b == b[..j] + [x] + b[j + 1..];
      assert multiset(b) == multiset(b[..j]) + multiset{x} + multiset(b[j + 1..]);
      assert multiset(a) == multiset(init) + multiset{x};
      assert multiset(rest) == multiset(b[..j]) + multiset(b[j + 1..]);
      assert multiset(rest) == multiset(b) - multiset{x};
      assert multiset(init) == multiset(a) - multiset{x};
      SumOverPermutation(init, rest, w);
      SumOverAppend(b[..j] + [x], b[j + 1..], w);
      SumOverAppend(b[..j], [x], w);
      SumOverAppend(b[..j], b[j + 1..], w);
      assert SumOver([x], w) == w(x) by { assert [x][..0] == []; }
    }
  }

  /** The quantity a line takes from product `pid`. */
  function QuantityOf(pid: Id): Picked -> int {
    (p: Picked) => if p.productId == pid then p.quantity else 0
  }

  /** `product.price * item.quantity` */
  function PickValue(p: Picked): int {
    p.product.price * p.quantity
  }

  /** The sum of the quantities the cart asks of product `pid`. */
  function Requested(lines: seq<CartLine>, pid: Id): int {
    if lines == [] then 0
    else Requested(lines[..|lines| - 1], pid) + (if lines[|lines| - 1].productId == pid then lines[|lines| - 1].quantity else 0)
  }

  lemma {:induction false} RequestedOfPicks(products: map<Id, Product>, lines: seq<CartLine>, pid: Id)
    requires AllKnown(products, lines)
    ensures SumOver(Picks(products, lines), QuantityOf(pid)) == Requested(lines, pid)
  {
    if lines != [] {
      var init := lines[..|lines| - 1];
      assert AllKnown(products, init) by {
        forall i | 0 <= i < |init| ensures init[i].productId in products { assert init[i] == lines[i]; }
      }
      RequestedOfPicks(products, init, pid);
      var ps := Picks(products, lines);
      assert ps[..|ps| - 1] == Picks(products, init);
    }
  }

  /** The cart-wide `totalAmount` the validation loop accumulates. */
  function CartValue(products: map<Id, Product>, lines: seq<CartLine>): int
    requires AllKnown(products, lines)
  {
    SumOver(Picks(products, lines), PickValue)
  }

  // ---------------------------------------------------------------------------
  // Orders (the second loop)
  // ---------------------------------------------------------------------------

  /** The `items.map(...)` snapshot of one line: name, price and cost as they are now. */
  function Snapshot(p: Picked): OrderItem {
    OrderItem(p.productId, p.product.name, p.quantity, p.product.price, p.product.costPrice)
  }

  function Snapshots(ps: seq<Picked>): (r: seq<OrderItem>)
    ensures |r| == |ps|
    ensures forall i :: 0 <= i < |ps| ==> r[i] == Snapshot(ps[i])
  {
    if ps == [] then [] else Snapshots(ps[..|ps| - 1]) + [Snapshot(ps[|ps| - 1])]
  }

  lemma {:induction false} SnapshotsTotal(ps: seq<Picked>)
    ensures ItemsTotal(Snapshots(ps)) == SumOver(ps, PickValue)
  {
    if ps != [] {
      SnapshotsTotal(ps[..|ps| - 1]);
      assert Snapshots(ps)[..|ps| - 1] == Snapshots(ps[..|ps| - 1]);
    }
  }

  /** The `new Order({...})` saved for one shop. */
  function ShopOrder(customerId: Id, now: int, id: Id, picks: seq<Picked>, shopId: Id): Order {
    var items := Snapshots(LinesOfShop(picks, shopId));
    Order(id, customerId, shopId, now, Processing, items, ItemsTotal(items))
  }

  /** The orders saved for `shops`, with consecutive fresh ids from `firstId`. */
  function PlannedOrders(customerId: Id, now: int, firstId: Id, picks: seq<Picked>, shops: seq<Id>): (r: seq<Order>)
    ensures |r| == |shops|
  {
    if shops == [] then []
    else
      PlannedOrders(customerId, now, firstId, picks, shops[..|shops| - 1])
        + [ShopOrder(customerId, now, firstId + |shops| - 1, picks, shops[|shops| - 1])]
  }

  /** The `k`-th saved order is the `k`-th shop's, under the `k`-th fresh id. */
  lemma {:induction false} PlannedOrdersAt(customerId: Id, now: int, firstId: Id, picks: seq<Picked>, shops: seq<Id>, k: nat)
    requires k < |shops|
    ensures PlannedOrders(customerId, now, firstId, picks, shops)[k] == ShopOrder(customerId, now, firstId + k, picks, shops[k])
  {
    var init := shops[..|shops| - 1];
    if k < |init| {
      PlannedOrdersAt(customerId, now, firstId, picks, init, k);
    }
  }

  function FreshIds(firstId: Id, n: nat): (r: seq<Id>)
    ensures |r| == n && forall k :: 0 <= k < n ==> r[k] == firstId + k
  {
    if n == 0 then [] else FreshIds(firstId, n - 1) + [firstId + n - 1]
  }

  /** The sum of the totals of a list of orders. */
  function TotalOf(orders: seq<Order>): int {
    if orders == [] then 0 else TotalOf(orders[..|orders| - 1]) + orders[|orders| - 1].totalAmount
  }

  lemma {:induction false} PlannedOrdersTotal(customerId: Id, now: int, firstId: Id, picks: seq<Picked>, shops: seq<Id>)
    ensures TotalOf(PlannedOrders(customerId, now, firstId, picks, shops)) == SumOver(FlattenGroups(picks, shops), PickValue)
  {
    if shops != [] {
      var init := shops[..|shops| - 1];
      var os := PlannedOrders(customerId, now, firstId, picks, shops);
      PlannedOrdersTotal(customerId, now, firstId, picks, init);
      assert os[..|os| - 1] == PlannedOrders(customerId, now, firstId, picks, init);
      SnapshotsTotal(LinesOfShop(picks, shops[|shops| - 1]));
      SumOverAppend(FlattenGroups(picks, init), LinesOfShop(picks, shops[|shops| - 1]), PickValue);
    }
  }

  /**
   * The per-shop order totals add up to the value of the whole cart: splitting
   * the cart into orders neither loses nor double-counts a line.
   */
  lemma OrderTotalsAddUpToCart(products: map<Id, Product>, lines: seq<CartLine>, customerId: Id, now: int, firstId: Id)
    requires AllKnown(products, lines)
    ensures var picks := Picks(products, lines);
      TotalOf(PlannedOrders(customerId, now, firstId, picks, ShopsInOrder(picks))) == CartValue(products, lines)
  {
    var picks := Picks(products, lines);
    PlannedOrdersTotal(customerId, now, firstId, picks, ShopsInOrder(picks));
    GroupingPartitions(picks);
    SumOverPermutation(FlattenGroups(picks, ShopsInOrder(picks)), picks, PickValue);
  }

  /** Every saved order is `Processing`, belongs to the caller, is non-empty and has a consistent total. */
  lemma PlannedOrdersWellFormed(customerId: Id, now: int, firstId: Id, picks: seq<Picked>, k: nat)
    requires k < |ShopsInOrder(picks)|
    ensures var o := PlannedOrders(customerId, now, firstId, picks, ShopsInOrder(picks))[k];
      && o.status == Processing && o.customerId == customerId && o.id == firstId + k
      && o.shopId == ShopsInOrder(picks)[k]
      && |o.items| > 0 && TotalConsistent(o)
  {
    PlannedOrdersAt(customerId, now, firstId, picks, ShopsInOrder(picks), k);
    EveryShopHasLines(picks, ShopsInOrder(picks)[k]);
  }

  // ---------------------------------------------------------------------------
  // Stock
  // ---------------------------------------------------------------------------

  /** One `findByIdAndUpdate(id, { $inc: { stockQuantity: -quantity } })`; a missing product is left alone. */
  function DeductOne(products: map<Id, Product>, x: Picked): (r: map<Id, Product>)
    ensures r.Keys == products.Keys
  {
    if x.productId in products
    then products[x.productId := products[x.productId].(stockQuantity := products[x.productId].stockQuantity - x.quantity)]
    else products
  }

  /** One `$inc` keeps every stored product's non-stock fields valid. */
  lemma DeductOneKeepsListings(products: map<Id, Product>, bound: nat, x: Picked)
    requires ListingsBelow(products, bound)
    ensures ListingsBelow(DeductOne(products, x), bound)
  {
    if x.productId in products {
      StockChangeKeepsListings(products, bound, x.productId, products[x.productId].stockQuantity - x.quantity);
    }
  }

  /** `findByIdAndUpdate(id, { $inc: { stockQuantity: -quantity } })` for each line in turn. */
  function Deduct(products: map<Id, Product>, xs: seq<Picked>): (r: map<Id, Product>)
    ensures r.Keys == products.Keys
  {
    if xs == [] then products
    else DeductOne(Deduct(products, xs[..|xs| - 1]), xs[|xs| - 1])
  }

  lemma {:induction false} DeductEffect(products: map<Id, Product>, xs: seq<Picked>, pid: Id)
    requires pid in products
    ensures Deduct(products, xs)[pid] ==
      products[pid].(stockQuantity := products[pid].stockQuantity - SumOver(xs, QuantityOf(pid)))
  {
    if xs != [] {
      DeductEffect(products, xs[..|xs| - 1], pid);
    }
  }

  lemma {:induction false} DeductAppend(products: map<Id, Product>, a: seq<Picked>, b: seq<Picked>)
    ensures Deduct(products, a + b) == Deduct(Deduct(products, a), b)
    decreases |b|
  {
    if b == [] {
      assert a + b == a;
    } else {
      assert (a + b)[..|a + b| - 1] == a + b[..|b| - 1];
      DeductAppend(products, a, b[..|b| - 1]);
    }
  }

  /** Each product's stock after a successful checkout: lowered by what the cart asked of it. */
  function StockAfter(products: map<Id, Product>, lines: seq<CartLine>): map<Id, Product> {
    map pid | pid in products :: products[pid].(stockQuantity := products[pid].stockQuantity - Requested(lines, pid))
  }

  lemma CheckoutStockEffect(products: map<Id, Product>, lines: seq<CartLine>)
    requires AllKnown(products, lines)
    ensures var picks := Picks(products, lines);
      Deduct(products, FlattenGroups(picks, ShopsInOrder(picks))) == StockAfter(products, lines)
  {
    var picks := Picks(products, lines);
    var flat := FlattenGroups(picks, ShopsInOrder(picks));
    GroupingPartitions(picks);
    forall pid | pid in products
      ensures Deduct(products, flat)[pid] == StockAfter(products, lines)[pid]
    {
      DeductEffect(products, flat, pid);
      SumOverPermutation(flat, picks, QuantityOf(pid));
      RequestedOfPicks(products, lines, pid);
    }
  }

  /** Products the cart does not name keep their stock. */
  lemma UntouchedProductsKeepStock(products: map<Id, Product>, lines: seq<CartLine>, pid: Id)
    requires pid in products
    requires forall i :: 0 <= i < |lines| ==> lines[i].productId != pid
    ensures StockAfter(products, lines)[pid] == products[pid]
  {
    RequestedOfAbsent(lines, pid);
  }

  lemma {:induction false} RequestedOfAbsent(lines: seq<CartLine>, pid: Id)
    requires forall i :: 0 <= i < |lines| ==> lines[i].productId != pid
    ensures Requested(lines, pid) == 0
  {
    if lines != [] {
      RequestedOfAbsent(lines[..|lines| - 1], pid);
    }
  }

  predicate DistinctProducts(lines: seq<CartLine>) {
    forall i, j :: 0 <= i < j < |lines| ==> lines[i].productId != lines[j].productId
  }

  lemma {:induction false} RequestedOfDistinct(lines: seq<CartLine>, i: nat)
    requires i < |lines| && DistinctProducts(lines)
    ensures Requested(lines, lines[i].productId) == lines[i].quantity
  {
    var init := lines[..|lines| - 1];
    if i == |lines| - 1 {
      RequestedOfAbsent(init, lines[i].productId);
    } else {
      assert init[i] == lines[i];
      RequestedOfDistinct(init, i);
    }
  }

  /** With each product on at most one line, a validated checkout never drives stock below zero. */
  lemma DistinctCartKeepsStock(products: map<Id, Product>, lines: seq<CartLine>)
    requires DistinctProducts(lines) && AllLinesOk(products, lines)
    requires forall pid :: pid in products ==> products[pid].stockQuantity >= 0
    ensures forall pid :: pid in products ==> StockAfter(products, lines)[pid].stockQuantity >= 0
  {
    forall pid | pid in products ensures StockAfter(products, lines)[pid].stockQuantity >= 0 {
      if i :| 0 <= i < |lines| && lines[i].productId == pid {
        RequestedOfDistinct(lines, i);
      } else {
        RequestedOfAbsent(lines, pid);
      }
    }
  }

  // ---------------------------------------------------------------------------
  // The handler
  // ---------------------------------------------------------------------------

  /** `shopIdMap` with its key order: `shopIds` lists the keys as `entries()` yields them. */
  datatype Grouping = Grouping(shopIds: seq<Id>, groups: map<Id, seq<Picked>>)

  /** A grouping of the validated cart that matches the specification functions. */
  ghost predicate GroupingOf(g: Grouping, picks: seq<Picked>) {
    && g.shopIds == ShopsInOrder(picks)
    && (forall s :: s in g.groups <==> s in g.shopIds)
    && (forall s :: s in g.groups ==> g.groups[s] == LinesOfShop(picks, s))
  }

  /** One pass of the grouping loop keeps `shopIdMap` in step with the specification. */
  lemma GroupingStep(g: Grouping, picks: seq<Picked>, pick: Picked)
    requires GroupingOf(g, picks)
    ensures var s := ShopOf(pick);
      var m := if s in g.groups then g.groups else g.groups[s := []];
      var ids := if s in g.groups then g.shopIds else g.shopIds + [s];
      GroupingOf(Grouping(ids, m[s := m[s] + [pick]]), picks + [pick])
  {
    var s := ShopOf(pick);
    var next := picks + [pick];
    assert next[..|next| - 1] == picks;
    var m := if s in g.groups then g.groups else g.groups[s := []];
    var ids := if s in g.groups then g.shopIds else g.shopIds + [s];
    var m' := m[s := m[s] + [pick]];
    assert ShopsInOrder(next) == ids;
    if s !in g.groups {
      NoLinesForAbsentShop(picks, s);
    }
    forall t | t in m'
      ensures m'[t] == LinesOfShop(next, t)
    {
      assert LinesOfShop(next, t) == LinesOfShop(picks, t) + (if s == t then [pick] else []);
    }
  }

  /** One more line that passes the check extends the validated prefix and its picks. */
  lemma ValidatedStep(products: map<Id, Product>, lines: seq<CartLine>, i: nat, picks: seq<Picked>)
    requires i < |lines| && LineOk(products, lines[i])
    requires AllLinesOk(products, lines[..i]) && picks == Picks(products, lines[..i])
    ensures AllLinesOk(products, lines[..i + 1])
    ensures picks + [Picked(lines[i].productId, products[lines[i].productId], lines[i].quantity)]
         == Picks(products, lines[..i + 1])
  {
    var next := lines[..i + 1];
    assert next[..i] == lines[..i];
    forall j | 0 <= j < i + 1 ensures LineOk(products, next[j]) {
      if j < i { assert next[j] == lines[..i][j]; }
    }
  }

  /**
   * Step 1 of the handler: check every line against the product's current
   * stock, stopping at the first failure, and group the lines by shop.
   */
  method ValidateAndGroup(products: map<Id, Product>, lines: seq<CartLine>)
    returns (r: Result<Grouping, CheckoutError>)
    ensures FirstRejection(products, lines).Some? ==> r == Err(FirstRejection(products, lines).value)
    ensures FirstRejection(products, lines).None? ==> r.Ok? && GroupingOf(r.value, Picks(products, lines))
  {
    var shopIds: seq<Id> := [];
    var shopIdMap: map<Id, seq<Picked>> := map[];
    ghost var picks: seq<Picked> := [];
    var i := 0;
    while i < |lines|
      invariant 0 <= i <= |lines|
      invariant AllLinesOk(products, lines[..i])
      invariant picks == Picks(products, lines[..i])
      invariant GroupingOf(Grouping(shopIds, shopIdMap), picks)
    {
      var item := lines[i];
      if item.productId !in products || products[item.productId].stockQuantity < item.quantity {
        FirstRejectionAt(products, lines, i);
        return Err(Rejection(products, item));
      }
      var product := products[item.productId];
      var shopId := product.shopId;
      ghost var old_shopIds, old_map := shopIds, shopIdMap;
      if shopId !in shopIdMap {
        shopIdMap := shopIdMap[shopId := []];
        shopIds := shopIds + [shopId];
      }
      var pick := Picked(item.productId, product, item.quantity);
      GroupingStep(Grouping(old_shopIds, old_map), picks, pick);
      shopIdMap := shopIdMap[shopId := shopIdMap[shopId] + [pick]];
      ValidatedStep(products, lines, i, picks);
      picks := picks + [pick];
      i := i + 1;
    }
    assert lines[..i] == lines;
    return Ok(Grouping(shopIds, shopIdMap));
  }

  /** The shop groups `g` holds are those of `picks`. */
  ghost predicate GroupsOf(g: Grouping, picks: seq<Picked>) {
    forall i :: 0 <= i < |g.shopIds| ==> g.shopIds[i] in g.groups && g.groups[g.shopIds[i]] == LinesOfShop(picks, g.shopIds[i])
  }

  /**
   * The orders, stock and next id once the orders of the first `k` shops were
   * saved and their lines left stock, starting from `orders0`, `stock0` and the
   * fresh id `firstId`.
   */
  ghost predicate SavedPrefix(orders: seq<Order>, products: map<Id, Product>, nextId: nat,
                              orders0: seq<Order>, stock0: map<Id, Product>, firstId: Id,
                              customerId: Id, now: int, picks: seq<Picked>, shops: seq<Id>, k: nat)
    requires k <= |shops|
  {
    && nextId == firstId + k
    && orders == orders0 + PlannedOrders(customerId, now, firstId, picks, shops[..k])
    && products == Deduct(stock0, FlattenGroups(picks, shops[..k]))
  }

  /**
   * Step 2 of the handler: for each shop in turn, save its order and then
   * decrement the stock of each of its lines.
   */
  method SaveOrders(db: Database, customerId: Id, now: int, g: Grouping, ghost picks: seq<Picked>)
    returns (ordersCreated: seq<Id>)
    requires db.Valid() && GroupsOf(g, picks)
    modifies db`orders, db`nextId, db`products
    ensures db.Valid()
    ensures db.customers == old(db.customers) && db.owners == old(db.owners)
    ensures ordersCreated == FreshIds(old(db.nextId), |g.shopIds|)
    ensures db.orders == old(db.orders) + PlannedOrders(customerId, now, old(db.nextId), picks, g.shopIds)
    ensures db.products == Deduct(old(db.products), FlattenGroups(picks, g.shopIds))
    ensures db.nextId == old(db.nextId) + |g.shopIds|
  {
    ghost var firstId, stock0, orders0 := db.nextId, db.products, db.orders;
    ordersCreated := [];
    var k := 0;
    while k < |g.shopIds|
      invariant 0 <= k <= |g.shopIds|
      invariant SavedPrefix(db.orders, db.products, db.nextId, orders0, stock0, firstId, customerId, now, picks, g.shopIds, k)
      invariant ordersCreated == FreshIds(firstId, k)
      invariant db.customers == old(db.customers) && db.owners == old(db.owners)
      invariant db.Valid()
    {
      NextSaved(db.orders, db.products, db.nextId, orders0, stock0, firstId, customerId, now, picks, g.shopIds, k);
      var id := SaveShopOrder(db, customerId, now, g, k, picks);
      FreshIdsStep(firstId, k, ordersCreated, id);
      ordersCreated := ordersCreated + [id];
      k := k + 1;
    }
    assert g.shopIds[..k] == g.shopIds;
  }

  /** One pass of step 2: shop `k`'s order is created under the next id, then its lines leave stock. */
  method SaveShopOrder(db: Database, customerId: Id, now: int, g: Grouping, k: nat, ghost picks: seq<Picked>)
    returns (id: Id)
    requires db.Valid() && GroupsOf(g, picks) && k < |g.shopIds|
    modifies db`orders, db`nextId, db`products
    ensures db.Valid()
    ensures id == old(db.nextId) && db.nextId == old(db.nextId) + 1
    ensures db.orders == old(db.orders) + [ShopOrder(customerId, now, id, picks, g.shopIds[k])]
    ensures db.products == Deduct(old(db.products), LinesOfShop(picks, g.shopIds[k]))
  {
    var shopId := g.shopIds[k];
    var items := g.groups[shopId];
    var orderItemsForShop := Snapshots(items);
    var orderTotalForShop := ItemsTotal(orderItemsForShop);
    var newOrder := Order(db.nextId, customerId, shopId, now, Processing, orderItemsForShop, orderTotalForShop);
    id := db.InsertOrder(newOrder);
    UpdateStock(db, items);
  }

  /** Saving shop `k`'s order under the next id and deducting its lines extends the saved prefix by that shop. */
  lemma NextSaved(orders: seq<Order>, products: map<Id, Product>, nextId: nat,
                  orders0: seq<Order>, stock0: map<Id, Product>, firstId: Id,
                  customerId: Id, now: int, picks: seq<Picked>, shops: seq<Id>, k: nat)
    requires k < |shops|
    requires SavedPrefix(orders, products, nextId, orders0, stock0, firstId, customerId, now, picks, shops, k)
    ensures SavedPrefix(orders + [ShopOrder(customerId, now, nextId, picks, shops[k])],
                        Deduct(products, LinesOfShop(picks, shops[k])), nextId + 1,
                        orders0, stock0, firstId, customerId, now, picks, shops, k + 1)
  {
    SaveStep(customerId, now, firstId, picks, shops, k);
    DeductAppend(stock0, FlattenGroups(picks, shops[..k]), LinesOfShop(picks, shops[k]));
  }

  lemma FreshIdsStep(firstId: Id, k: nat, ids: seq<Id>, id: Id)
    requires ids == FreshIds(firstId, k) && id == firstId + k
    ensures ids + [id] == FreshIds(firstId, k + 1)
  {
  }

  /** One more shop saved extends the planned orders and the deducted lines by that shop's. */
  lemma SaveStep(customerId: Id, now: int, firstId: Id, picks: seq<Picked>, shops: seq<Id>, k: nat)
    requires k < |shops|
    ensures PlannedOrders(customerId, now, firstId, picks, shops[..k + 1]) ==
      PlannedOrders(customerId, now, firstId, picks, shops[..k]) + [ShopOrder(customerId, now, firstId + k, picks, shops[k])]
    ensures FlattenGroups(picks, shops[..k + 1]) == FlattenGroups(picks, shops[..k]) + LinesOfShop(picks, shops[k])
  {
    assert shops[..k + 1][..k] == shops[..k];
  }

  /** One more `$inc` extends the deduction by the next line. */
  lemma DeductStep(products: map<Id, Product>, items: seq<Picked>, j: nat)
    requires j < |items|
    ensures Deduct(products, items[..j + 1]) == DeductOne(Deduct(products, items[..j]), items[j])
  {
    assert items[..j + 1][..j] == items[..j];
  }

  /** The inner loop of step 2: one `$inc` per line of the shop's order. */
  method UpdateStock(db: Database, items: seq<Picked>)
    requires db.Valid()
    modifies db`products
    ensures db.Valid()
    ensures db.products == Deduct(old(db.products), items)
  {
    var j := 0;
    while j < |items|
      invariant 0 <= j <= |items|
      invariant db.products == Deduct(old(db.products), items[..j])
      invariant ListingsBelow(db.products, db.nextId)
    {
      DeductStep(old(db.products), items, j);
      DeductOneKeepsListings(db.products, db.nextId, items[j]);
      db.products := DeductOne(db.products, items[j]);
      j := j + 1;
    }
    assert items[..j] == items;
  }

  /**
   * POST /checkout as written: the customers-only gate, the empty-cart check,
   * validation and grouping, then the orders and the stock updates.
   */
  method Checkout(db: Database, user: TokenPayload, body: RequestBody, now: int)
    returns (r: Result<seq<Id>, CheckoutError>)
    requires db.Valid()
    modifies db`orders, db`nextId, db`products
    ensures db.Valid()
    ensures db.customers == old(db.customers) && db.owners == old(db.owners)
    ensures r.Err? ==> db.products == old(db.products) && db.orders == old(db.orders) && db.nextId == old(db.nextId)
    ensures user.userType != CustomerUser ==> r == Err(Forbidden)
    ensures user.userType == CustomerUser && (CartItemsOf(body).None? || CartItemsOf(body).value == []) ==>
      r == Err(EmptyCart)
    ensures user.userType == CustomerUser && CartItemsOf(body).Some? && CartItemsOf(body).value != [] ==>
      var lines := CartItemsOf(body).value;
      match FirstRejection(old(db.products), lines)
      case Some(e) => r == Err(e)
      case None =>
        var picks := Picks(old(db.products), lines);
        var shops := ShopsInOrder(picks);
        && r == Ok(FreshIds(old(db.nextId), |shops|))
        && db.orders == old(db.orders) + PlannedOrders(user.id, now, old(db.nextId), picks, shops)
        && db.products == StockAfter(old(db.products), lines)
        && db.nextId == old(db.nextId) + |shops|
  {
    if user.userType != CustomerUser {
      return Err(Forbidden);
    }
    var customerId := user.id;
    var cartItems := CartItemsOf(body);
    if cartItems.None? || |cartItems.value| == 0 {
      return Err(EmptyCart);
    }
    var lines := cartItems.value;
    var grouped := ValidateAndGroup(db.products, lines);
    if grouped.Err? {
      return Err(grouped.error);
    }
    ghost var picks := Picks(db.products, lines);
    CheckoutStockEffect(db.products, lines);
    var ordersCreated := SaveOrders(db, customerId, now, grouped.value, picks);
    return Ok(ordersCreated);
  }
}
