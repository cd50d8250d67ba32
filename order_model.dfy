// The Order schema: status enum, order-line snapshots and the order total.

module OrderModel {
  import opened Common

  datatype Status = Pending | Processing | Shipped | Delivered | Cancelled

  /** The schema default for `status`. */
  const DefaultStatus: Status := Pending

  function StatusName(s: Status): string {
    match s
    case Pending => "Pending"
    case Processing => "Processing"
    case Shipped => "Shipped"
    case Delivered => "Delivered"
    case Cancelled => "Cancelled"
  }

  const StatusNames: seq<string> := ["Pending", "Processing", "Shipped", "Delivered", "Cancelled"]

  /** The enum check: a string is a status exactly when it is one of the five names. */
  function ParseStatus(s: string): (r: Option<Status>)
    ensures r.Some? <==> s in StatusNames
    ensures r.Some? ==> StatusName(r.value) == s
  {
    if s == "Pending" then Some(Pending)
    else if s == "Processing" then Some(Processing)
    else if s == "Shipped" then Some(Shipped)
    else if s == "Delivered" then Some(Delivered)
    else if s == "Cancelled" then Some(Cancelled)
    else None
  }

  lemma ParseStatusName(s: Status)
    ensures ParseStatus(StatusName(s)) == Some(s)
  {
  }

  /** A purchase-time snapshot of one product; it has no id of its own. */
  datatype OrderItem = OrderItem(
    productId: Id,
    name: string,
    quantity: int,
    sellingPrice: int,
    costPrice: int)

  datatype Order = Order(
    id: Id,
    customerId: Id,
    shopId: Id,
    orderDate: int,
    status: Status,
    items: seq<OrderItem>,
    totalAmount: int)

  function LineAmount(item: OrderItem): int {
    item.sellingPrice * item.quantity
  }

  /** The left fold `items.reduce((sum, item) => sum + item.sellingPrice * item.quantity, 0)`. */
  function ItemsTotal(items: seq<OrderItem>): int {
    if items == [] then 0 else ItemsTotal(items[..|items| - 1]) + LineAmount(items[|items| - 1])
  }

  lemma {:induction false} ItemsTotalAppend(a: seq<OrderItem>, b: seq<OrderItem>)
    ensures ItemsTotal(a + b) == ItemsTotal(a) + ItemsTotal(b)
    decreases |b|
  {
    if b != [] {
      assert (a + b)[..|a + b| - 1] == a + b[..|b| - 1];
      ItemsTotalAppend(a, b[..|b| - 1]);
    } else {
      assert a + b == a;
    }
  }

  /** The order invariant: the stored total is the sum of its own lines. */
  predicate TotalConsistent(o: Order) {
    o.totalAmount == ItemsTotal(o.items)
  }
}
