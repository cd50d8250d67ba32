// The MongoDB database the routes read and write, as one mutable object.

module Store {
  import opened Common
  import opened ProductModel
  import opened OrderModel
  import opened CustomerModel
  import opened ShopOwnerModel

  /**
   * Order ids in storage order are strictly ascending and below `bound`:
   * each order got the next fresh id when it was created.
   */
  ghost predicate IdsAscendingBelow(orders: seq<Order>, bound: nat) {
    orders == [] ||
      (orders[|orders| - 1].id < bound && IdsAscendingBelow(orders[..|orders| - 1], orders[|orders| - 1].id))
  }

  /** Ascending ids are distinct, so an id names at most one order. */
  lemma {:induction false} AscendingIdsDistinct(orders: seq<Order>, bound: nat)
    requires IdsAscendingBelow(orders, bound)
    ensures forall i :: 0 <= i < |orders| ==> orders[i].id < bound
    ensures forall i, j :: 0 <= i < j < |orders| ==> orders[i].id < orders[j].id
  {
    if orders != [] {
      var init := orders[..|orders| - 1];
      AscendingIdsDistinct(init, orders[|orders| - 1].id);
      assert forall i :: 0 <= i < |init| ==> init[i] == orders[i];
    }
  }

  /** Replacing orders by orders with the same ids keeps the ids ascending. */
  lemma {:induction false} AscendingIdsSameIds(a: seq<Order>, b: seq<Order>, bound: nat)
    requires IdsAscendingBelow(a, bound)
    requires |a| == |b| && forall i :: 0 <= i < |a| ==> a[i].id == b[i].id
    ensures IdsAscendingBelow(b, bound)
  {
    if a != [] {
      var n := |a| - 1;
      assert forall i :: 0 <= i < n ==> a[..n][i].id == b[..n][i].id;
      AscendingIdsSameIds(a[..n], b[..n], a[n].id);
    }
  }

  /** Ids that rise from each entry to the next rise between any two entries, so they are distinct. */
  lemma {:induction false} AscendingFromNeighbours(ids: seq<nat>)
    requires forall k :: 0 < k < |ids| ==> ids[k - 1] < ids[k]
    ensures forall i, j :: 0 <= i < j < |ids| ==> ids[i] < ids[j]
  {
    if |ids| > 1 {
      var n := |ids|;
      var init := ids[..n - 1];
      AscendingFromNeighbours(init);
      forall i, j | 0 <= i < j < n
        ensures ids[i] < ids[j]
      {
        if j < n - 1 {
          assert init[i] < init[j];
        } else if i < n - 2 {
          assert init[i] < init[n - 2];
        }
      }
    }
  }

  /** Every stored product has an id older than `bound` and passes the validators on all fields but stock. */
  ghost predicate ListingsBelow(products: map<Id, Product>, bound: nat) {
    forall pid :: pid in products ==> pid < bound && ValidListing(products[pid])
  }

  /** Changing one stored product's stock keeps the table's listings valid. */
  lemma StockChangeKeepsListings(products: map<Id, Product>, bound: nat, pid: Id, q: int)
    requires ListingsBelow(products, bound) && pid in products
    ensures ListingsBelow(products[pid := products[pid].(stockQuantity := q)], bound)
  {
  }

  class Database {
    var products: map<Id, Product>
    var orders: seq<Order>
    var customers: seq<Customer>
    var owners: seq<ShopOwner>
    /** The next fresh ObjectId. */
    var nextId: nat

    /**
     * Every stored id is older than `nextId`; order, customer and owner ids
     * ascend, so they are distinct; every stored document passes its schema's
     * validators (for products, all but the stock minimum); the unique indexes hold.
     */
    ghost predicate Valid()
      reads this
    {
      && ListingsBelow(products, nextId)
      && IdsAscendingBelow(orders, nextId)
      && (forall i :: 0 <= i < |customers| ==> customers[i].id < nextId && ValidCustomer(customers[i]))
      && (forall i :: 0 < i < |customers| ==> customers[i - 1].id < customers[i].id)
      && UniquePhones(customers)
      && (forall i :: 0 <= i < |owners| ==> owners[i].id < nextId && ValidShopOwner(owners[i]))
      && (forall i :: 0 < i < |owners| ==> owners[i - 1].id < owners[i].id)
      && UniqueOwnerKeys(owners)
    }

    /** Customer ids are distinct, and so are owner ids: each was a fresh `nextId` when it was saved. */
    lemma DistinctIds()
      requires Valid()
      ensures forall i, j :: 0 <= i < j < |customers| ==> customers[i].id != customers[j].id
      ensures forall i, j :: 0 <= i < j < |owners| ==> owners[i].id != owners[j].id
    {
      var cs, os := customers, owners;
      var cids := seq(|cs|, k requires 0 <= k < |cs| => cs[k].id);
      var oids := seq(|os|, k requires 0 <= k < |os| => os[k].id);
      assert forall k :: 0 <= k < |cs| ==> cids[k] == cs[k].id;
      assert forall k :: 0 <= k < |os| ==> oids[k] == os[k].id;
      AscendingFromNeighbours(cids);
      AscendingFromNeighbours(oids);
    }

    constructor ()
      ensures Valid()
      ensures products == map[] && orders == [] && customers == [] && owners == [] && nextId == 0
    {
      products := map[];
      orders := [];
      customers := [];
      owners := [];
      nextId := 0;
    }

    /** `Order.create`: stores `o` under the next fresh id. */
    method InsertOrder(o: Order) returns (id: Id)
      requires Valid() && o.id == nextId
      modifies this`orders, this`nextId
      ensures Valid()
      ensures id == old(nextId) && nextId == old(nextId) + 1
      ensures orders == old(orders) + [o]
      ensures products == old(products) && customers == old(customers) && owners == old(owners)
    {
      id := nextId;
      assert (orders + [o])[..|orders|] == orders;
      orders := orders + [o];
      nextId := nextId + 1;
    }

    /** `product.save()` for a new product: stored under the next fresh id. */
    method InsertProduct(p: Product) returns (id: Id)
      requires Valid() && ValidListing(p)
      modifies this`products, this`nextId
      ensures Valid()
      ensures id == old(nextId) && id !in old(products) && nextId == old(nextId) + 1
      ensures products == old(products)[id := p]
      ensures orders == old(orders) && customers == old(customers) && owners == old(owners)
    {
      id := nextId;
      products := products[id := p];
      nextId := nextId + 1;
    }

    /** `customer.save()` for a new customer: validators and the unique phone index hold. */
    method InsertCustomer(c: Customer)
      requires Valid() && c.id == nextId && ValidCustomer(c)
      requires forall i :: 0 <= i < |customers| ==> customers[i].phone != c.phone
      modifies this`customers, this`nextId
      ensures Valid()
      ensures customers == old(customers) + [c] && nextId == old(nextId) + 1
      ensures products == old(products) && orders == old(orders) && owners == old(owners)
    {
      customers := customers + [c];
      nextId := nextId + 1;
    }

    /** `owner.save()` for a new shop owner: validators and both unique indexes hold. */
    method InsertOwner(o: ShopOwner)
      requires Valid() && o.id == nextId && ValidShopOwner(o)
      requires forall i :: 0 <= i < |owners| ==> owners[i].shopName != o.shopName && owners[i].registrationId != o.registrationId
      modifies this`owners, this`nextId
      ensures Valid()
      ensures owners == old(owners) + [o] && nextId == old(nextId) + 1
      ensures products == old(products) && orders == old(orders) && customers == old(customers)
    {
      owners := owners + [o];
      nextId := nextId + 1;
    }

    /** Replaces the stored order at position `i` by one with the same id. */
    method ReplaceOrder(i: nat, o: Order)
      requires Valid() && i < |orders| && o.id == orders[i].id
      modifies this`orders
      ensures Valid()
      ensures orders == old(orders)[i := o]
    {
      AscendingIdsSameIds(orders, orders[i := o], nextId);
      orders := orders[i := o];
    }
  }
}
