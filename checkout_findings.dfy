// Two gaps in the checkout's stock check, shown on concrete carts, and the
// check the handler evidently meant, with the stock guarantee it gives.

module CheckoutFindings {
  import opened Common
  import opened ProductModel
  import opened CustomerRoutes

  const Lamp: Product := Product(7, "Lamp", "Desk lamp", "Home", 1500, 900, 5, EmptyDetails)

  /**
   * Each line is compared with the stock as it was before the checkout, so two
   * lines for the same product pass one by one although together they ask for
   * more than there is: stock 5, two lines of 3, and the stock ends at -1.
   */
  lemma DuplicateLinesOversell()
    ensures var products := map[1 := Lamp];
      var lines := [CartLine(1, 3), CartLine(1, 3)];
      && FirstRejection(products, lines).None?
      && StockAfter(products, lines)[1].stockQuantity == -1
  {
    var products := map[1 := Lamp];
    var lines := [CartLine(1, 3), CartLine(1, 3)];
    assert lines[..1] == lines[1..] == [CartLine(1, 3)];
    assert lines[..1][..0] == [];
    assert Requested(lines, 1) == 6;
    assert AllLinesOk(products, lines);
  }

  /**
   * A negative quantity passes `stockQuantity < quantity` on any stock, and
   * the `$inc` by its negation then adds stock: stock 0, quantity -4, and the
   * stock ends at 4.
   */
  lemma NonPositiveQuantityRestocks()
    ensures var products := map[1 := Lamp.(stockQuantity := 0)];
      var lines := [CartLine(1, -4)];
      && FirstRejection(products, lines).None?
      && StockAfter(products, lines)[1].stockQuantity == 4
  {
  }

  /** The check meant: every product exists, every quantity is positive, and the cart's total for a product fits its stock. */
  predicate CorrectedAdmits(products: map<Id, Product>, lines: seq<CartLine>) {
    forall i :: 0 <= i < |lines| ==> LineAdmitted(products, lines, i)
  }

  /** The first line the corrected check turns away, if any. */
  function CorrectedFirstRejection(products: map<Id, Product>, lines: seq<CartLine>): (r: Option<nat>)
    ensures r.None? <==> CorrectedAdmits(products, lines)
    ensures r.Some? ==> r.value < |lines| && !LineAdmitted(products, lines, r.value)
    ensures r.Some? ==> forall j :: 0 <= j < r.value ==> LineAdmitted(products, lines, j)
  {
    CorrectedFrom(products, lines, 0)
  }

  function CorrectedFrom(products: map<Id, Product>, lines: seq<CartLine>, i: nat): (r: Option<nat>)
    requires i <= |lines|
    requires forall j :: 0 <= j < i ==> LineAdmitted(products, lines, j)
    ensures r.None? <==> CorrectedAdmits(products, lines)
    ensures r.Some? ==> i <= r.value < |lines| && !LineAdmitted(products, lines, r.value)
    ensures r.Some? ==> forall j :: 0 <= j < r.value ==> LineAdmitted(products, lines, j)
    decreases |lines| - i
  {
    if i == |lines| then None
    else if !LineAdmitted(products, lines, i) then Some(i)
    else CorrectedFrom(products, lines, i + 1)
  }

  predicate LineAdmitted(products: map<Id, Product>, lines: seq<CartLine>, i: nat)
    requires i < |lines|
  {
    && lines[i].productId in products
    && lines[i].quantity > 0
    && Requested(lines, lines[i].productId) <= products[lines[i].productId].stockQuantity
  }

  lemma {:induction false} RequestedNonNegative(lines: seq<CartLine>, pid: Id)
    requires forall i :: 0 <= i < |lines| ==> lines[i].quantity > 0
    ensures Requested(lines, pid) >= 0
  {
    if lines != [] {
      RequestedNonNegative(lines[..|lines| - 1], pid);
    }
  }

  /**
   * Under the corrected check a checkout never drives stock below zero and
   * never raises it.
   */
  lemma CorrectedCheckKeepsStock(products: map<Id, Product>, lines: seq<CartLine>)
    requires forall pid :: pid in products ==> products[pid].stockQuantity >= 0
    requires CorrectedAdmits(products, lines)
    ensures forall pid :: pid in products ==>
      0 <= StockAfter(products, lines)[pid].stockQuantity <= products[pid].stockQuantity
  {
    forall i | 0 <= i < |lines| ensures lines[i].quantity > 0 {
      assert LineAdmitted(products, lines, i);
    }
    forall pid | pid in products
      ensures 0 <= StockAfter(products, lines)[pid].stockQuantity <= products[pid].stockQuantity
    {
      RequestedNonNegative(lines, pid);
      assert StockAfter(products, lines)[pid].stockQuantity == products[pid].stockQuantity - Requested(lines, pid);
      if i :| 0 <= i < |lines| && lines[i].productId == pid {
        assert LineAdmitted(products, lines, i);
      } else {
        RequestedOfAbsent(lines, pid);
      }
    }
  }

  /** On carts with one positive line per product, the corrected check and the shipped one agree. */
  lemma CorrectedAgreesOnSimpleCarts(products: map<Id, Product>, lines: seq<CartLine>)
    requires DistinctProducts(lines)
    requires forall i :: 0 <= i < |lines| ==> lines[i].quantity > 0
    ensures CorrectedAdmits(products, lines) <==> FirstRejection(products, lines).None?
  {
    forall i | 0 <= i < |lines|
      ensures LineAdmitted(products, lines, i) <==> LineOk(products, lines[i])
    {
      RequestedOfDistinct(lines, i);
    }
  }
}
