// The storefront's cart in the browser script: a list of product copies with a
// quantity, at most one per product id, kept in memory, mirrored into
// `localStorage` and counted on the header badge; the checkout request built
// from it; and the login state the script persists.

module ClientCart {
  import opened Common
  import CustomerRoutes

  /** A product as the storefront lists it: `_id`, name, owning shop, unit price in cents. */
  datatype ProductCard = ProductCard(id: Id, name: string, shopId: Id, price: int)

  /** `{ ...product, quantity }`: the product's fields copied into the cart with a quantity. */
  datatype CartItem = CartItem(id: Id, name: string, shopId: Id, price: int, quantity: int)

  predicate UniqueIds(cart: seq<CartItem>) {
    forall i, j :: 0 <= i < j < |cart| ==> cart[i].id != cart[j].id
  }

  /** `cart.find(item => item._id === id)`, as the index of the first match. */
  function FindItem(cart: seq<CartItem>, id: Id): (r: Option<nat>)
    ensures r.Some? ==> r.value < |cart| && cart[r.value].id == id
    ensures r.Some? ==> forall j :: 0 <= j < r.value ==> cart[j].id != id
    ensures r.None? ==> forall j :: 0 <= j < |cart| ==> cart[j].id != id
  {
    if cart == [] then None
    else if cart[0].id == id then Some(0)
    else
      var rest := FindItem(cart[1..], id);
      if rest.Some? then Some(rest.value + 1) else None
  }

  lemma FindUnique(cart: seq<CartItem>, i: nat)
    requires UniqueIds(cart) && i < |cart|
    ensures FindItem(cart, cart[i].id) == Some(i)
  {
    var r := FindItem(cart, cart[i].id);
    assert r.Some?;
  }

  // ---------------------------------------------------------------------------
  // Sums over the cart
  // ---------------------------------------------------------------------------

  function Sum(cart: seq<CartItem>, w: CartItem -> int): int {
    if cart == [] then 0 else Sum(cart[..|cart| - 1], w) + w(cart[|cart| - 1])
  }

  function Quantity(item: CartItem): int {
    item.quantity
  }

  function LineTotal(item: CartItem): int {
    item.price * item.quantity
  }

  /** The badge: `cart.reduce((sum, item) => sum + item.quantity, 0)`. */
  function CartCount(cart: seq<CartItem>): int {
    Sum(cart, Quantity)
  }

  /** The modal's total: the sum of `price * quantity` over the items. */
  function CartTotal(cart: seq<CartItem>): int {
    Sum(cart, LineTotal)
  }

  lemma {:induction false} SumUpdate(cart: seq<CartItem>, i: nat, x: CartItem, w: CartItem -> int)
    requires i < |cart|
    ensures Sum(cart[i := x], w) == Sum(cart, w) - w(cart[i]) + w(x)
  {
    var n := |cart|;
    if i == n - 1 {
      assert cart[i := x][..n - 1] == cart[..n - 1];
    } else {
      assert cart[i := x][..n - 1] == cart[..n - 1][i := x];
      SumUpdate(cart[..n - 1], i, x, w);
    }
  }

  lemma {:induction false} SumAppend(a: seq<CartItem>, b: seq<CartItem>, w: CartItem -> int)
    ensures Sum(a + b, w) == Sum(a, w) + Sum(b, w)
  {
    if b != [] {
      assert (a + b)[..|a + b| - 1] == a + b[..|b| - 1];
      SumAppend(a, b[..|b| - 1], w);
    } else {
      assert a + b == a;
    }
  }

  /** The accumulation in the cart modal: `cartTotal += item.price * item.quantity` per rendered item. */
  method ModalTotal(cart: seq<CartItem>) returns (total: int)
    ensures total == CartTotal(cart)
  {
    total := 0;
    var i := 0;
    while i < |cart|
      invariant 0 <= i <= |cart|
      invariant total == Sum(cart[..i], LineTotal)
    {
      assert cart[..i + 1][..i] == cart[..i];
      total := total + cart[i].price * cart[i].quantity;
      i := i + 1;
    }
    assert cart[..i] == cart;
  }

  // ---------------------------------------------------------------------------
  // The cart operations as functions of the old cart
  // ---------------------------------------------------------------------------

  /** `addToCart`: one more of an item already there, otherwise a new item with quantity 1 at the end. */
  function AddedTo(cart: seq<CartItem>, p: ProductCard): seq<CartItem> {
    match FindItem(cart, p.id)
    case Some(i) => cart[i := cart[i].(quantity := cart[i].quantity + 1)]
    case None => cart + [CartItem(p.id, p.name, p.shopId, p.price, 1)]
  }

  /** `cart.filter(item => item._id !== id)`. */
  function WithoutId(cart: seq<CartItem>, id: Id): (r: seq<CartItem>)
    ensures |r| <= |cart|
  {
    if cart == [] then []
    else
      var last := cart[|cart| - 1];
      WithoutId(cart[..|cart| - 1], id) + (if last.id != id then [last] else [])
  }

  /** `updateCartItemQuantity`: add `change`; an item left at zero or below is filtered out; an unknown id changes nothing. */
  function QuantityChanged(cart: seq<CartItem>, id: Id, change: int): seq<CartItem> {
    match FindItem(cart, id)
    case None => cart
    case Some(i) =>
      var q := cart[i].quantity + change;
      if q <= 0 then WithoutId(cart, id) else cart[i := cart[i].(quantity := q)]
  }

  /** `cart.map(item => ({ productId: item._id, quantity: item.quantity }))`. */
  function CheckoutLines(cart: seq<CartItem>): (r: seq<CartLine>)
    ensures |r| == |cart|
  {
    seq(|cart|, i requires 0 <= i < |cart| => CartLine(cart[i].id, cart[i].quantity))
  }

  // ---------------------------------------------------------------------------
  // What the operations do to the ids, the count and the total
  // ---------------------------------------------------------------------------

  /** Adding keeps one item per id, puts the product in the cart, and raises the count by one and the total by the item's price. */
  lemma AddToCartEffects(cart: seq<CartItem>, p: ProductCard)
    requires UniqueIds(cart)
    ensures UniqueIds(AddedTo(cart, p))
    ensures FindItem(AddedTo(cart, p), p.id).Some?
    ensures CartCount(AddedTo(cart, p)) == CartCount(cart) + 1
    ensures CartTotal(AddedTo(cart, p)) == CartTotal(cart) +
      (match FindItem(cart, p.id) case Some(i) => cart[i].price case None => p.price)
    ensures |AddedTo(cart, p)| == |cart| + (if FindItem(cart, p.id).Some? then 0 else 1)
  {
    match FindItem(cart, p.id)
    case Some(i) => AddExisting(cart, i);
    case None => AddNew(cart, p);
  }

  lemma AddExisting(cart: seq<CartItem>, i: nat)
    requires UniqueIds(cart) && i < |cart|
    ensures var next := cart[i := cart[i].(quantity := cart[i].quantity + 1)];
      && UniqueIds(next) && next[i].id == cart[i].id
      && CartCount(next) == CartCount(cart) + 1
      && CartTotal(next) == CartTotal(cart) + cart[i].price
  {
    var x := cart[i].(quantity := cart[i].quantity + 1);
    SumUpdate(cart, i, x, Quantity);
    SumUpdate(cart, i, x, LineTotal);
  }

  lemma AddNew(cart: seq<CartItem>, p: ProductCard)
    requires UniqueIds(cart) && forall j :: 0 <= j < |cart| ==> cart[j].id != p.id
    ensures var next := cart + [CartItem(p.id, p.name, p.shopId, p.price, 1)];
      && UniqueIds(next) && next[|cart|].id == p.id
      && CartCount(next) == CartCount(cart) + 1
      && CartTotal(next) == CartTotal(cart) + p.price
  {
    var x := CartItem(p.id, p.name, p.shopId, p.price, 1);
    SumAppend(cart, [x], Quantity);
    SumAppend(cart, [x], LineTotal);
    assert [x][..0] == [];
  }

  /** The filter keeps exactly the items with another id. */
  lemma {:induction false} WithoutIdMembers(cart: seq<CartItem>, id: Id)
    ensures forall x :: x in WithoutId(cart, id) <==> x in cart && x.id != id
  {
    if cart != [] {
      WithoutIdMembers(cart[..|cart| - 1], id);
      assert cart == cart[..|cart| - 1] + [cart[|cart| - 1]];
    }
  }

  lemma WithoutIdAbsent(cart: seq<CartItem>, id: Id)
    ensures FindItem(WithoutId(cart, id), id).None?
  {
    var r := WithoutId(cart, id);
    WithoutIdMembers(cart, id);
    forall j | 0 <= j < |r| ensures r[j].id != id {
      assert r[j] in r;
    }
  }

  /** The filter keeps the other items in their order: it distributes over concatenation. */
  lemma {:induction false} WithoutIdAppend(a: seq<CartItem>, b: seq<CartItem>, id: Id)
    ensures WithoutId(a + b, id) == WithoutId(a, id) + WithoutId(b, id)
  {
    if b != [] {
      assert (a + b)[..|a + b| - 1] == a + b[..|b| - 1];
      WithoutIdAppend(a, b[..|b| - 1], id);
    } else {
      assert a + b == a;
    }
  }

  /** An id not in the cart filters out nothing. */
  lemma {:induction false} WithoutAbsentId(cart: seq<CartItem>, id: Id)
    requires forall j :: 0 <= j < |cart| ==> cart[j].id != id
    ensures WithoutId(cart, id) == cart
  {
    if cart != [] {
      WithoutAbsentId(cart[..|cart| - 1], id);
    }
  }

  lemma {:induction false} WithoutIdKeepsUnique(cart: seq<CartItem>, id: Id)
    requires UniqueIds(cart)
    ensures UniqueIds(WithoutId(cart, id))
  {
    if cart != [] {
      var init := cart[..|cart| - 1];
      var last := cart[|cart| - 1];
      WithoutIdKeepsUnique(init, id);
      WithoutIdMembers(init, id);
      var r := WithoutId(cart, id);
      var w := WithoutId(init, id);
      forall i, j | 0 <= i < j < |r| ensures r[i].id != r[j].id {
        if j == |w| {
          assert r[i] in w;
          var k :| 0 <= k < |init| && init[k] == r[i];
          assert cart[k] == r[i];
        }
      }
    }
  }

  /** The count splits into what the filter keeps and what the checkout lines ask of the id. */
  lemma {:induction false} CountSplit(cart: seq<CartItem>, id: Id)
    ensures CartCount(cart) == CartCount(WithoutId(cart, id)) + CustomerRoutes.Requested(CheckoutLines(cart), id)
  {
    if cart != [] {
      var init := cart[..|cart| - 1];
      var last := cart[|cart| - 1];
      assert CheckoutLines(cart)[..|cart| - 1] == CheckoutLines(init);
      CountSplit(init, id);
      SumAppend(WithoutId(init, id), if last.id != id then [last] else [], Quantity);
    }
  }

  /** The checkout lines of a cart with one item per id name each product once, with that item's quantity. */
  lemma CheckoutLinesOfUniqueCart(cart: seq<CartItem>)
    requires UniqueIds(cart)
    ensures CustomerRoutes.DistinctProducts(CheckoutLines(cart))
    ensures forall i :: 0 <= i < |cart| ==> CustomerRoutes.Requested(CheckoutLines(cart), cart[i].id) == cart[i].quantity
  {
    var lines := CheckoutLines(cart);
    forall i | 0 <= i < |cart| ensures CustomerRoutes.Requested(lines, cart[i].id) == cart[i].quantity {
      CustomerRoutes.RequestedOfDistinct(lines, i);
    }
  }

  /** Removing an item keeps one item per id, leaves none with that id, and lowers the count by its quantity. */
  lemma RemoveEffects(cart: seq<CartItem>, i: nat)
    requires UniqueIds(cart) && i < |cart|
    ensures UniqueIds(WithoutId(cart, cart[i].id))
    ensures FindItem(WithoutId(cart, cart[i].id), cart[i].id).None?
    ensures CartCount(WithoutId(cart, cart[i].id)) == CartCount(cart) - cart[i].quantity
  {
    WithoutIdKeepsUnique(cart, cart[i].id);
    WithoutIdAbsent(cart, cart[i].id);
    CountSplit(cart, cart[i].id);
    CheckoutLinesOfUniqueCart(cart);
  }

  /**
   * Changing a quantity: an unknown id changes nothing; a quantity that stays
   * positive moves the count by `change`; one that drops to zero or below
   * takes the item out.
   */
  lemma QuantityChangeEffects(cart: seq<CartItem>, id: Id, change: int)
    requires UniqueIds(cart)
    ensures UniqueIds(QuantityChanged(cart, id, change))
    ensures FindItem(cart, id).None? ==> QuantityChanged(cart, id, change) == cart
    ensures FindItem(cart, id).Some? && cart[FindItem(cart, id).value].quantity + change > 0 ==> (
      && |QuantityChanged(cart, id, change)| == |cart|
      && CartCount(QuantityChanged(cart, id, change)) == CartCount(cart) + change)
    ensures FindItem(cart, id).Some? && cart[FindItem(cart, id).value].quantity + change <= 0 ==> (
      && FindItem(QuantityChanged(cart, id, change), id).None?
      && CartCount(QuantityChanged(cart, id, change)) == CartCount(cart) - cart[FindItem(cart, id).value].quantity)
  {
    var found := FindItem(cart, id);
    if found.Some? {
      var i := found.value;
      var q := cart[i].quantity + change;
      if q <= 0 {
        assert QuantityChanged(cart, id, change) == WithoutId(cart, cart[i].id);
        RemoveEffects(cart, i);
      } else {
        assert QuantityChanged(cart, id, change) == cart[i := cart[i].(quantity := q)];
        SetQuantityEffects(cart, i, q);
      }
    }
  }

  lemma SetQuantityEffects(cart: seq<CartItem>, i: nat, q: int)
    requires UniqueIds(cart) && i < |cart|
    ensures var next := cart[i := cart[i].(quantity := q)];
      && UniqueIds(next) && |next| == |cart|
      && CartCount(next) == CartCount(cart) - cart[i].quantity + q
  {
    SumUpdate(cart, i, cart[i].(quantity := q), Quantity);
  }

  // ---------------------------------------------------------------------------
  // The checkout request
  // ---------------------------------------------------------------------------

  /** `JSON.stringify({ items: checkoutItems })`: the lines go under the key `items`. */
  function CheckoutPayload(cart: seq<CartItem>): CustomerRoutes.RequestBody {
    map["items" := CheckoutLines(cart)]
  }

  /** The backend reads only `cartItems`, so the request the storefront sends is always refused as an empty cart. */
  lemma ItemsPayloadUnread(cart: seq<CartItem>)
    ensures CustomerRoutes.CartItemsOf(CheckoutPayload(cart)).None?
  {
    assert "cartItems" != "items";
  }

  /** The body the checkout route reads: the same lines under `cartItems`. */
  function CorrectedCheckoutPayload(cart: seq<CartItem>): CustomerRoutes.RequestBody {
    map["cartItems" := CheckoutLines(cart)]
  }

  /**
   * The corrected body hands the route a non-empty list of lines, one per
   * product, each asking for exactly the quantity in the cart.
   */
  lemma CorrectedPayloadCarriesCart(cart: seq<CartItem>)
    requires cart != [] && UniqueIds(cart)
    ensures CustomerRoutes.CartItemsOf(CorrectedCheckoutPayload(cart)) == Some(CheckoutLines(cart))
    ensures CheckoutLines(cart) != []
    ensures CustomerRoutes.DistinctProducts(CheckoutLines(cart))
    ensures forall i :: 0 <= i < |cart| ==>
      CustomerRoutes.Requested(CheckoutLines(cart), cart[i].id) == cart[i].quantity
  {
    CheckoutLinesOfUniqueCart(cart);
  }

  // ---------------------------------------------------------------------------
  // The script's state
  // ---------------------------------------------------------------------------

  /** A `localStorage` value: a plain string, the serialized user, or the serialized cart. */
  datatype Stored = Text(text: string) | UserJson(user: Option<UserInfo>) | CartJson(items: seq<CartItem>)

  /** The cart a page load starts from: `JSON.parse(localStorage.getItem('cart')) || []`. */
  function StoredCart(storage: map<string, Stored>): seq<CartItem> {
    if "cart" in storage && storage["cart"].CartJson? then storage["cart"].items else []
  }

  /** `localStorage.getItem(key) || null` for a string item: an absent or empty item reads as null. */
  function StoredText(storage: map<string, Stored>, key: string): Option<string> {
    if key in storage && storage[key].Text? && storage[key].text != "" then Some(storage[key].text) else None
  }

  /** `JSON.parse(localStorage.getItem('user')) || null`. */
  function StoredUser(storage: map<string, Stored>): Option<UserInfo> {
    if "user" in storage && storage["user"].UserJson? then storage["user"].user else None
  }

  /** The storage `updateAppState` leaves behind for a truthy token. */
  function SessionStorage(storage: map<string, Stored>, token: string, user: Option<UserInfo>, userType: Option<string>)
    : map<string, Stored>
  {
    storage["token" := Text(token)]["user" := UserJson(user)]["userType" := Text(userType.GetOr("null"))]
  }

  /**
   * A page load after a login finds the same session again: token, user and
   * user type, with the view set to the user type, and the saved cart kept.
   */
  lemma SessionSurvivesReload(storage: map<string, Stored>, token: string, user: Option<UserInfo>, userType: Option<string>)
    requires token != "" && Truthy(userType)
    ensures var after := SessionStorage(storage, token, user, userType);
      && StoredText(after, "token") == Some(token)
      && StoredUser(after) == user
      && StoredText(after, "userType") == userType
      && StoredCart(after) == StoredCart(storage)
  {
  }

  /** A page load after a logout starts logged out, with the saved cart gone. */
  lemma ReloadAfterLogout()
    ensures StoredText(map[], "token").None? && StoredUser(map[]).None? && StoredText(map[], "userType").None?
    ensures StoredCart(map[]) == []
  {
  }

  /** `response.ok`: a status in the 2xx range. */
  predicate OkStatus(status: int) {
    200 <= status < 300
  }

  /** The answers on which `secureFetch` ends the session. */
  predicate SessionRefused(status: int) {
    status == 401 || status == 403
  }

  class Storefront {
    var cart: seq<CartItem>
    var storage: map<string, Stored>
    /** Whether `#cart-count` is on screen, and the number it shows. */
    var badgeShown: bool
    var badge: int
    var currentToken: Option<string>
    var loggedInUser: Option<UserInfo>
    var loggedInUserType: Option<string>
    var currentView: string

    /**
     * A page load: the session and the cart come back from storage, the view
     * is the user type or the login form; the badge is not yet rendered.
     */
    constructor(stored: map<string, Stored>)
      ensures storage == stored && cart == StoredCart(stored) && !badgeShown
      ensures currentToken == StoredText(stored, "token") && loggedInUser == StoredUser(stored)
      ensures loggedInUserType == StoredText(stored, "userType")
      ensures currentView == StoredText(stored, "userType").GetOr("login")
    {
      storage := stored;
      cart := StoredCart(stored);
      badgeShown := false;
      badge := 0;
      currentToken := StoredText(stored, "token");
      loggedInUser := StoredUser(stored);
      loggedInUserType := StoredText(stored, "userType");
      currentView := StoredText(stored, "userType").GetOr("login");
    }

    /** `updateCartCount`: the badge, when on screen, shows the number of units in the cart. */
    method UpdateCartCount()
      modifies this`badge
      ensures badgeShown ==> badge == CartCount(cart)
      ensures !badgeShown ==> badge == old(badge)
    {
      if badgeShown {
        badge := CartCount(cart);
      }
    }

    /** `saveCart`: the cart is written to storage and the badge refreshed. */
    method SaveCart()
      modifies this`storage, this`badge
      ensures storage == old(storage)["cart" := CartJson(cart)]
      ensures badgeShown ==> badge == CartCount(cart)
      ensures !badgeShown ==> badge == old(badge)
    {
      storage := storage["cart" := CartJson(cart)];
      UpdateCartCount();
    }

    method AddToCart(p: ProductCard)
      modifies this`cart, this`storage, this`badge
      ensures cart == AddedTo(old(cart), p)
      ensures storage == old(storage)["cart" := CartJson(cart)]
      ensures badgeShown ==> badge == CartCount(cart)
      ensures !badgeShown ==> badge == old(badge)
    {
      var found := FindItem(cart, p.id);
      if found.Some? {
        var i := found.value;
        cart := cart[i := cart[i].(quantity := cart[i].quantity + 1)];
      } else {
        cart := cart + [CartItem(p.id, p.name, p.shopId, p.price, 1)];
      }
      SaveCart();
    }

    method UpdateCartItemQuantity(id: Id, change: int)
      modifies this`cart, this`storage, this`badge
      ensures cart == QuantityChanged(old(cart), id, change)
      ensures storage == old(storage)["cart" := CartJson(cart)]
      ensures badgeShown ==> badge == CartCount(cart)
      ensures !badgeShown ==> badge == old(badge)
    {
      var found := FindItem(cart, id);
      if found.Some? {
        var i := found.value;
        var q := cart[i].quantity + change;
        cart := cart[i := cart[i].(quantity := q)];
        if q <= 0 {
          WithoutIdOfUpdated(old(cart), i, q);
          cart := WithoutId(cart, id);
        }
      }
      SaveCart();
    }

    method RemoveFromCart(id: Id)
      modifies this`cart, this`storage, this`badge
      ensures cart == WithoutId(old(cart), id)
      ensures storage == old(storage)["cart" := CartJson(cart)]
      ensures badgeShown ==> badge == CartCount(cart)
      ensures !badgeShown ==> badge == old(badge)
    {
      cart := WithoutId(cart, id);
      SaveCart();
    }

    method ClearCart()
      modifies this`cart, this`storage, this`badge
      ensures cart == []
      ensures storage == old(storage) - {"cart"}
      ensures badgeShown ==> badge == 0
      ensures !badgeShown ==> badge == old(badge)
    {
      cart := [];
      storage := storage - {"cart"};
      UpdateCartCount();
    }

    /**
     * `handleCheckout`: nothing is sent for an empty cart; otherwise the
     * payload is posted, and the cart is cleared only when the response is ok.
     * `respond` stands for the status `secureFetch` ends with: a 401 or 403
     * logs the user out, any other failure leaves everything as it was.
     */
    method HandleCheckout(respond: CustomerRoutes.RequestBody -> int) returns (sent: Option<CustomerRoutes.RequestBody>)
      modifies this`cart, this`storage, this`badge
      modifies this`currentToken, this`loggedInUser, this`loggedInUserType, this`currentView
      ensures old(cart) == [] ==> sent.None? && unchanged(this)
      ensures old(cart) != [] ==> sent == Some(CheckoutPayload(old(cart)))
      ensures old(cart) != [] && OkStatus(respond(CheckoutPayload(old(cart)))) ==>
        && cart == [] && storage == old(storage) - {"cart"}
        && (badgeShown ==> badge == 0)
        && currentToken == old(currentToken) && loggedInUser == old(loggedInUser)
        && loggedInUserType == old(loggedInUserType) && currentView == old(currentView)
      ensures old(cart) != [] && SessionRefused(respond(CheckoutPayload(old(cart)))) ==>
        && cart == old(cart) && badge == old(badge) && storage == map[]
        && currentToken.None? && loggedInUser.None? && loggedInUserType.None? && currentView == "login"
      ensures old(cart) != [] ==> var status := respond(CheckoutPayload(old(cart)));
        !OkStatus(status) && !SessionRefused(status) ==> unchanged(this)
    {
      if |cart| == 0 {
        return None;
      }
      var body := CheckoutPayload(cart);
      var status := respond(body);
      if OkStatus(status) {
        ClearCart();
      } else if SessionRefused(status) {
        HandleLogout();
      }
      return Some(body);
    }

    /** `updateAppState`: a truthy token persists the session; anything else wipes storage, the saved cart included. */
    method UpdateAppState(view: string, token: Option<string>, user: Option<UserInfo>, userType: Option<string>)
      modifies this`currentToken, this`loggedInUser, this`loggedInUserType, this`currentView, this`storage
      ensures currentToken == token && loggedInUser == user && loggedInUserType == userType && currentView == view
      ensures Truthy(token) ==> storage == SessionStorage(old(storage), token.value, user, userType)
      ensures !Truthy(token) ==> storage == map[]
    {
      currentToken := token;
      loggedInUser := user;
      loggedInUserType := userType;
      currentView := view;
      if Truthy(token) {
        storage := storage["token" := Text(token.value)];
        storage := storage["user" := UserJson(user)];
        storage := storage["userType" := Text(userType.GetOr("null"))];
      } else {
        storage := map[];
      }
    }

    /** `handleLogout`: storage is wiped, while the in-memory cart stays as it was. */
    method HandleLogout()
      modifies this`currentToken, this`loggedInUser, this`loggedInUserType, this`currentView, this`storage
      ensures storage == map[] && currentView == "login"
      ensures currentToken.None? && loggedInUser.None? && loggedInUserType.None?
      ensures cart == old(cart)
    {
      UpdateAppState("login", None, None, None);
    }
  }

  /** Filtering after the in-place update is the same as filtering the cart before it. */
  lemma {:induction false} WithoutIdOfUpdated(cart: seq<CartItem>, i: nat, q: int)
    requires i < |cart|
    ensures WithoutId(cart[i := cart[i].(quantity := q)], cart[i].id) == WithoutId(cart, cart[i].id)
  {
    var n := |cart|;
    var x := cart[i].(quantity := q);
    if i == n - 1 {
      assert cart[i := x][..n - 1] == cart[..n - 1];
    } else {
      assert cart[i := x][..n - 1] == cart[..n - 1][i := x];
      WithoutIdOfUpdated(cart[..n - 1], i, q);
    }
  }
}
