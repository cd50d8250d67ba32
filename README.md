# ShopLink in Dafny

ShopLink is a small multi-vendor marketplace. Customers browse shops, fill a
cart in the browser and check out. Shop owners manage products, move orders
through a five-value status and read a per-item sales report. This project
models its core and proves properties of it:

- the Mongoose schemas for products, orders, customers and shop owners
  (`product_model.dfy`, `order_model.dfy`, `customer_model.dfy`,
  `shop_owner_model.dfy`);
- the database the routes read and write, as one mutable `Database` object
  whose invariant is the schemas' validators (for products, all but the
  stock minimum), the unique indexes, and fresh, distinct ids (`store.dfy`);
- the customer checkout: validate every line against stock, group the lines
  by shop in first-appearance order, save one `Processing` order per shop
  with purchase-time snapshots and a server-side total, then decrement stock
  (`customer_routes.dfy`);
- the owner routes: product listing, creation, partial update and deletion,
  the order listing joined with customer contacts, the status update and the
  sold-items report (`owner_routes.dfy`);
- registration and login for both kinds of user (`auth_routes.dfy`) and the
  bearer-token middleware (`auth_middleware.dfy`);
- the browser cart of the storefront script, its storage and badge, and the
  checkout request it sends (`client_cart.dfy`), and the React cart panel
  (`cart_component.dfy`);
- three defects, each shown on a concrete input and paired with the
  evidently intended behaviour (`checkout_findings.dfy` and the end of
  `client_cart.dfy`).

Conventions:

- Money is integer cents, so the schema minimum price 0.01 is `MinPrice == 1`.
- An ObjectId is a `nat`; every new document takes the database's `nextId`.
- bcrypt, `jwt.sign` and `jwt.verify` are function-typed parameters
  (`Hasher`, `Comparer`, `Signer`, `Verifier`).
- The clock is a parameter: `now` is the order date.
- A response is a `Result` whose error is the status code and message.
- An undefined body field is `None`. JavaScript truthiness of strings is
  `Truthy`, and of numbers `TruthyNumber`.

Route handlers that change the database are methods with a `modifies`
clause. Each states the new database as a function of the old one. The
decisions they make are functions, and the lemmas are stated about those
functions.

## Model

| member | source | states |
|---|---|---|
| OrderModel.ParseStatus | ShopLink_Backend/models/Order.js:32-36 | a string is accepted as a status exactly when it is one of the five enum names, and the status read back prints as that name |
| OrderModel.ParseStatusName | ShopLink_Backend/models/Order.js:32-36 | every status survives printing and parsing |
| OrderModel.ItemsTotalAppend | ShopLink_Backend/models/Order.js:37-44 | the sum of `sellingPrice × quantity` over an order's items splits over concatenation |
| Store.AscendingIdsDistinct | ShopLink_Backend/models/Order.js:17-45 | order ids that were handed out in ascending order are all distinct and below the next fresh id |
| Store.AscendingIdsSameIds | ShopLink_Backend/routes/ownerRoutes.js:188-192 | replacing orders by orders with the same ids keeps the ids ascending |
| Store.Database.constructor | ShopLink_Backend/models/Product.js:1-50 | an empty database satisfies every schema and index invariant |
| Store.Database.DistinctIds | ShopLink_Backend/routes/authRoutes.js:36-40 | every customer, and every owner, was saved under a fresh id, so no two stored customers or owners share an id |
| Store.Database.InsertOrder | ShopLink_Backend/routes/customerRoutes.js:138-147 | `save()` appends the order under the next fresh id and changes nothing else |
| Store.Database.InsertProduct | ShopLink_Backend/routes/ownerRoutes.js:51-64 | `save()` stores a product that passes the validators under a fresh id not used before, keeps the table valid and changes nothing else |
| Store.Database.InsertCustomer | ShopLink_Backend/models/Customer.js:22-28 | a valid customer whose phone is not yet registered is appended; phones stay unique |
| Store.Database.InsertOwner | ShopLink_Backend/models/ShopOwner.js:5-21 | a valid owner whose shop name and registration id are both unused is appended; both keys stay unique |
| Store.Database.ReplaceOrder | ShopLink_Backend/routes/ownerRoutes.js:188-192 | one order is replaced by one with the same id; nothing else changes |
| CustomerRoutes.FirstRejection | ShopLink_Backend/routes/customerRoutes.js:103-108 | no rejection exactly when every line's product exists and its unchanged stock covers that line; otherwise the error names a failing line's product by name, or by id when it is missing |
| CustomerRoutes.FirstRejectionAt | ShopLink_Backend/routes/customerRoutes.js:103-108 | the error reported is the one for the first failing line in cart order |
| CustomerRoutes.Picks | ShopLink_Backend/routes/customerRoutes.js:104-115 | each validated line is paired with the product record read for it, in cart order |
| CustomerRoutes.ShopsInOrderExact | ShopLink_Backend/routes/customerRoutes.js:110-115 | the shop list has no repeats and holds exactly the shops of the cart's products |
| CustomerRoutes.LinesOfShopExact | ShopLink_Backend/routes/customerRoutes.js:110-115 | a shop's group holds every line of that shop's products, as often as in the cart, and no other line |
| CustomerRoutes.NoLinesForAbsentShop | ShopLink_Backend/routes/customerRoutes.js:110-115 | a shop that no product belongs to gets no group |
| CustomerRoutes.FlattenSnoc | ShopLink_Backend/routes/customerRoutes.js:110-115 | adding one line to the cart adds it to exactly its shop's group |
| CustomerRoutes.GroupingPartitions | ShopLink_Backend/routes/customerRoutes.js:110-115 | the groups taken together are a permutation of the cart's lines |
| CustomerRoutes.EveryShopHasLines | ShopLink_Backend/routes/customerRoutes.js:110-115 | no saved order is empty: every listed shop has at least one line |
| CustomerRoutes.SumOverAppend | ShopLink_Backend/routes/customerRoutes.js:117 | sums over lines split over concatenation |
| CustomerRoutes.SumOverPermutation | ShopLink_Backend/routes/customerRoutes.js:117 | sums over lines do not depend on their order |
| CustomerRoutes.RequestedOfPicks | ShopLink_Backend/routes/customerRoutes.js:150-154 | the quantity the picked lines ask of a product is the quantity the cart asks of it |
| CustomerRoutes.Snapshots | ShopLink_Backend/routes/customerRoutes.js:128-134 | one order item per line, each a snapshot of the product's name, price and cost with the requested quantity |
| CustomerRoutes.SnapshotsTotal | ShopLink_Backend/routes/customerRoutes.js:136 | a shop order's total is the value of its lines at current prices |
| CustomerRoutes.PlannedOrders | ShopLink_Backend/routes/customerRoutes.js:126-147 | one order per shop group |
| CustomerRoutes.PlannedOrdersAt | ShopLink_Backend/routes/customerRoutes.js:126-147 | the k-th order is the k-th shop's order under the k-th fresh id |
| CustomerRoutes.FreshIds | ShopLink_Backend/routes/customerRoutes.js:123-157 | the returned ids are consecutive fresh ids, one per order in group order |
| CustomerRoutes.PlannedOrdersTotal | ShopLink_Backend/routes/customerRoutes.js:136-142 | the orders' totals add up to the value of the grouped lines |
| CustomerRoutes.OrderTotalsAddUpToCart | ShopLink_Backend/routes/customerRoutes.js:117-136 | the per-shop totals add up to the cart total the first loop accumulates |
| CustomerRoutes.PlannedOrdersWellFormed | ShopLink_Backend/routes/customerRoutes.js:138-144 | every created order is `Processing`, belongs to the caller and to its shop, is non-empty and its total matches its items |
| CustomerRoutes.Deduct | ShopLink_Backend/routes/customerRoutes.js:150-154 | the stock updates touch no key of the product table |
| CustomerRoutes.DeductOneKeepsListings | ShopLink_Backend/routes/customerRoutes.js:151-153 | one `$inc` on the stock keeps every stored product's other fields valid |
| CustomerRoutes.DeductEffect | ShopLink_Backend/routes/customerRoutes.js:150-154 | after the `$inc` updates a product's stock is lower by the sum of its lines' quantities and its other fields are unchanged |
| CustomerRoutes.DeductAppend | ShopLink_Backend/routes/customerRoutes.js:150-154 | deducting two runs of lines one after the other is deducting both |
| CustomerRoutes.CheckoutStockEffect | ShopLink_Backend/routes/customerRoutes.js:126-155 | deducting shop by shop gives the same stock as deducting each cart line once |
| CustomerRoutes.UntouchedProductsKeepStock | ShopLink_Backend/routes/customerRoutes.js:150-154 | a product on no line keeps its record |
| CustomerRoutes.RequestedOfAbsent | ShopLink_Backend/routes/customerRoutes.js:150-154 | a product on no line is asked for nothing |
| CustomerRoutes.RequestedOfDistinct | ShopLink_Backend/routes/customerRoutes.js:150-154 | when each product is on at most one line, the amount asked of it is that line's quantity |
| CustomerRoutes.DistinctCartKeepsStock | ShopLink_Backend/models/Product.js:34-38 | when each product is on at most one line, a checkout that passed validation leaves no stock below zero |
| CustomerRoutes.GroupingStep | ShopLink_Backend/routes/customerRoutes.js:111-115 | one step of the `shopIdMap` loop keeps the map equal to the grouping of the lines seen so far |
| CustomerRoutes.ValidateAndGroup | ShopLink_Backend/routes/customerRoutes.js:99-118 | the first loop returns the first line's error, or the grouping of all lines by shop in first-appearance order |
| CustomerRoutes.SaveOrders | ShopLink_Backend/routes/customerRoutes.js:123-155 | the second loop appends the planned orders under consecutive fresh ids, returns those ids and deducts every grouped line |
| CustomerRoutes.SaveShopOrder | ShopLink_Backend/routes/customerRoutes.js:128-154 | one shop's iteration appends that shop's order under the next id, deducts exactly its lines and keeps the database valid |
| CustomerRoutes.NextSaved | ShopLink_Backend/routes/customerRoutes.js:126-155 | saving shop k's order under the next id and deducting its lines turns the state planned for k shops into the one planned for k+1 |
| CustomerRoutes.FreshIdsStep | ShopLink_Backend/routes/customerRoutes.js:147 | pushing the next id extends the list of fresh ids |
| CustomerRoutes.SaveStep | ShopLink_Backend/routes/customerRoutes.js:126-155 | the plan for k+1 shops is the plan for k shops plus the k-th shop's order and lines |
| CustomerRoutes.UpdateStock | ShopLink_Backend/routes/customerRoutes.js:150-154 | the inner loop applies the stock deduction of the shop's lines |
| CustomerRoutes.Checkout | ShopLink_Backend/routes/customerRoutes.js:90-163 | 403 for a non-customer; "Cart is empty." for a missing or empty `cartItems`; the first stock error with nothing written; otherwise one order per shop, the stock after the cart and the new order ids |
| OwnerRoutes.ShopProducts | ShopLink_Backend/routes/ownerRoutes.js:24 | the listing holds exactly the caller's products, unchanged |
| OwnerRoutes.ListProducts | ShopLink_Backend/routes/ownerRoutes.js:17-30 | 403 "Access denied. Must be a shop owner." for a non-owner, otherwise the caller's products |
| OwnerRoutes.NewProduct | ShopLink_Backend/routes/ownerRoutes.js:39-61 | an accepted product is valid under the schema, belongs to the caller and has `details` defaulting to `{}` |
| OwnerRoutes.NewProductAcceptsExactly | ShopLink_Backend/routes/ownerRoutes.js:42-61 | creation succeeds exactly for non-empty name, description and category, price of at least one cent, cost at least 0 and stock at least 1, so zero stock counts as missing |
| OwnerRoutes.MissingBeforeRange | ShopLink_Backend/routes/ownerRoutes.js:42-44 | the "missing fields" error is returned exactly when a field is falsy or `costPrice` is undefined |
| OwnerRoutes.CreateProduct | ShopLink_Backend/routes/ownerRoutes.js:33-69 | 403 for a non-owner; the validation error with nothing stored; an owner's body that passes both checks is always stored, under a fresh id, in the caller's shop, and the stored table stays valid |
| OwnerRoutes.ApplyPatch | ShopLink_Backend/routes/ownerRoutes.js:82-93 | an update never changes the owning shop |
| OwnerRoutes.PatchTouchesOnlyPresentFields | ShopLink_Backend/routes/ownerRoutes.js:82-93 | a field absent from the body keeps its value and a present field takes the body's value |
| OwnerRoutes.EmptyPatchChangesNothing | ShopLink_Backend/routes/ownerRoutes.js:82-93 | an empty body changes nothing |
| OwnerRoutes.PatchIdempotent | ShopLink_Backend/routes/ownerRoutes.js:82-93 | applying the same update twice is applying it once |
| OwnerRoutes.PatchKeepsProductValid | ShopLink_Backend/routes/ownerRoutes.js:91-95 | an update that passes the run validators keeps a valid product valid, and keeps the non-stock fields valid whatever the stock |
| OwnerRoutes.InvalidPatchBreaksProduct | ShopLink_Backend/routes/ownerRoutes.js:91-95 | an update the validators refuse would make any product invalid |
| OwnerRoutes.UpdateProduct | ShopLink_Backend/routes/ownerRoutes.js:72-106 | 403 for a non-owner, 500 for an update the validators refuse, 404 for a product that is not the caller's; a valid update of the caller's own product always succeeds, and only that product is patched |
| OwnerRoutes.DeleteProduct | ShopLink_Backend/routes/ownerRoutes.js:109-131 | 403 for a non-owner, 404 with no change for a product that is not the caller's; deleting the caller's own product always succeeds and removes only that product |
| OwnerRoutes.DeleteKeepsOthers | ShopLink_Backend/routes/ownerRoutes.js:117-120 | deleting one product leaves every other product as it was |
| OwnerRoutes.OrdersOfShop | ShopLink_Backend/routes/ownerRoutes.js:143 | the query returns exactly the shop's orders; with `deliveredOnly` it is the report's query at line 267, restricted to Delivered orders |
| OwnerRoutes.OrdersOfShopAppend | ShopLink_Backend/routes/ownerRoutes.js:143 | the listing keeps storage order: the orders of one stretch of storage are listed before those of the next |
| OwnerRoutes.CustomerMap | ShopLink_Backend/routes/ownerRoutes.js:148-155 | the lookup map has an entry exactly for the registered customers who placed one of the listed orders |
| OwnerRoutes.CustomerMapNamesTheCustomer | ShopLink_Backend/routes/ownerRoutes.js:151-155 | each entry holds the name and phone of the customer with that id |
| OwnerRoutes.JoinShowsCustomerOrNA | ShopLink_Backend/routes/ownerRoutes.js:158-165 | a listed order shows its registered customer's name and phone, and 'N/A' for both when that customer is gone |
| OwnerRoutes.OrdersWithCustomerInfo | ShopLink_Backend/routes/ownerRoutes.js:158-165 | one row per order, in order, each the order with its customer's contact |
| OwnerRoutes.ListOrders | ShopLink_Backend/routes/ownerRoutes.js:136-172 | 403 for a non-owner, otherwise the caller's orders joined with customer contacts |
| OwnerRoutes.FindOrder | ShopLink_Backend/routes/ownerRoutes.js:188-189 | the lookup finds the first order with that id and the caller's shop, or reports there is none |
| OwnerRoutes.UpdateOrderStatus | ShopLink_Backend/routes/ownerRoutes.js:175-203 | 403 for a non-owner; 400 for anything but the five status names; with a valid name, success exactly when the caller has an order with that id, and 404 with no change otherwise; on success only that order's status changes, from any status |
| OwnerRoutes.StatusUpdateTouchesOnlyStatus | ShopLink_Backend/routes/ownerRoutes.js:188-192 | the status update keeps every other field of the order and every other order |
| OwnerRoutes.RowsOfOrder | ShopLink_Backend/routes/ownerRoutes.js:285-303 | one report row per item of the order |
| OwnerRoutes.DetailRowsCount | ShopLink_Backend/routes/ownerRoutes.js:282-304 | the report has one row per item of the listed orders |
| OwnerRoutes.RevenueAppend | ShopLink_Backend/routes/ownerRoutes.js:282-304 | report revenue splits over concatenation |
| OwnerRoutes.RowsOfOrderRevenue | ShopLink_Backend/routes/ownerRoutes.js:285-288 | an order's rows earn exactly the order's item total |
| OwnerRoutes.ReportRevenueIsOrderTotals | ShopLink_Backend/routes/ownerRoutes.js:282-304 | the report's revenue is the sum of the delivered orders' totals when those totals match their items |
| OwnerRoutes.RowProfit | ShopLink_Backend/routes/ownerRoutes.js:286-288 | every row has revenue = quantity × selling price and profit = revenue − quantity × cost |
| OwnerRoutes.SalesDetails | ShopLink_Backend/routes/ownerRoutes.js:260-312 | 403 for a non-owner, otherwise the nested loops build the rows of the caller's Delivered orders in order |
| AuthRoutes.CustomerWithPhone | ShopLink_Backend/routes/authRoutes.js:28 | `findOne({ phone })` finds the first customer with that phone, or none; the login at line 54 uses the same lookup |
| AuthRoutes.FindCustomerByPhone | ShopLink_Backend/routes/authRoutes.js:28 | the lookup loop returns what the lookup specifies |
| AuthRoutes.UniquePhoneLookup | ShopLink_Backend/models/Customer.js:25 | with unique phones the lookup finds the one customer with that phone |
| AuthRoutes.OwnerWhere | ShopLink_Backend/routes/authRoutes.js:90 | the first owner with that registration id, or with that shop name when one is given; the login at line 116 queries the registration id alone |
| AuthRoutes.CustomerToRegister | ShopLink_Backend/routes/authRoutes.js:22-40 | an accepted customer is valid, takes the fresh id, stores only the hash of the password and has a phone no customer has |
| AuthRoutes.CustomerRegistrationErrors | ShopLink_Backend/routes/authRoutes.js:24-31 | 400 "Missing required fields." exactly when phone, password, name or address is falsy; 400 for a taken phone exactly when the fields are present and a customer has it |
| AuthRoutes.RegistrationKeepsPhonesUnique | ShopLink_Backend/models/Customer.js:25 | registering a customer keeps phones unique |
| AuthRoutes.RegisterCustomer | ShopLink_Backend/routes/authRoutes.js:20-47 | on any error nothing is stored; on success one customer is appended under the next id |
| AuthRoutes.CustomerLogin | ShopLink_Backend/routes/authRoutes.js:50-78 | an unknown phone or a wrong password is "Invalid credentials."; an undefined password for a known phone is the 500 "Server error during login."; login succeeds exactly when a password is given and the phone's customer's hash matches it; the token carries that customer's id and type customer |
| AuthRoutes.LoginFailuresLookAlike | ShopLink_Backend/routes/authRoutes.js:54-62 | an unknown phone and a wrong password give the same response |
| AuthRoutes.OwnerLogin | ShopLink_Backend/routes/authRoutes.js:112-140 | an unknown registration id or a wrong password is "Invalid credentials."; an undefined password for a known owner is the 500; success needs a password, an owner with that registration id and a matching hash, and the token carries its id and type owner |
| AuthRoutes.OwnerLoginSucceeds | ShopLink_Backend/routes/authRoutes.js:116-135 | a registered owner with the right password gets a token for that owner and the owner's public fields |
| AuthRoutes.OwnerToRegister | ShopLink_Backend/routes/authRoutes.js:84-102 | an accepted owner is valid, takes the fresh id, stores only the password hash and clashes with no owner on shop name or registration id; "missing fields" exactly when one of the six fields is falsy |
| AuthRoutes.OwnerClashRefused | ShopLink_Backend/routes/authRoutes.js:90-93 | a clash on either the shop name or the registration id alone is refused |
| AuthRoutes.RegistrationKeepsOwnerKeysUnique | ShopLink_Backend/models/ShopOwner.js:5-21 | registering an owner keeps shop names and registration ids unique |
| AuthRoutes.RegisterOwner | ShopLink_Backend/routes/authRoutes.js:82-109 | on any error nothing is stored; on success one owner is appended under the next id |
| AuthMiddleware.IndexOf | ShopLink_Backend/middleware/auth.js:9 | the first position where the pattern occurs, or none when it never does |
| AuthMiddleware.StripBearer | ShopLink_Backend/middleware/auth.js:9 | a header without "Bearer " is kept as it is; otherwise the text before the first occurrence and the text after it are kept, and only that occurrence is removed |
| AuthMiddleware.Authenticate | ShopLink_Backend/middleware/auth.js:7-30 | the request goes on exactly when there is a header, the stripped token is non-empty and it verifies, and `req.user` is then the decoded payload; 401 exactly for a missing header or an empty token; otherwise 400 |
| AuthMiddleware.BearerRoundTrip | ShopLink_Backend/middleware/auth.js:9 | "Bearer " followed by a token yields exactly that token |
| AuthMiddleware.SignedTokenPasses | ShopLink_Backend/middleware/auth.js:9-25 | a non-empty token that verifies, sent as "Bearer token", passes with its payload |
| AuthMiddleware.EmptyBearerRefused | ShopLink_Backend/middleware/auth.js:9-14 | a bare "Bearer " header gets 401 |
| AuthMiddleware.StripOnlyFirst | ShopLink_Backend/middleware/auth.js:9 | only the first "Bearer " is removed |
| ClientCart.FindItem | ShopLink_Frontend/script.js:434 | `cart.find` returns the first item with that id, or none |
| ClientCart.FindUnique | ShopLink_Frontend/script.js:434 | in a cart with one item per id, the lookup finds that item |
| ClientCart.SumUpdate | ShopLink_Frontend/script.js:436 | changing one item changes a sum over the cart by the difference |
| ClientCart.SumAppend | ShopLink_Frontend/script.js:438 | sums over the cart split over concatenation |
| ClientCart.ModalTotal | ShopLink_Frontend/script.js:485-489 | the modal's running total is the sum of price × quantity over the items |
| ClientCart.CheckoutLines | ShopLink_Frontend/script.js:592 | one checkout line per cart item |
| ClientCart.AddToCartEffects | ShopLink_Frontend/script.js:433-442 | adding keeps one item per id, puts the product in the cart, raises the count by one and the total by the item's price, and grows the cart only for a new product |
| ClientCart.WithoutIdMembers | ShopLink_Frontend/script.js:458 | the filter keeps exactly the items with another id |
| ClientCart.WithoutIdAbsent | ShopLink_Frontend/script.js:458 | no item with the removed id is left |
| ClientCart.WithoutIdAppend | ShopLink_Frontend/script.js:458 | the filter keeps the other items in their order |
| ClientCart.WithoutAbsentId | ShopLink_Frontend/script.js:457-461 | removing an id not in the cart changes nothing |
| ClientCart.WithoutIdKeepsUnique | ShopLink_Frontend/script.js:458 | removing keeps one item per id |
| ClientCart.CountSplit | ShopLink_Frontend/script.js:478 | the count is what the filter keeps plus what the checkout lines ask of the id |
| ClientCart.CheckoutLinesOfUniqueCart | ShopLink_Frontend/script.js:592 | the checkout lines of a cart with one item per id name each product once, with that item's quantity |
| ClientCart.RemoveEffects | ShopLink_Frontend/script.js:457-461 | removing keeps one item per id, leaves none with that id and lowers the count by its quantity |
| ClientCart.QuantityChangeEffects | ShopLink_Frontend/script.js:444-455 | an unknown id changes nothing; a quantity that stays positive moves the count by `change`; one at zero or below takes the item out |
| ClientCart.WithoutIdOfUpdated | ShopLink_Frontend/script.js:446-450 | filtering after the in-place quantity change removes the same items as filtering before it |
| ClientCart.ItemsPayloadUnread | ShopLink_Frontend/script.js:594 | the body the storefront sends has no `cartItems` key, so the checkout route reads no cart from it |
| ClientCart.CorrectedPayloadCarriesCart | ShopLink_Backend/routes/customerRoutes.js:93 | the same lines under `cartItems` reach the route as a non-empty list naming each product once with its cart quantity |
| ClientCart.Storefront.constructor | ShopLink_Frontend/script.js:6-9 | a page load restores the token, user and user type from storage, empty items reading as none, shows the user type's view or the login form, and restores the saved cart as line 285 does |
| ClientCart.Storefront.UpdateCartCount | ShopLink_Frontend/script.js:474-481 | the badge, when on screen, shows the number of units in the cart |
| ClientCart.Storefront.SaveCart | ShopLink_Frontend/script.js:469-472 | the cart is written to storage and the badge refreshed |
| ClientCart.Storefront.AddToCart | ShopLink_Frontend/script.js:433-442 | the cart becomes the old cart with the product added, and is saved |
| ClientCart.Storefront.UpdateCartItemQuantity | ShopLink_Frontend/script.js:444-455 | the cart becomes the old cart with the quantity changed, and is saved even for an unknown id |
| ClientCart.Storefront.RemoveFromCart | ShopLink_Frontend/script.js:457-461 | the cart becomes the old cart without that id, and is saved |
| ClientCart.Storefront.ClearCart | ShopLink_Frontend/script.js:463-467 | the cart is empty, its storage entry removed and the badge shows 0 |
| ClientCart.Storefront.HandleCheckout | ShopLink_Frontend/script.js:585-601 | nothing is sent for an empty cart; otherwise the item lines are posted; an ok answer clears the cart and keeps the session; a 401 or 403 logs out (storage wiped, session gone, in-memory cart kept); any other answer changes nothing |
| ClientCart.Storefront.UpdateAppState | ShopLink_Frontend/script.js:107-122 | a truthy token stores token, user and user type; any other token wipes storage |
| ClientCart.Storefront.HandleLogout | ShopLink_Frontend/script.js:124-127 | logging out wipes storage, saved cart included, while the in-memory cart stays |
| ClientCart.SessionSurvivesReload | ShopLink_Frontend/script.js:107-122 | after a login with a non-empty user type, a page load finds the same token, user and user type again, and the saved cart untouched |
| ClientCart.ReloadAfterLogout | ShopLink_Frontend/script.js:284-285 | a page load after storage is wiped starts logged out and with an empty cart |
| CartComponent.OrderDetailsFor | ShopLink_Frontend/Cart.js:10-20 | no request for an empty cart; otherwise the first item's shop, every item as a line in order, and the panel's total |
| CartComponent.OrderLinesFollowCart | ShopLink_Frontend/Cart.js:18 | the request's i-th line is the i-th cart item's product and quantity |
| CartComponent.MixedShopCartNamesFirstShop | ShopLink_Frontend/Cart.js:17 | a cart with products of two shops is posted under the first item's shop only |
| CartComponent.OrderTotalSplits | ShopLink_Frontend/Cart.js:8-19 | the posted total is the sum of price × quantity over all items |
| CartComponent.CartAfterSubmit | ShopLink_Frontend/Cart.js:27-32 | after an ok answer nothing is left to order and the cart's total and count are 0; after a failure the panel would post the same order and show the same total |
| CheckoutFindings.DuplicateLinesOversell | ShopLink_Backend/routes/customerRoutes.js:103-154 | two lines of 3 for a product with stock 5 both pass, and the stock ends at −1 |
| CheckoutFindings.NonPositiveQuantityRestocks | ShopLink_Backend/routes/customerRoutes.js:106 | a line of −4 passes on stock 0, and the stock ends at 4 |
| CheckoutFindings.CorrectedFirstRejection | ShopLink_Backend/routes/customerRoutes.js:103-108 | the corrected check accepts exactly when every line's product exists, every quantity is positive and each product's total over the cart fits its stock; otherwise it names the first line that fails |
| CheckoutFindings.RequestedNonNegative | ShopLink_Backend/routes/customerRoutes.js:150-154 | positive quantities never ask for a negative amount |
| CheckoutFindings.CorrectedCheckKeepsStock | ShopLink_Backend/models/Product.js:34-38 | under the corrected check no stock goes below zero and none goes up |
| CheckoutFindings.CorrectedAgreesOnSimpleCarts | ShopLink_Backend/routes/customerRoutes.js:103-108 | with one positive line per product the corrected check and the shipped one agree |

## Left out

- The check-then-write sequence runs as one step. Concurrent requests, the
  missing transaction, and a failure between two writes of the checkout are
  not modelled. The `catch` blocks' 500 answers for database failures are
  not modelled either.
- Sorting by `orderDate` in the order listing and in the report is left out.
  Both are stated over the orders in storage order (`OrdersOfShopAppend`).
- Store.Database.Valid: the product schema's `min: 0` on `stockQuantity` is
  not part of the invariant. The checkout as written can drive stock below 0
  (the first two findings), so the stored table keeps every product
  validator except that one.
- `trim` on schema strings is not modelled. JSON `null`, non-numeric values
  and casts of malformed ObjectIds are not modelled either. Every field is
  either undefined (`None`) or a well-typed value.
- `createdAt` defaults, `toFixed(2)` formatting and floating-point prices
  are left out. Money is integer cents.
- The monthly aggregation pipeline of `GET /owner/analytics/sales` is not
  part of this model. It is database-side, with timezone-dependent month and
  year operators.
- The browse and search routes of the customer router are not modelled. The
  search uses a regular expression built from user input.
- The 501 `POST /cart` placeholder and `GET /customer/orders` are not
  modelled.
- bcrypt, `jwt.sign` and `jwt.verify` are opaque function parameters. Salts,
  expiry and the secret are not modelled.
- AuthRoutes.CustomerLogin: login with an undefined phone is not modelled.
  `findOne({ phone: undefined })` matches any document, and the model takes
  the phone as a string.
- AuthRoutes.OwnerLogin: the model takes the registration id as a string in
  the same way. An undefined password is modelled for both logins.
- The Mongo unique indexes are a precondition of the insert methods, not a
  second error path. The route checks come first, and the model states that
  they leave the indexes satisfied.
- OwnerRoutes.UpdateProduct: the update validators run before the lookup,
  so an invalid update answers 500 even for a product that is not the
  caller's. The model keeps that order.
- HTTP plumbing, rendering, `showMessage`, the fetch retry loop and the
  React context are UI or I/O.
  - The badge's presence on screen is a field.
  - The server's answer to the storefront checkout is a function parameter
    giving the status `secureFetch` ends with; a network failure after the
    retries is its 500.
  - The − and + buttons of `Cart.js` call the React context's
    `updateCartItemQuantity` with the target quantity. The context is not
    part of this model, so what those calls do is not stated.
  - The order-history refresh after checkout is not modelled.
- `Cart.js` posts to `POST /customer/orders`, which the customer router
  does not define. The model stops at the request body.
- ClientCart.Storefront.HandleCheckout and CustomerRoutes.Checkout model
  the code as written. The corrected payload and the corrected stock check
  are stated and proved beside them, and the handlers do not use them.

## Findings

| source | as written | input that shows it | evidently intended | confidence | as-written member | corrected member |
|---|---|---|---|---|---|---|
| ShopLink_Backend/routes/customerRoutes.js:103-154 | each line is checked against the stock read before any write, then each line is deducted separately | stock 5, lines `[(1, 3), (1, 3)]`: both pass and the stock ends at −1 | the cart's total for each product must fit its stock, so stock never goes below the schema's minimum 0 | not executed | CheckoutFindings.DuplicateLinesOversell | CheckoutFindings.CorrectedCheckKeepsStock |
| ShopLink_Backend/routes/customerRoutes.js:106 | `stockQuantity < quantity` accepts any negative quantity, and `$inc` by its negation adds stock | stock 0, line `(1, −4)`: passes and the stock ends at 4 | quantities must be positive, so a checkout never raises stock | not executed | CheckoutFindings.NonPositiveQuantityRestocks | CheckoutFindings.CorrectedFirstRejection |
| ShopLink_Frontend/script.js:594 | the storefront posts `{ items: [...] }`, while the route reads `cartItems` (ShopLink_Backend/routes/customerRoutes.js:93) | any non-empty cart: the route sees no `cartItems` and answers 400 "Cart is empty." | the lines go under `cartItems` | not executed | ClientCart.ItemsPayloadUnread | ClientCart.CorrectedPayloadCarriesCart |
