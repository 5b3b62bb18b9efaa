# E-commerce API core, modelled in Dafny

This project models the core of a small Express/MongoDB e-commerce backend: the shopping cart,
checkout and order listing, the product catalog's guards and searches, the account rules, and
the token gate in front of the routes. Each handler becomes a Dafny operation that returns a
`Result`: either the payload or a `Failure(status, message)` carrying the HTTP status and the
exact error text the handler sends. Every handler leaves the stores unchanged when it answers with
an error. The one exception is checkout, which deletes the cart before it saves the order.

Modules, following the program's files:

- `Records` (`records.dfy`): identifiers, `Option`, `Result`, `Failure`, the token `Claims` and the
  stored `User`.
- `Catalog` (`catalog.dfy`): `controllers/product.js`. Pure checks and queries over the product
  map, and a `ProductCollection` class whose methods insert and update products in place.
- `CartSpec` (`cart_spec.dfy`): what `controllers/cart.js` does to one cart, as functions on
  values. `totalPrice` is kept by deltas, as the controller keeps it. The lemmas relate it to
  Σ subtotal. `Gap(c) = totalPrice − Σ subtotal`, and a cart is `Consistent` when its gap is 0
  and it holds at most one entry per product.
- `Carts` (`carts.dfy`): `controllers/cart.js` as it runs. The `isDataValid` loop with its
  `break` is a method. `CartDocument` is a loaded cart whose two fields the handler loops change
  in place. Each loop is proved against the `CartSpec` function that specifies it. The
  `CartCollection` class holds the carts map, keyed by user.
- `Orders` (`orders.dfy`): `controllers/order.js`. The `reduce` total and the `map` snapshot are
  functions. `OrderCollection` holds the order list, and its `Checkout` deletes from the carts map.
- `Auth` (`auth.js` → `auth.dfy`): the token claims, `verifyToken` and `verifyAdmin`, and their
  composition on admin-only routes.
- `Accounts` (`accounts.dfy`): `controllers/user.js`. The registration checks, login and the
  password-free profile are functions. `UserCollection` registers users, elevates them to admin
  and changes passwords in place.

Outside code is passed in as parameters:

- The token library's `sign` and `verify`, and the password library's `hash` and `compare`, are
  function-typed parameters.
- The id a new document receives is a `newId` parameter. Saving under an id that is already
  taken is the store's save failure (500).
- Whether checkout's order save succeeds is a `saveOk` parameter.

Behaviour that the model follows from the code:

- Cart handlers look products up by id and do not check `isActive`. An archived product can still
  be added, and so can a product whose price is not a number.
- Price search does not look at `isActive` either.
- A request quantity may be negative or zero. The models of `addToCart` and `updateCartQuantity`
  take any integer, because `isDataValid` only asks that the quantity be present.

## Model

| member | source | states |
|---|---|---|
| Carts.IsDataValid | controllers/cart.js:6-31 | The request is accepted exactly when `cartItems` is present, has at least one entry, and every entry has a non-empty productId and a quantity. An empty list is rejected because the verdict is never set. |
| Carts.CartCollection.GetCart | controllers/cart.js:34-45 | An admin gets 403, a user without a cart gets 404 "User does not have a cart", and any other user gets the stored cart. |
| Carts.CartDocument.MergeLine | controllers/cart.js:84-99 | One loop pass leaves the document equal to `AddLine` of its previous state: an existing entry gains the quantity and the subtotal price × quantity, a new product is pushed, and the total grows by that subtotal. |
| Carts.CartDocument.MergeLines | controllers/cart.js:73-100 | The in-place loop over the request leaves the document equal to `AddLines` of the loaded cart. It stops at the first unknown product with that product's 404. |
| Carts.CartCollection.AddToCart | controllers/cart.js:55-121 | An admin gets 403 and an invalid request 400. Otherwise the result is the merge of the lines into the user's cart, or into an empty cart with total 0 when there is none. The cart is stored only on success, and any error leaves the carts map unchanged. Consistent stored carts stay consistent. |
| Carts.CartDocument.ReplaceLine | controllers/cart.js:154-178 | One loop pass, with line 178 corrected, leaves the document equal to `UpdateLineIntended` of its previous state: append when absent and positive, splice out when present and not positive, replace otherwise. |
| Carts.CartDocument.ReplaceLines | controllers/cart.js:143-179 | The in-place loop leaves the document equal to `UpdateLinesIntended` of the loaded cart. This is the loop with line 178 corrected (see Findings). An unknown product stops it with 404. |
| Carts.CartCollection.UpdateCartQuantity | controllers/cart.js:125-200 | The checks come in this order: 403, 400, then 404 "Cart not found for the user". Otherwise the lines replace, remove or append entries, and the cart is saved only on success. The stored total follows line 178 corrected (`UpdateLinesIntended`), so consistent stored carts stay consistent. The code as written (`UpdateLines`) fails on the same requests and builds the same items, with the total plus the request's drift, Σ price × quantity over its negative lines (`WrittenAnswer`); without negative quantities the answers are equal. |
| Carts.CartDocument.RemoveEntries | controllers/cart.js:216-229 | The count of removed entries equals the number of entries for the product. The total drops by the sum of their subtotals. With none, the items are unchanged; otherwise the filter leaves exactly the entries of other products (`Without`). |
| Carts.CartCollection.RemoveFromCart | controllers/cart.js:204-233 | An admin gets 403 and a missing cart 404. Otherwise the result is `RemoveProduct`, whose failure is 404 "Product not found in cart". The cart is stored only on success and consistency is kept. |
| Carts.CartCollection.ClearCart | controllers/cart.js:255-276 | An admin gets 403 and a missing cart 404. A cart with no items gets 404 "Cart has no items to clear". Otherwise the cart becomes empty with total 0. |
| Carts.CartCollection.DeleteOne | controllers/order.js:38 | The caller's cart leaves the carts map and every other cart stays. |
| CartSpec.FindIndex | controllers/cart.js:87 | Returns the first position holding the product, or -1 exactly when no entry holds it. |
| CartSpec.AddLine | controllers/cart.js:84-99 | Definition of one merge pass: an existing entry gains quantity and subtotal price × quantity, an absent product is pushed, and the total grows by the subtotal. Its properties are stated by `AddLineKeeps` and `AddLineLookup`. |
| CartSpec.AddLineKeeps | controllers/cart.js:84-99 | Merging one line raises the total by price × quantity. It leaves `totalPrice − Σ subtotal` unchanged and keeps one entry per product. |
| CartSpec.AddLineLookup | controllers/cart.js:87-96 | A product already in the cart has the quantity and the subtotal added to its entry. A new product gets an entry of its own. Every other product's entry is unchanged. |
| CartSpec.AddLines | controllers/cart.js:73-100 | Definition of the merge loop: lines in request order, the first unknown product ends it with 404 "Product with ID … not found". Its properties are stated by `AddLinesKeeps`. |
| CartSpec.AddLinesKeeps | controllers/cart.js:73-100 | `addToCart` succeeds exactly when every product is in the catalog. The total then grows by Σ price × quantity over the request and the gap is unchanged. Entries stay unique per product, even when the request names a product twice. |
| CartSpec.AddLinesConsistent | controllers/cart.js:84-99 | A consistent cart stays consistent through `addToCart`. |
| CartSpec.AddTwiceMerges | controllers/cart.js:87-96 | Adding 2 and then 3 of one product to an empty cart gives a single entry of 5 at 5 × price. |
| CartSpec.UpdateLine | controllers/cart.js:154-178 | Definition of one update pass as written, line 178 included: the new subtotal is added to the total in every branch. Its properties are stated by `UpdateLineKeeps` and `UpdateLineLookup`. |
| CartSpec.UpdateLineKeeps | controllers/cart.js:154-178 | One update line keeps entries unique. It shifts the gap by price × quantity when the quantity is ≤ 0, and by nothing otherwise. |
| CartSpec.UpdateLineLookup | controllers/cart.js:157-175 | The update replaces: a positive quantity becomes the product's entry, a quantity ≤ 0 leaves no entry, and other products keep theirs. |
| CartSpec.UpdateLines | controllers/cart.js:143-179 | Definition of the update loop as written: lines in request order, the first unknown product ends it with 404. Its properties are stated by `UpdateLinesKeeps`. |
| CartSpec.UpdateLinesKeeps | controllers/cart.js:143-179 | `updateCartQuantity` succeeds exactly when every product is known. It keeps entries unique and moves the gap by exactly the request's drift, which is Σ price × quantity over the lines with quantity ≤ 0. |
| CartSpec.NoDriftWithoutNegatives | controllers/cart.js:160-178 | A request without negative quantities has drift 0. |
| CartSpec.UpdateLinesConsistent | controllers/cart.js:143-179 | With no negative quantity, a consistent cart stays consistent through `updateCartQuantity`. |
| CartSpec.ZeroQuantityRemoves | controllers/cart.js:164-167 | Setting the only entry's quantity to 0 removes it and brings the total to 0. |
| CartSpec.NegativeQuantityDrifts | controllers/cart.js:159-178 | Quantity -1 of an absent product priced 10 adds no entry but takes 10 off the total, so the cart is no longer consistent. |
| CartSpec.UpdateLineIntended | controllers/cart.js:154-178 | The update with line 178 corrected changes the items exactly as the written update does, and leaves a total lower by that line's drift (price × quantity when the quantity is ≤ 0, else 0). |
| CartSpec.UpdateLineIntendedKeeps | controllers/cart.js:159-178 | The corrected update keeps the gap and entry uniqueness for every quantity. |
| CartSpec.IntendedAgreesOnNonNegative | controllers/cart.js:159-178 | For quantities ≥ 0 the corrected update and the written one agree. |
| CartSpec.UpdateLinesIntended | controllers/cart.js:143-179 | Definition of the update loop with the corrected line 178; the same order and the same 404 as the written loop. Its properties are stated by `UpdateLinesIntendedKeeps` and `UpdateLinesVersusIntended`. |
| CartSpec.UpdateLinesIntendedKeeps | controllers/cart.js:143-179 | The corrected loop succeeds exactly when every product is known. It keeps the gap and entry uniqueness for any quantities. |
| CartSpec.IntendedLinesAgreeOnNonNegative | controllers/cart.js:143-179 | On a request without negative quantities the corrected loop and the written one give the same answer. |
| CartSpec.UpdateLineVersusIntended | controllers/cart.js:154-178 | From carts with the same items, one written pass and one corrected pass give the same items. The written total keeps its starting offset and gains the line's drift. |
| CartSpec.UpdateLinesVersusIntended | controllers/cart.js:143-179 | From carts with the same items, the written loop and the corrected loop fail alike, with the same failure, and otherwise build the same items. The written total keeps its starting offset and gains the request's drift. |
| CartSpec.IntendedVersusWritten | controllers/cart.js:143-179 | From one cart, the written answer fails exactly when the corrected one does. Otherwise it is the corrected cart with the request's drift added to the total. |
| CartSpec.SumSplit | controllers/cart.js:218-227 | Σ subtotal splits into the product's entries and the rest, and so do the counts. |
| CartSpec.WithoutMembers | controllers/cart.js:224-226 | The filter keeps exactly the entries of other products. |
| CartSpec.MatchingMembers | controllers/cart.js:219 | The entries the loop matches are exactly the product's entries. |
| CartSpec.WithoutIdempotent | controllers/cart.js:218-227 | Filtering again when the loop meets a second matching entry changes nothing. |
| CartSpec.WithoutUnique | controllers/cart.js:224-226 | The filter keeps one entry per product. |
| CartSpec.RemoveProduct | controllers/cart.js:216-233 | Definition of removal on a found cart: every entry of the product goes, their subtotals leave the total, and no entry is 404 "Product not found in cart". Its properties are stated by `RemoveProductKeeps`. |
| CartSpec.RemoveProductKeeps | controllers/cart.js:216-233 | Removal succeeds exactly when some entry has the product. Afterwards the items are exactly the other products' entries, the gap is unchanged and uniqueness is kept. |
| Orders.Reduce | controllers/order.js:24 | Definition of the `reduce` fold from the front. Its value is stated by `ReduceIsSum`. |
| Orders.ReduceIsSum | controllers/order.js:24 | The left fold `reduce` from any start adds that start to Σ subtotal. |
| Orders.Snapshot | controllers/order.js:29-33 | The `map` copy has one entry per cart entry. `SnapshotRoundTrip` states it keeps each entry's product, quantity and subtotal in order. |
| Orders.SnapshotRoundTrip | controllers/order.js:29-33 | The copied `productsOrdered`, read back, are the cart's entries: same length, order and fields. |
| Orders.NewOrder | controllers/order.js:24-35 | The order belongs to the caller, has status "Pending" and costs Σ subtotal. Its entries are the cart's. |
| Orders.OrderChargesSubtotals | controllers/order.js:24 | The order total is the cart's `totalPrice` minus its gap. The two are equal on a consistent cart. |
| Orders.DriftedCartChargesSubtotals | controllers/order.js:24 | Consider a cart brought to total 0 by a negative-quantity update while it still holds an entry of 10. Its checkout charges 10. |
| Orders.OrdersOf | controllers/order.js:65 | Each of the user's stored orders appears as many times as it is stored, and no other order appears. The list keeps stored order: `OrdersOfAppend` adds each new order at the end. |
| Orders.OrdersOfStep | controllers/order.js:65 | One more stored order keeps the per-order counts and membership of the user's list. |
| Orders.OrdersOfAppend | controllers/order.js:65 | A saved order joins its owner's list at the end and nobody else's. |
| Orders.OrderCollection.Checkout | controllers/order.js:6-56 | An admin gets 403, a missing cart 404 and an empty cart 404, each with nothing changed. Otherwise the cart is deleted. A successful save appends `NewOrder` and returns it. A failed save answers 500 with no order, and the cart is still gone. |
| Orders.OrderCollection.GetOrders | controllers/order.js:60-71 | An admin gets 403. Otherwise the answer is exactly `OrdersOf` the caller: every order of theirs, as often as stored, in stored order. When they have none it is "User has no orders". |
| Orders.OrderCollection.GetAllOrders | controllers/order.js:83-89 | Every stored order is returned unfiltered, or "No orders found" when there is none. |
| Orders.CartGoneAfterCheckout | controllers/order.js:38-51 | After a customer's checkout, whatever it answered, `getCart` finds no cart. The customer's cart, if any, must be non-empty. |
| Catalog.IsDataValid | controllers/product.js:5-12 | Definition: name and description present and non-empty, and a price given. `CreateProduct` and `UpdateProduct` state the 400 it leads to. |
| Catalog.Archive | controllers/product.js:152-166 | Only an active product is archived, and only its flag changes. An inactive one gets 409. |
| Catalog.Activate | controllers/product.js:187-201 | Only an inactive product is activated, and only its flag changes. An active one gets 409. |
| Catalog.ArchiveTwice | controllers/product.js:152-166 | Archiving twice: success, then 409. |
| Catalog.ActivateTwice | controllers/product.js:187-201 | Activating twice: success, then 409. |
| Catalog.ArchiveThenActivate | controllers/product.js:152-201 | Archiving and then activating gives back the product as it was. |
| Catalog.ActiveProducts | controllers/product.js:77 | The result holds exactly the products whose `isActive` is true, unchanged. |
| Catalog.SearchByName | controllers/product.js:214-229 | A missing name gets 400. Otherwise the result is exactly the products with that exact name, or 404 when none has it. |
| Catalog.SearchByPrice | controllers/product.js:235-260 | The checks come in order: missing bound 400, non-numeric bound 400, min > max 400. Otherwise the result is exactly the products priced in [min, max], and it is non-empty exactly when some product is in range, else 404. |
| Catalog.ProductCollection.CreateProduct | controllers/product.js:15-53 | The checks come in order: missing field 400, existing name 409, non-numeric price 400. Otherwise the product is stored active with exactly the given fields. Errors store nothing. |
| Catalog.ProductCollection.UpdateProduct | controllers/product.js:113-137 | All three fields are required (400). A price that does not cast gets 500 and an absent product 404. Otherwise name, description and price are replaced and `isActive` is kept. |
| Catalog.ProductCollection.ArchiveProduct | controllers/product.js:147-167 | An absent product gets 404. Otherwise the result is `Archive` of the stored product, stored only on success. |
| Catalog.ProductCollection.ActivateProduct | controllers/product.js:182-202 | An absent product gets 404. Otherwise the result is `Activate` of the stored product, stored only on success. |
| Accounts.FindOne | controllers/user.js:51 | Returns the first stored user answering the email or id query, or -1 exactly when none does. |
| Accounts.FindOneAppend | controllers/user.js:51-62 | A new user at the end changes no lookup that an earlier user already answers. |
| Accounts.FindOneSameKeys | controllers/user.js:171 | Updates that keep ids and emails leave every lookup where it was. |
| Accounts.RegistrationError | controllers/user.js:33-48 | Registration passes exactly when all five fields are non-empty, the email has an `@`, the mobile number has 11 characters and the password at least 8. Every refusal is a 400. |
| Accounts.MissingFieldFirst | controllers/user.js:33-42 | A missing field is reported as "Invalid input" before any format check. |
| Accounts.EmailCheckedFirst | controllers/user.js:42-48 | An email without `@` is reported before the mobile number and password checks. |
| Accounts.MobileCheckedBeforePassword | controllers/user.js:44-47 | With every field present and an `@` in the email, a mobile number of the wrong length is reported as "Invalid mobile number", whatever the password. |
| Accounts.WithoutPassword | controllers/user.js:148 | The profile keeps id, email and admin flag and has no password field. |
| Accounts.ProfileHidesPassword | controllers/user.js:148 | Users that differ only in their password have the same profile. |
| Accounts.UserAuthentication | controllers/user.js:103-139 | The answers are, in order: missing field 400, no `@` 400 "Invalid email entered", unknown email 403. Then the login succeeds exactly when the password matches the first such user's hash, and yields that user's token; a mismatch is 401. |
| Accounts.RegisteredUserCanLogIn | controllers/user.js:54-60 | Take a user stored with the hash of a password under a fresh email. They log in with that password and get a token of their own claims. |
| Accounts.RetrieveUserDetails | controllers/user.js:143-152 | A caller who is not stored gets 404 "No user found.". Otherwise the answer is a stored user's profile, with the caller's id and no password. |
| Accounts.UserCollection.UserRegistration | controllers/user.js:31-98 | The registration checks come first, then a used email gets 409. A new user is appended with the hash of the password and `isAdmin` false. Errors store nothing, and unique ids and emails are kept. |
| Accounts.UserCollection.UpdateUserAsAdmin | controllers/user.js:162-194 | An absent user gets 500 and an admin 409. Otherwise only that user's flag rises and the answer is the profile without the password. Unique keys are kept. |
| Accounts.UserCollection.UpdatePassword | controllers/user.js:198-245 | An empty password gets 400 and an absent caller 404. Otherwise only the caller's stored password changes, to the hash of the new one. |
| Accounts.ElevateTwice | controllers/user.js:166-188 | Right after an elevation succeeds, elevating the same user again gets 409. |
| Auth.TokenClaims | auth.js:10-14 | The token claims are exactly the user's id, email and admin flag. |
| Auth.CreateAccessToken | auth.js:8-17 | Definition: the signer applied to `TokenClaims` of the user. `CreatedTokenVerifies` states what it yields. |
| Auth.TokenOf | auth.js:27 | The token is the header minus its first seven characters, or "" when the header is shorter. |
| Auth.StripsBearer | auth.js:27 | The slice removes exactly a `"Bearer "` prefix. |
| Auth.VerifyToken | auth.js:20-42 | A missing header gets 401 "Failed. No token.". A rejected token gets 500 with the library's message. A decoded token passes on its claims. |
| Auth.MissingHeaderNeverVerifies | auth.js:24-25 | Without a header the outcome is 401 whatever the verifier would say, so it is never consulted. |
| Auth.BadTokenIsNot401 | auth.js:29-35 | A verification failure is a 500, not a 401. |
| Auth.CreatedTokenVerifies | auth.js:8-38 | When `verify` undoes `sign`, the header "Bearer " + a created token passes with exactly the user's claims. |
| Auth.VerifyAdmin | auth.js:45-55 | The request passes exactly when the claims say admin, with the same claims. Otherwise it gets 403 "Access Forbidden". |
| Auth.AdminGate | routes/order.js:16 | Definition of the `verifyToken, verifyAdmin` chain on an admin route. Its properties are stated by `AdminGateOrder`. |
| Auth.AdminGateOrder | routes/order.js:16 | On admin routes a missing token gets 401 before any role check. The request passes exactly when its verified claims are an admin's, and a token failure is kept as it is. |

## Left out

- Store failures: every `catch` branch answering 500 after a failed find or save is not modelled. The exceptions are checkout's failed order save (`saveOk`) and a save under a taken id for a new product or user (`newId`).
- Malformed ids: `findById` on a string that is not a valid ObjectId throws a cast error (500). The model treats such an id as absent.
- Numbers: prices, quantities and subtotals are JavaScript numbers in the program and integers here, so sums are exact. These are not modelled: `Number(quantity)` on merge against the raw quantity on push, `isNaN` on strings, and the string comparison of `minPrice > maxPrice` when the body sends strings.
- Non-array `cartItems`: a string or object body field, which `for…of` would iterate or reject, is not modelled. `cartItems` is a list of entries or missing.
- Success statuses (200, 201) are not modelled. A success is `Ok` with the payload. Two handlers whose payload is a message keep it: registration answers `Ok(REGISTERED)` ("User registered successfully!") and the password change `Ok(PASSWORD_RESET)` ("Password reset successfully").
- Carts.CartDocument.ReplaceLine: follows line 178 corrected, not as written. On a negative quantity the program's total ends price × quantity below the model's (present product or not); on other quantities they agree. `CartSpec.UpdateLineVersusIntended` states the difference.
- Carts.CartDocument.ReplaceLines: follows line 178 corrected, so the program's total is the model's plus the request's drift, Σ price × quantity over its negative lines. `CartSpec.UpdateLinesVersusIntended` states the difference.
- Carts.CartCollection.UpdateCartQuantity: stores the corrected cart. The program would store the same items with the total plus `Drift` (stated as `WrittenAnswer`). Its consistency clause holds for the corrected store on every request; the program keeps consistency only without negative quantities (`CartSpec.UpdateLinesConsistent`).
- Accounts.RegistrationError: lengths count characters (`|s|`), while JavaScript's `.length` counts UTF-16 code units. They differ outside the Basic Multilingual Plane: "😀😀😀😀" is 8 units in the program and 4 characters here, so the model rejects it as short. The 11-character mobile check differs in the same way.
- Catalog.ActiveProducts: an empty map stands for the 200 answer "No active products found".
- Timestamps: `orderedOn` defaults are not modelled.
- Hashing: `hash` is a function parameter, so the same password hashes the same way. The salting of the real library is not modelled. `compare` is a separate parameter that stands for checking a password against a stored hash.
- Email: notification mail after registration and after a password change is not modelled. Its outcome does not affect the answer in either handler.
- Accounts.UserCollection.UpdateUserAsAdmin: the 404 "Setting user as an Admin failed" branch is left out, because it needs the user to disappear between the two store calls.
- Accounts.RetrieveUserDetails: says the profile is some stored user's with the caller's id, not which one. Under `UniqueKeys` only one user has that id.
- `retrieveAllProducts` and `getProduct` are outside the modelled core.
- The route that names an undefined `retrieveAllUsers` handler is outside the modelled core.
- models/User.js and models/Product.js are not part of this model. New products are stored with `isActive` true and new users with `isAdmin` false, as the handlers rely on.
- Concurrency: the handlers `await` between reads and writes, and two requests on the same cart are last-writer-wins. The model runs each handler alone.
- Express wiring: `req`/`res` objects and the attachment of `req.user` are not modelled. The gate's decision returns the claims instead.

## Findings

| source | as written | input that shows it | evidently intended | confidence | as-written member | corrected member |
|---|---|---|---|---|---|---|
| controllers/cart.js:178 | `totalPrice += subtotal` runs after every branch, including the ones that add no entry (absent product, quantity ≤ 0) or remove one. | An empty cart, and `updateCartQuantity` with quantity -1 of a catalog product priced 10 that the cart does not hold: no entry is added and the total becomes -10. | The new subtotal enters the total only when an entry with that subtotal is kept or added, so `totalPrice == Σ subtotal` holds for every quantity. | not executed | CartSpec.NegativeQuantityDrifts | CartSpec.UpdateLineIntendedKeeps |

`CartSpec.UpdateLine` and `CartSpec.UpdateLines` model the update as written. `CartSpec.UpdateLinesKeeps`
measures the drift they cause, and `CartSpec.UpdateLinesConsistent` gives their guarantee for requests
without negative quantities. The store method `Carts.CartCollection.UpdateCartQuantity` uses the
corrected update, so consistency is an invariant of the stored carts. Its contract also states the
program's own answer (`CartSpec.WrittenAnswer`): the same success or failure and the same items, with
the total plus the request's drift. `CartSpec.IntendedLinesAgreeOnNonNegative` shows the two
answers are equal on every request without negative quantities.
`Orders.DriftedCartChargesSubtotals` shows where the drift of the written code surfaces: checkout
charges the subtotals, not the drifted total.
