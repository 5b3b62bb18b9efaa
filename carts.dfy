/**
 * The cart controller (controllers/cart.js) as it runs: request validation, and the
 * handlers that load a user's cart document, change its fields in place line by line,
 * and save it back into the `carts` collection.
 */
module Carts {
  import opened Records
  import Catalog
  import opened CartSpec

  /** One raw entry of `cartItems`; `None` stands for a field that is null or undefined. */
  datatype RequestLine = RequestLine(productId: Option<string>, quantity: Option<int>)

  /** A cart request body; `cartItems` is `None` when the body or the field is null, undefined or "". */
  datatype CartRequest = CartRequest(cartItems: Option<seq<RequestLine>>)

  const NO_CART := Failure(404, "User does not have a cart")
  const CART_NOT_FOUND := Failure(404, "Cart not found for the user")
  const NOTHING_TO_CLEAR := Failure(404, "Cart has no items to clear")

  /** An entry names a product and gives a quantity (0 counts as given). */
  predicate LineValid(l: RequestLine)
  {
    Present(l.productId) && l.quantity.Some?
  }

  /** A usable request: `cartItems` is there, is not empty, and each entry is complete. */
  predicate RequestValid(req: CartRequest)
  {
    req.cartItems.Some? && |req.cartItems.value| > 0 &&
    forall k :: 0 <= k < |req.cartItems.value| ==> LineValid(req.cartItems.value[k])
  }

  /** No entry of the request asks for a negative quantity. */
  predicate NoNegativeQuantity(req: CartRequest)
  {
    req.cartItems.Some? ==>
      forall k :: 0 <= k < |req.cartItems.value| && req.cartItems.value[k].quantity.Some? ==>
        req.cartItems.value[k].quantity.value >= 0
  }

  /**
   * `isDataValid`: the loop stops at the first incomplete entry; an empty `cartItems`
   * leaves the verdict undefined, which the final `&&` turns into a rejection.
   */
  method IsDataValid(req: CartRequest) returns (valid: bool)
    ensures valid == RequestValid(req)
  {
    if req.cartItems.None? {
      return false;
    }
    var entries := req.cartItems.value;
    var cartItemsValidity: Option<bool> := None;
    var i := 0;
    while i < |entries|
      invariant 0 <= i <= |entries|
      invariant cartItemsValidity == if i == 0 then None else Some(true)
      invariant forall k :: 0 <= k < i ==> LineValid(entries[k])
    {
      cartItemsValidity := Some(LineValid(entries[i]));
      if !LineValid(entries[i]) {
        break;
      }
      i := i + 1;
    }
    valid := cartItemsValidity == Some(true);
  }

  /** The typed lines of a valid request, in request order. */
  function LinesOf(entries: seq<RequestLine>): (lines: seq<Line>)
    requires forall k :: 0 <= k < |entries| ==> LineValid(entries[k])
    ensures |lines| == |entries|
    ensures forall k :: 0 <= k < |lines| ==>
      LineValid(entries[k]) &&
      lines[k].productId == entries[k].productId.value && lines[k].quantity == entries[k].quantity.value
  {
    seq(|entries|, k requires 0 <= k < |entries| =>
      assert LineValid(entries[k]); Line(entries[k].productId.value, entries[k].quantity.value))
  }

  /** The user's cart, or the empty cart `addToCart` starts when there is none. */
  function Existing(carts: map<UserId, Cart>, user: UserId): Cart
  {
    if user in carts then carts[user] else EMPTY_CART
  }

  /** A cart document loaded from the store; the handlers change its two fields in place. */
  class CartDocument {
    var items: seq<CartItem>
    var totalPrice: int

    constructor (c: Cart)
      ensures items == c.items && totalPrice == c.totalPrice
    {
      items := c.items;
      totalPrice := c.totalPrice;
    }

    function Value(): Cart
      reads this
    {
      Cart(items, totalPrice)
    }

    /**
     * One pass of the `addToCart` loop for a known product (controllers/cart.js:84-99): the
     * subtotal is price × quantity; an existing entry gets quantity and subtotal added in place,
     * a new product is pushed; the total grows by the subtotal.
     */
    method MergeLine(productId: ProductId, quantity: int, price: int)
      modifies this
      ensures Value() == AddLine(old(Value()), Line(productId, quantity), price)
    {
      var subtotal := price * quantity;
      var index := FindIndex(items, productId);
      if index != -1 {
        items := items[index := items[index].(quantity := items[index].quantity + quantity,
                                              subtotal := items[index].subtotal + subtotal)];
      } else {
        items := items + [CartItem(productId, quantity, subtotal)];
      }
      totalPrice := totalPrice + subtotal;
    }

    /**
     * The loop of `addToCart` (controllers/cart.js:73-100): each line's product is looked up
     * and the line merged; an unknown product stops the loop with 404.
     */
    method MergeLines(lines: seq<Line>, products: map<ProductId, Catalog.Product>) returns (r: Result<Cart>)
      modifies this
      ensures r == AddLines(old(Value()), lines, products)
      ensures r.Ok? ==> Value() == r.value
    {
      for i := 0 to |lines|
        invariant AddLines(Value(), lines[i..], products) == AddLines(old(Value()), lines, products)
      {
        var productId, quantity := lines[i].productId, lines[i].quantity;
        if productId !in products {
          return Err(ProductNotFound(productId));
        }
        MergeLine(productId, quantity, products[productId].price);
        assert lines[i..][1..] == lines[i + 1..];
      }
      assert lines[|lines|..] == [];
      r := Ok(Value());
    }

    /**
     * One pass of the `updateCartQuantity` loop for a known product (controllers/cart.js:154-178),
     * with line 178 corrected: append when absent and positive, splice out when present and
     * not positive, replace otherwise; the new subtotal enters the total only where an entry
     * keeps or gains it.
     */
    method ReplaceLine(productId: ProductId, quantity: int, price: int)
      modifies this
      ensures Value() == UpdateLineIntended(old(Value()), Line(productId, quantity), price)
    {
      var subtotal := price * quantity;
      var index := FindIndex(items, productId);
      if index == -1 {
        if quantity > 0 {
          items := items + [CartItem(productId, quantity, subtotal)];
          totalPrice := totalPrice + subtotal;
        }
      } else if quantity <= 0 {
        totalPrice := totalPrice - items[index].subtotal;
        items := items[..index] + items[index + 1..];
      } else {
        totalPrice := totalPrice - items[index].subtotal + subtotal;
        items := items[index := items[index].(quantity := quantity, subtotal := subtotal)];
      }
    }

    /**
     * The loop of `updateCartQuantity` (controllers/cart.js:143-179): each line's product is
     * looked up and the line applied; an unknown product stops the loop with 404.
     */
    method ReplaceLines(lines: seq<Line>, products: map<ProductId, Catalog.Product>) returns (r: Result<Cart>)
      modifies this
      ensures r == UpdateLinesIntended(old(Value()), lines, products)
      ensures r.Ok? ==> Value() == r.value
    {
      for i := 0 to |lines|
        invariant UpdateLinesIntended(Value(), lines[i..], products) == UpdateLinesIntended(old(Value()), lines, products)
      {
        var productId, quantity := lines[i].productId, lines[i].quantity;
        if productId !in products {
          return Err(ProductNotFound(productId));
        }
        ReplaceLine(productId, quantity, products[productId].price);
        assert lines[i..][1..] == lines[i + 1..];
      }
      assert lines[|lines|..] == [];
      r := Ok(Value());
    }

    /**
     * The loop of `removeFromCart` (controllers/cart.js:216-229): it walks the entries as
     * loaded; each entry of the product takes its subtotal off the total and filters the
     * product out of the items (kept in locals and written back once). Returns how many
     * entries matched.
     */
    method RemoveEntries(productId: ProductId) returns (removedItem: nat)
      modifies this
      ensures removedItem == |Matching(old(items), productId)|
      ensures totalPrice == old(totalPrice) - Sum(Matching(old(items), productId))
      ensures removedItem == 0 ==> items == old(items)
      ensures removedItem > 0 ==> items == Without(old(items), productId)
    {
      var loaded, total, kept := items, totalPrice, items;
      removedItem := 0;
      for i := 0 to |loaded|
        modifies {}
        invariant removedItem == |Matching(loaded[..i], productId)|
        invariant total == totalPrice - Sum(Matching(loaded[..i], productId))
        invariant removedItem == 0 ==> kept == loaded
        invariant removedItem > 0 ==> kept == Without(loaded, productId)
      {
        var item := loaded[i];
        MatchingStep(loaded, i, productId);
        if item.productId == productId {
          WithoutIdempotent(loaded, productId);
          total := total - item.subtotal;
          kept := Without(kept, productId);
          removedItem := removedItem + 1;
        }
      }
      assert loaded[..|loaded|] == loaded;
      items, totalPrice := kept, total;
    }
  }

  /** The `carts` collection: at most one cart per user. */
  class CartCollection {
    var carts: map<UserId, Cart>

    constructor ()
      ensures carts == map[]
    {
      carts := map[];
    }

    /** Every stored cart satisfies the cart invariant. */
    predicate AllConsistent()
      reads this
    {
      forall u :: u in carts ==> Consistent(carts[u])
    }

    /** `getCart`: 403 for an admin, 404 when the user has no cart. */
    method GetCart(user: Claims) returns (r: Result<Cart>)
      ensures user.isAdmin ==> r == Err(ACCESS_FORBIDDEN)
      ensures !user.isAdmin && user.id !in carts ==> r == Err(NO_CART)
      ensures !user.isAdmin && user.id in carts ==> r == Ok(carts[user.id])
    {
      if user.isAdmin {
        return Err(ACCESS_FORBIDDEN);
      }
      if user.id !in carts {
        return Err(NO_CART);
      }
      r := Ok(carts[user.id]);
    }

    /**
     * `addToCart`: 403 for an admin, 400 for an invalid request; otherwise the lines are merged
     * into the user's cart (an empty one when there is none) and the cart is saved, unless a
     * product is unknown, which answers 404 and saves nothing.
     */
    method AddToCart(user: Claims, req: CartRequest, products: map<ProductId, Catalog.Product>) returns (r: Result<Cart>)
      modifies this
      ensures user.isAdmin ==> r == Err(ACCESS_FORBIDDEN)
      ensures !user.isAdmin && !RequestValid(req) ==> r == Err(INVALID_INPUT)
      ensures !user.isAdmin && RequestValid(req) ==>
        r == AddLines(Existing(old(carts), user.id), LinesOf(req.cartItems.value), products)
      ensures r.Ok? ==> carts == old(carts)[user.id := r.value]
      ensures r.Err? ==> carts == old(carts)
      ensures old(AllConsistent()) ==> AllConsistent()
    {
      if user.isAdmin {
        return Err(ACCESS_FORBIDDEN);
      }
      var valid := IsDataValid(req);
      if !valid {
        return Err(INVALID_INPUT);
      }
      var lines := LinesOf(req.cartItems.value);
      var doc := new CartDocument(Existing(carts, user.id));
      r := doc.MergeLines(lines, products);
      if r.Err? {
        return;
      }
      carts := carts[user.id := doc.Value()];
      if old(AllConsistent()) {
        AddLinesConsistent(Existing(old(carts), user.id), lines, products);
      }
    }

    /**
     * `updateCartQuantity`: 403 for an admin, 400 for an invalid request, 404 when the user has
     * no cart; otherwise each line replaces, removes or appends its product's entry and the cart
     * is saved, unless a product is unknown (404, nothing saved). The total follows the corrected
     * line 178, so the stored carts stay consistent. The code as written fails on the same
     * requests and builds the same items, with the request's `Drift` added to the total;
     * on a request without negative quantities the two answers are equal.
     */
    method UpdateCartQuantity(user: Claims, req: CartRequest, products: map<ProductId, Catalog.Product>) returns (r: Result<Cart>)
      modifies this
      ensures user.isAdmin ==> r == Err(ACCESS_FORBIDDEN)
      ensures !user.isAdmin && !RequestValid(req) ==> r == Err(INVALID_INPUT)
      ensures !user.isAdmin && RequestValid(req) && user.id !in old(carts) ==> r == Err(CART_NOT_FOUND)
      ensures !user.isAdmin && RequestValid(req) && user.id in old(carts) ==>
        r == UpdateLinesIntended(old(carts)[user.id], LinesOf(req.cartItems.value), products) &&
        (NoNegativeQuantity(req) ==> r == UpdateLines(old(carts)[user.id], LinesOf(req.cartItems.value), products))
      ensures !user.isAdmin && RequestValid(req) && user.id in old(carts) ==>
        WrittenAnswer(old(carts)[user.id], LinesOf(req.cartItems.value), products, r)
      ensures r.Ok? ==> carts == old(carts)[user.id := r.value]
      ensures r.Err? ==> carts == old(carts)
      ensures old(AllConsistent()) ==> AllConsistent()
    {
      if user.isAdmin {
        return Err(ACCESS_FORBIDDEN);
      }
      var valid := IsDataValid(req);
      if !valid {
        return Err(INVALID_INPUT);
      }
      var lines := LinesOf(req.cartItems.value);
      if user.id !in carts {
        return Err(CART_NOT_FOUND);
      }
      var doc := new CartDocument(carts[user.id]);
      if NoNegativeQuantity(req) {
        IntendedLinesAgreeOnNonNegative(carts[user.id], lines, products);
      }
      IntendedVersusWritten(carts[user.id], lines, products);
      r := doc.ReplaceLines(lines, products);
      if r.Err? {
        return;
      }
      carts := carts[user.id := doc.Value()];
      UpdateLinesIntendedKeeps(old(carts)[user.id], lines, products);
    }

    /**
     * `removeFromCart`: 403 for an admin, 404 when there is no cart, 404 when no entry is
     * for the product; otherwise every entry of the product is gone and the cart is saved.
     */
    method RemoveFromCart(user: Claims, productId: ProductId) returns (r: Result<Cart>)
      modifies this
      ensures user.isAdmin ==> r == Err(ACCESS_FORBIDDEN)
      ensures !user.isAdmin && user.id !in old(carts) ==> r == Err(CART_NOT_FOUND)
      ensures !user.isAdmin && user.id in old(carts) ==> r == RemoveProduct(old(carts)[user.id], productId)
      ensures r.Ok? ==> carts == old(carts)[user.id := r.value]
      ensures r.Err? ==> carts == old(carts)
      ensures old(AllConsistent()) ==> AllConsistent()
    {
      if user.isAdmin {
        return Err(ACCESS_FORBIDDEN);
      }
      if user.id !in carts {
        return Err(CART_NOT_FOUND);
      }
      var doc := new CartDocument(carts[user.id]);
      ghost var start := carts[user.id];
      var removedItem := doc.RemoveEntries(productId);
      if removedItem <= 0 {
        assert RemoveProduct(start, productId) == Err(PRODUCT_NOT_IN_CART);
        return Err(PRODUCT_NOT_IN_CART);
      }
      assert RemoveProduct(start, productId) == Ok(doc.Value());
      carts := carts[user.id := doc.Value()];
      r := Ok(doc.Value());
      if old(AllConsistent()) {
        RemoveProductKeeps(old(carts)[user.id], productId);
      }
    }

    /** `clearCart`: 403 for an admin, 404 when there is no cart or it holds no items; otherwise it is emptied. */
    method ClearCart(user: Claims) returns (r: Result<Cart>)
      modifies this
      ensures user.isAdmin ==> r == Err(ACCESS_FORBIDDEN)
      ensures !user.isAdmin && user.id !in old(carts) ==> r == Err(CART_NOT_FOUND)
      ensures !user.isAdmin && user.id in old(carts) && |old(carts)[user.id].items| == 0 ==> r == Err(NOTHING_TO_CLEAR)
      ensures !user.isAdmin && user.id in old(carts) && |old(carts)[user.id].items| > 0 ==> r == Ok(EMPTY_CART)
      ensures r.Ok? ==> carts == old(carts)[user.id := r.value]
      ensures r.Err? ==> carts == old(carts)
      ensures old(AllConsistent()) ==> AllConsistent()
    {
      if user.isAdmin {
        return Err(ACCESS_FORBIDDEN);
      }
      if user.id !in carts {
        return Err(CART_NOT_FOUND);
      }
      var doc := new CartDocument(carts[user.id]);
      if |doc.items| > 0 {
        doc.items := [];
        doc.totalPrice := 0;
      } else {
        return Err(NOTHING_TO_CLEAR);
      }
      carts := carts[user.id := doc.Value()];
      r := Ok(doc.Value());
    }

    /** `Cart.deleteOne({ userId })`. */
    method DeleteOne(user: UserId)
      modifies this
      ensures carts == old(carts) - {user}
    {
      carts := carts - {user};
    }
  }
}
