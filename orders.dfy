/**
 * The order controller (controllers/order.js): checkout turns the caller's non-empty cart
 * into an order snapshot, deletes the cart and then saves the order; the two queries list
 * the caller's orders and every order.
 */
module Orders {
  import opened Records
  import Catalog
  import opened CartSpec
  import Carts

  /** One entry of `productsOrdered`. */
  datatype OrderedProduct = OrderedProduct(productId: ProductId, quantity: int, subtotal: int)

  /** A stored order document (its `orderedOn` timestamp is not modelled). */
  datatype Order = Order(userId: UserId, productsOrdered: seq<OrderedProduct>, totalPrice: int, status: string)

  /** What the two queries answer with status 200: the orders, or a message when there are none. */
  datatype Listing = Orders(orders: seq<Order>) | NoOrders(message: string)

  /** The schema default of `status`. */
  const PENDING := "Pending"

  const CART_MISSING := Failure(404, "Cart is not found for the user")
  const CART_EMPTY := Failure(404, "Cart is empty for the user")
  const SAVE_ORDER_FAILED := Failure(500, "Error saving the order")
  const USER_HAS_NO_ORDERS := "User has no orders"
  const NO_ORDERS_FOUND := "No orders found"

  /** `cartItems.reduce((total, item) => total + item.subtotal, total)`: a left fold from the front. */
  function Reduce(items: seq<CartItem>, total: int): int
    decreases |items|
  {
    if items == [] then total else Reduce(items[1..], total + items[0].subtotal)
  }

  /** The fold adds up the same subtotals as `Sum`, whatever the starting value. */
  lemma {:induction false} ReduceIsSum(items: seq<CartItem>, total: int)
    ensures Reduce(items, total) == total + Sum(items)
    decreases |items|
  {
    if items != [] {
      ReduceIsSum(items[1..], total + items[0].subtotal);
      assert [items[0]] + items[1..] == items;
      SumAppend([items[0]], items[1..]);
      assert [items[0]][..0] == [];
    }
  }

  /** `cartItems.map(item => ({ productId, quantity, subtotal }))`. */
  function Snapshot(items: seq<CartItem>): (r: seq<OrderedProduct>)
    ensures |r| == |items|
  {
    seq(|items|, k requires 0 <= k < |items| =>
      OrderedProduct(items[k].productId, items[k].quantity, items[k].subtotal))
  }

  /** Reads an order's entries back as cart entries. */
  function ItemsOf(ps: seq<OrderedProduct>): (r: seq<CartItem>)
    ensures |r| == |ps|
  {
    seq(|ps|, k requires 0 <= k < |ps| => CartItem(ps[k].productId, ps[k].quantity, ps[k].subtotal))
  }

  /** The snapshot loses nothing: reading it back gives the cart's entries, in order. */
  lemma SnapshotRoundTrip(items: seq<CartItem>)
    ensures ItemsOf(Snapshot(items)) == items
  {
    var back := ItemsOf(Snapshot(items));
    assert forall k :: 0 <= k < |items| ==> back[k] == items[k];
  }

  /**
   * The order `checkout` builds for a cart: the caller's id, an entry-by-entry copy of the
   * items, the total recomputed from the subtotals, and the `Pending` status.
   */
  function NewOrder(userId: UserId, c: Cart): (o: Order)
    ensures o.userId == userId && o.status == PENDING
    ensures o.totalPrice == Sum(c.items)
    ensures ItemsOf(o.productsOrdered) == c.items
  {
    ReduceIsSum(c.items, 0);
    SnapshotRoundTrip(c.items);
    Order(userId, Snapshot(c.items), Reduce(c.items, 0), PENDING)
  }

  /**
   * The order charges the subtotals, not the stored `totalPrice`: the two differ by the cart's
   * gap, and agree on a consistent cart.
   */
  lemma OrderChargesSubtotals(userId: UserId, c: Cart)
    ensures NewOrder(userId, c).totalPrice == c.totalPrice - Gap(c)
    ensures Consistent(c) ==> NewOrder(userId, c).totalPrice == c.totalPrice
  {
  }

  /**
   * Where the drift of `updateCartQuantity` surfaces: a cart holding one entry of 10 whose
   * total a request for -1 of another product priced 10 brought down to 0 still checks out at 10.
   */
  lemma DriftedCartChargesSubtotals(userId: UserId, p: ProductId, q: ProductId, products: map<ProductId, Catalog.Product>)
    requires p != q && q in products && products[q].price == 10
    ensures UpdateLines(Cart([CartItem(p, 1, 10)], 10), [Line(q, -1)], products) == Ok(Cart([CartItem(p, 1, 10)], 0))
    ensures NewOrder(userId, Cart([CartItem(p, 1, 10)], 0)).totalPrice == 10
  {
    var c := Cart([CartItem(p, 1, 10)], 10);
    assert [Line(q, -1)][1..] == [];
    assert FindIndex([CartItem(p, 1, 10)][1..], q) == -1;
    assert FindIndex(c.items, q) == -1;
    assert UpdateLine(c, Line(q, -1), 10) == Cart([CartItem(p, 1, 10)], 0);
    assert Sum([CartItem(p, 1, 10)]) == 10 by {
      assert [CartItem(p, 1, 10)][..0] == [];
    }
  }

  /**
   * `Order.find({ userId })`: the user's orders in stored order. Each of the user's orders
   * appears as often as it is stored, and no other order appears.
   */
  function OrdersOf(orders: seq<Order>, userId: UserId): (r: seq<Order>)
    ensures forall o :: multiset(r)[o] == if o.userId == userId then multiset(orders)[o] else 0
    ensures forall o :: o in r <==> o in orders && o.userId == userId
    ensures |r| <= |orders|
  {
    if orders == [] then []
    else
      var last := orders[|orders| - 1];
      var rest := OrdersOf(orders[..|orders| - 1], userId);
      OrdersOfStep(orders, rest, userId);
      rest + (if last.userId == userId then [last] else [])
  }

  /** One more stored order keeps the user's list counting each order as the store does. */
  lemma OrdersOfStep(orders: seq<Order>, rest: seq<Order>, userId: UserId)
    requires orders != []
    requires forall o :: multiset(rest)[o] == if o.userId == userId then multiset(orders[..|orders| - 1])[o] else 0
    requires |rest| <= |orders| - 1
    ensures var last := orders[|orders| - 1];
      var r := rest + (if last.userId == userId then [last] else []);
      (forall o :: multiset(r)[o] == if o.userId == userId then multiset(orders)[o] else 0) &&
      (forall o :: o in r <==> o in orders && o.userId == userId) &&
      |r| <= |orders|
  {
    var last := orders[|orders| - 1];
    var r := rest + (if last.userId == userId then [last] else []);
    assert orders == orders[..|orders| - 1] + [last];
    assert multiset(orders) == multiset(orders[..|orders| - 1]) + multiset{last};
    assert multiset(r) == multiset(rest) + multiset(if last.userId == userId then [last] else []);
    forall o: Order
      ensures o in r <==> o in orders && o.userId == userId
    {
      assert o in r <==> multiset(r)[o] > 0;
      assert o in orders <==> multiset(orders)[o] > 0;
    }
  }

  /** Saving an order adds it to its owner's list, at the end, and to nobody else's. */
  lemma OrdersOfAppend(orders: seq<Order>, o: Order, userId: UserId)
    ensures OrdersOf(orders + [o], userId) ==
      OrdersOf(orders, userId) + (if o.userId == userId then [o] else [])
  {
    assert (orders + [o])[..|orders|] == orders;
  }

  /** The `orders` collection. */
  class OrderCollection {
    var orders: seq<Order>

    constructor ()
      ensures orders == []
    {
      orders := [];
    }

    /**
     * `checkout`: 403 for an admin, 404 when the cart is missing or empty, all with nothing
     * changed. Otherwise the cart is deleted first and the order saved after; when the save
     * fails (`saveOk` false) the answer is 500 and the cart is gone with no order to show for it.
     */
    method Checkout(user: Claims, store: Carts.CartCollection, saveOk: bool) returns (r: Result<Order>)
      modifies this, store
      ensures user.isAdmin ==> r == Err(ACCESS_FORBIDDEN)
      ensures !user.isAdmin && user.id !in old(store.carts) ==> r == Err(CART_MISSING)
      ensures !user.isAdmin && user.id in old(store.carts) && |old(store.carts)[user.id].items| == 0 ==>
        r == Err(CART_EMPTY)
      ensures !user.isAdmin && user.id in old(store.carts) && |old(store.carts)[user.id].items| > 0 ==>
        store.carts == old(store.carts) - {user.id} &&
        if saveOk then r == Ok(NewOrder(user.id, old(store.carts)[user.id])) && orders == old(orders) + [r.value]
        else r == Err(SAVE_ORDER_FAILED) && orders == old(orders)
      ensures r.Err? && r.failure != SAVE_ORDER_FAILED ==> store.carts == old(store.carts) && orders == old(orders)
    {
      if user.isAdmin {
        return Err(ACCESS_FORBIDDEN);
      }
      var found := store.GetCart(user);
      if found.Err? {
        return Err(CART_MISSING);
      }
      var cart := found.value;
      if |cart.items| == 0 {
        return Err(CART_EMPTY);
      }
      var totalPrice := Reduce(cart.items, 0);
      var order := Order(user.id, Snapshot(cart.items), totalPrice, PENDING);
      store.DeleteOne(user.id);
      if !saveOk {
        return Err(SAVE_ORDER_FAILED);
      }
      orders := orders + [order];
      r := Ok(order);
    }

    /**
     * `getOrders`: 403 for an admin; otherwise the caller's orders as `Order.find` lists them
     * (stored order, each as often as stored), or the message when there are none.
     */
    method GetOrders(user: Claims) returns (r: Result<Listing>)
      ensures user.isAdmin ==> r == Err(ACCESS_FORBIDDEN)
      ensures !user.isAdmin ==> r.Ok?
      ensures r.Ok? && r.value.Orders? ==>
        |r.value.orders| > 0 && r.value.orders == OrdersOf(orders, user.id)
      ensures r.Ok? && r.value.Orders? ==>
        forall o :: multiset(r.value.orders)[o] == if o.userId == user.id then multiset(orders)[o] else 0
      ensures r.Ok? && r.value.NoOrders? ==>
        r.value.message == USER_HAS_NO_ORDERS && forall o :: o in orders ==> o.userId != user.id
    {
      if user.isAdmin {
        return Err(ACCESS_FORBIDDEN);
      }
      var own := OrdersOf(orders, user.id);
      if |own| <= 0 {
        assert forall o :: o in orders && o.userId == user.id ==> o in own;
        return Ok(NoOrders(USER_HAS_NO_ORDERS));
      }
      r := Ok(Orders(own));
    }

    /** `getAllOrders`: every stored order, unfiltered, or the message when there is none. */
    method GetAllOrders() returns (r: Listing)
      ensures |orders| > 0 ==> r == Orders(orders)
      ensures |orders| == 0 ==> r == NoOrders(NO_ORDERS_FOUND)
    {
      if |orders| > 0 {
        return Orders(orders);
      }
      r := NoOrders(NO_ORDERS_FOUND);
    }
  }

  /**
   * Whatever checkout answers to a customer, a `getCart` right after it finds no cart: either
   * there was none, or checkout deleted it, even when saving the order then failed.
   */
  method CartGoneAfterCheckout(book: OrderCollection, store: Carts.CartCollection, user: Claims, saveOk: bool)
    returns (r: Result<Cart>)
    requires !user.isAdmin
    requires user.id in store.carts ==> |store.carts[user.id].items| > 0
    modifies book, store
    ensures r == Err(Carts.NO_CART)
  {
    var _ := book.Checkout(user, store, saveOk);
    r := store.GetCart(user);
  }
}
