/**
 * What the cart controller (controllers/cart.js) does to one cart, as functions on values:
 * the line-item merge of `addToCart`, the replace/remove/append of `updateCartQuantity`
 * and the filter of `removeFromCart`, each keeping `totalPrice` by deltas the way the
 * controller does. The lemmas relate the running total to the sum of the subtotals.
 */
module CartSpec {
  import opened Records
  import opened Catalog

  datatype CartItem = CartItem(productId: ProductId, quantity: int, subtotal: int)

  /** A cart document: its line items in insertion order and the running total. */
  datatype Cart = Cart(items: seq<CartItem>, totalPrice: int)

  /** One entry of a validated request's `cartItems`. */
  datatype Line = Line(productId: ProductId, quantity: int)

  /** The cart a user without one starts from: no items, total 0. */
  const EMPTY_CART := Cart([], 0)

  function ProductNotFound(id: ProductId): Failure
  {
    Failure(404, "Product with ID " + id + " not found")
  }

  /** Σ subtotal over the items. */
  function Sum(items: seq<CartItem>): int
  {
    if items == [] then 0 else Sum(items[..|items| - 1]) + items[|items| - 1].subtotal
  }

  /** At most one line item per product. */
  predicate UniqueIds(items: seq<CartItem>)
  {
    forall i, j :: 0 <= i < j < |items| ==> items[i].productId != items[j].productId
  }

  /** How far the stored total is from the sum of the subtotals. */
  function Gap(c: Cart): int
  {
    c.totalPrice - Sum(c.items)
  }

  /** The cart invariant: `totalPrice == Σ subtotal`, and one entry per product. */
  predicate Consistent(c: Cart)
  {
    Gap(c) == 0 && UniqueIds(c.items)
  }

  /** `cartItems.findIndex(item => item.productId === pid)`: the first matching index, or -1. */
  function FindIndex(items: seq<CartItem>, pid: ProductId): (r: int)
    ensures -1 <= r < |items|
    ensures r == -1 <==> forall k :: 0 <= k < |items| ==> items[k].productId != pid
    ensures r != -1 ==> items[r].productId == pid && forall k :: 0 <= k < r ==> items[k].productId != pid
  {
    if items == [] then -1
    else if items[0].productId == pid then 0
    else
      var k := FindIndex(items[1..], pid);
      if k == -1 then -1 else k + 1
  }

  /** The entry the cart holds for a product, as `findIndex` locates it. */
  function Lookup(items: seq<CartItem>, pid: ProductId): Option<CartItem>
  {
    var i := FindIndex(items, pid);
    if i == -1 then None else Some(items[i])
  }

  lemma {:induction false} SumAppend(a: seq<CartItem>, b: seq<CartItem>)
    ensures Sum(a + b) == Sum(a) + Sum(b)
    decreases |b|
  {
    if b == [] {
      assert a + b == a;
    } else {
      var b' := b[..|b| - 1];
      assert (a + b)[..|a + b| - 1] == a + b';
      SumAppend(a, b');
    }
  }

  lemma SumUpdate(s: seq<CartItem>, i: nat, x: CartItem)
    requires i < |s|
    ensures Sum(s[i := x]) == Sum(s) - s[i].subtotal + x.subtotal
  {
    assert s == s[..i] + [s[i]] + s[i + 1..];
    assert s[i := x] == s[..i] + [x] + s[i + 1..];
    SumAppend(s[..i] + [s[i]], s[i + 1..]);
    SumAppend(s[..i], [s[i]]);
    SumAppend(s[..i] + [x], s[i + 1..]);
    SumAppend(s[..i], [x]);
  }

  lemma SumRemove(s: seq<CartItem>, i: nat)
    requires i < |s|
    ensures Sum(s[..i] + s[i + 1..]) == Sum(s) - s[i].subtotal
  {
    var head, post := s[..i + 1], s[i + 1..];
    assert head + post == s;
    SumAppend(head, post);
    assert head[..i] == s[..i];
    assert Sum(head) == Sum(s[..i]) + s[i].subtotal;
    SumAppend(s[..i], post);
  }

  lemma SumPush(s: seq<CartItem>, x: CartItem)
    ensures Sum(s + [x]) == Sum(s) + x.subtotal
  {
    assert (s + [x])[..|s|] == s;
  }

  /** Pushing an entry for a product the cart lacks keeps one entry per product. */
  lemma UniquePush(s: seq<CartItem>, x: CartItem)
    requires UniqueIds(s) && FindIndex(s, x.productId) == -1
    ensures UniqueIds(s + [x])
  {
    var t := s + [x];
    assert forall k :: 0 <= k < |s| ==> t[k] == s[k];
  }

  /** Splicing an entry out keeps one entry per product. */
  lemma UniqueRemoveAt(s: seq<CartItem>, i: nat)
    requires UniqueIds(s) && i < |s|
    ensures UniqueIds(s[..i] + s[i + 1..])
  {
    var t := s[..i] + s[i + 1..];
    assert forall k :: 0 <= k < |t| ==> t[k] == s[if k < i then k else k + 1];
  }

  /** Rewriting an entry without changing its product keeps one entry per product. */
  lemma UniqueSameId(s: seq<CartItem>, i: nat, x: CartItem)
    requires UniqueIds(s) && i < |s| && x.productId == s[i].productId
    ensures UniqueIds(s[i := x])
  {
    var t := s[i := x];
    assert forall k :: 0 <= k < |t| ==> t[k].productId == s[k].productId;
  }

  /** Positions keep their product ids, so `findIndex` answers the same for every product. */
  lemma FindIndexSameIds(s: seq<CartItem>, t: seq<CartItem>, p: ProductId)
    requires |s| == |t|
    requires forall k :: 0 <= k < |s| ==> s[k].productId == t[k].productId
    ensures FindIndex(s, p) == FindIndex(t, p)
  {
  }

  /** Appending an item for a product the cart lacks leaves every other product's entry where it was. */
  lemma LookupPush(s: seq<CartItem>, x: CartItem, p: ProductId)
    requires FindIndex(s, x.productId) == -1
    ensures Lookup(s + [x], p) == if p == x.productId then Some(x) else Lookup(s, p)
  {
    var t := s + [x];
    var j := FindIndex(s, p);
    assert forall k :: 0 <= k < |s| ==> t[k] == s[k];
    if p == x.productId {
      assert t[|s|] == x;
      assert FindIndex(t, p) == |s|;
    } else if j == -1 {
      assert forall k :: 0 <= k < |t| ==> t[k].productId != p by {
        forall k | 0 <= k < |t| ensures t[k].productId != p {
          if k < |s| { assert t[k] == s[k]; }
        }
      }
    } else {
      assert t[j] == s[j];
      assert forall k :: 0 <= k < j ==> t[k] == s[k];
    }
  }

  /** Cutting out another product's entry leaves this product's entry unchanged. */
  lemma LookupRemoveAt(s: seq<CartItem>, i: nat, p: ProductId)
    requires i < |s| && s[i].productId != p
    ensures Lookup(s[..i] + s[i + 1..], p) == Lookup(s, p)
  {
    var t := s[..i] + s[i + 1..];
    assert forall k :: 0 <= k < i ==> t[k] == s[k];
    assert forall k :: i <= k < |t| ==> t[k] == s[k + 1];
    var j := FindIndex(s, p);
    if j == -1 {
      assert forall k :: 0 <= k < |t| ==> t[k].productId != p by {
        forall k | 0 <= k < |t| ensures t[k].productId != p {
          if k < i { assert t[k] == s[k]; } else { assert t[k] == s[k + 1]; }
        }
      }
    } else if j < i {
      assert t[j] == s[j];
    } else {
      assert t[j - 1] == s[j];
      assert forall k :: 0 <= k < j - 1 ==> t[k].productId != p by {
        forall k | 0 <= k < j - 1 ensures t[k].productId != p {
          if k < i { assert t[k] == s[k]; } else { assert t[k] == s[k + 1]; }
        }
      }
    }
  }

  // ---------------------------------------------------------------------------
  // addToCart: merge

  /**
   * One request line of `addToCart` (controllers/cart.js:84-99): the subtotal is
   * price × quantity; an existing entry gets quantity and subtotal added to it, a new
   * product is appended; the total grows by the subtotal.
   */
  function AddLine(c: Cart, l: Line, price: int): Cart
  {
    var subtotal := price * l.quantity;
    var i := FindIndex(c.items, l.productId);
    var items :=
      if i != -1 then
        c.items[i := c.items[i].(quantity := c.items[i].quantity + l.quantity,
                                 subtotal := c.items[i].subtotal + subtotal)]
      else
        c.items + [CartItem(l.productId, l.quantity, subtotal)];
    Cart(items, c.totalPrice + subtotal)
  }

  /** Merging one line keeps the entries unique and keeps the total exactly as far from the sum as before. */
  lemma AddLineKeeps(c: Cart, l: Line, price: int)
    ensures UniqueIds(c.items) ==> UniqueIds(AddLine(c, l, price).items)
    ensures Gap(AddLine(c, l, price)) == Gap(c)
    ensures AddLine(c, l, price).totalPrice == c.totalPrice + price * l.quantity
  {
    var i := FindIndex(c.items, l.productId);
    var r := AddLine(c, l, price);
    if i != -1 {
      SumUpdate(c.items, i, r.items[i]);
    } else {
      SumPush(c.items, CartItem(l.productId, l.quantity, price * l.quantity));
    }
  }

  /** Merge semantics: the product's entry gains the quantity and the subtotal; every other entry stays. */
  lemma AddLineLookup(c: Cart, l: Line, price: int, p: ProductId)
    ensures Lookup(AddLine(c, l, price).items, p) ==
      if p != l.productId then Lookup(c.items, p)
      else match Lookup(c.items, p)
        case None => Some(CartItem(p, l.quantity, price * l.quantity))
        case Some(e) => Some(CartItem(p, e.quantity + l.quantity, e.subtotal + price * l.quantity))
  {
    var i := FindIndex(c.items, l.productId);
    var r := AddLine(c, l, price);
    if i != -1 {
      FindIndexSameIds(c.items, r.items, p);
    } else {
      LookupPush(c.items, CartItem(l.productId, l.quantity, price * l.quantity), p);
    }
  }

  /**
   * The `for…of` loop of `addToCart`: lines are merged in request order, and the first line
   * whose product the catalog lacks ends the request with 404 and nothing saved.
   */
  function AddLines(c: Cart, lines: seq<Line>, products: map<ProductId, Product>): Result<Cart>
    decreases |lines|
  {
    if lines == [] then Ok(c)
    else if lines[0].productId !in products then Err(ProductNotFound(lines[0].productId))
    else AddLines(AddLine(c, lines[0], products[lines[0].productId].price), lines[1..], products)
  }

  /** Σ price × quantity over the request lines whose product exists. */
  function RequestTotal(lines: seq<Line>, products: map<ProductId, Product>): int
    decreases |lines|
  {
    if lines == [] then 0
    else
      (if lines[0].productId in products then products[lines[0].productId].price * lines[0].quantity else 0)
      + RequestTotal(lines[1..], products)
  }

  /** Every product the request names is in the catalog. */
  predicate AllKnown(lines: seq<Line>, products: map<ProductId, Product>)
  {
    forall k :: 0 <= k < |lines| ==> lines[k].productId in products
  }

  /**
   * `addToCart` succeeds exactly when every product is known; it then raises the total by
   * exactly Σ price × quantity, keeps one entry per product (duplicates inside the request
   * included) and keeps `totalPrice - Σ subtotal` unchanged, so a consistent cart stays consistent.
   */
  lemma {:induction false} AddLinesKeeps(c: Cart, lines: seq<Line>, products: map<ProductId, Product>)
    ensures AddLines(c, lines, products).Ok? <==> AllKnown(lines, products)
    ensures AddLines(c, lines, products).Ok? ==>
      var r := AddLines(c, lines, products).value;
      r.totalPrice == c.totalPrice + RequestTotal(lines, products) &&
      Gap(r) == Gap(c) &&
      (UniqueIds(c.items) ==> UniqueIds(r.items))
    decreases |lines|
  {
    if lines != [] {
      var l := lines[0];
      assert forall k :: 1 <= k < |lines| ==> lines[k] == lines[1..][k - 1];
      if l.productId in products {
        var next := AddLine(c, l, products[l.productId].price);
        AddLineKeeps(c, l, products[l.productId].price);
        AddLinesKeeps(next, lines[1..], products);
        assert AllKnown(lines, products) <==> AllKnown(lines[1..], products);
      }
    }
  }

  /** A consistent cart stays consistent through `addToCart`. */
  lemma AddLinesConsistent(c: Cart, lines: seq<Line>, products: map<ProductId, Product>)
    requires Consistent(c)
    requires AddLines(c, lines, products).Ok?
    ensures Consistent(AddLines(c, lines, products).value)
  {
    AddLinesKeeps(c, lines, products);
  }

  /** Adding 2 and then 3 of one product to an empty cart leaves one entry of 5 at 5 × price. */
  lemma AddTwiceMerges(p: ProductId, products: map<ProductId, Product>)
    requires p in products
    ensures var price := products[p].price;
      AddLines(EMPTY_CART, [Line(p, 2)], products) == Ok(Cart([CartItem(p, 2, 2 * price)], 2 * price)) &&
      AddLines(Cart([CartItem(p, 2, 2 * price)], 2 * price), [Line(p, 3)], products)
        == Ok(Cart([CartItem(p, 5, 5 * price)], 5 * price))
  {
    var price := products[p].price;
    var c1 := Cart([CartItem(p, 2, 2 * price)], 2 * price);
    assert [Line(p, 2)][1..] == [] && [Line(p, 3)][1..] == [];
    assert FindIndex([], p) == -1;
    assert AddLine(EMPTY_CART, Line(p, 2), price) == c1;
    assert FindIndex(c1.items, p) == 0;
    assert AddLine(c1, Line(p, 3), price) == Cart([CartItem(p, 5, 5 * price)], 5 * price);
  }

  // ---------------------------------------------------------------------------
  // updateCartQuantity: replace, remove or append

  /**
   * One request line of `updateCartQuantity` as written (controllers/cart.js:154-178):
   * absent and quantity > 0 appends; present and quantity <= 0 subtracts the old subtotal
   * and splices the entry out; present and quantity > 0 subtracts the old subtotal and
   * replaces quantity and subtotal. In every branch the new subtotal is then added to the total.
   */
  function UpdateLine(c: Cart, l: Line, price: int): Cart
  {
    var subtotal := price * l.quantity;
    var i := FindIndex(c.items, l.productId);
    if i == -1 then
      Cart(if l.quantity > 0 then c.items + [CartItem(l.productId, l.quantity, subtotal)] else c.items,
           c.totalPrice + subtotal)
    else if l.quantity <= 0 then
      Cart(c.items[..i] + c.items[i + 1..], c.totalPrice - c.items[i].subtotal + subtotal)
    else
      Cart(c.items[i := c.items[i].(quantity := l.quantity, subtotal := subtotal)],
           c.totalPrice - c.items[i].subtotal + subtotal)
  }

  /** The total moves away from the sum by price × quantity exactly when the quantity is not positive. */
  function LineDrift(l: Line, price: int): int
  {
    if l.quantity <= 0 then price * l.quantity else 0
  }

  /**
   * One update line keeps the entries unique, and shifts `totalPrice - Σ subtotal` by
   * price × quantity when the quantity is <= 0 (nothing when it is 0), by nothing otherwise.
   */
  lemma UpdateLineKeeps(c: Cart, l: Line, price: int)
    ensures UniqueIds(c.items) ==> UniqueIds(UpdateLine(c, l, price).items)
    ensures Gap(UpdateLine(c, l, price)) == Gap(c) + LineDrift(l, price)
  {
    var i := FindIndex(c.items, l.productId);
    var subtotal := price * l.quantity;
    if i == -1 {
      if l.quantity > 0 {
        var x := CartItem(l.productId, l.quantity, subtotal);
        SumPush(c.items, x);
        if UniqueIds(c.items) {
          UniquePush(c.items, x);
        }
      }
    } else if l.quantity <= 0 {
      SumRemove(c.items, i);
      if UniqueIds(c.items) {
        UniqueRemoveAt(c.items, i);
      }
    } else {
      var x := c.items[i].(quantity := l.quantity, subtotal := subtotal);
      SumUpdate(c.items, i, x);
      if UniqueIds(c.items) {
        UniqueSameId(c.items, i, x);
      }
    }
  }

  /** Replace semantics: a positive quantity becomes the entry, a non-positive one leaves no entry. */
  lemma UpdateLineLookup(c: Cart, l: Line, price: int, p: ProductId)
    requires UniqueIds(c.items)
    ensures Lookup(UpdateLine(c, l, price).items, p) ==
      if p != l.productId then Lookup(c.items, p)
      else if l.quantity > 0 then Some(CartItem(p, l.quantity, price * l.quantity))
      else None
  {
    var i := FindIndex(c.items, l.productId);
    var r := UpdateLine(c, l, price);
    if i == -1 {
      if l.quantity > 0 {
        LookupPush(c.items, CartItem(l.productId, l.quantity, price * l.quantity), p);
      }
    } else if l.quantity <= 0 {
      if p != l.productId {
        LookupRemoveAt(c.items, i, p);
      } else {
        var t := c.items[..i] + c.items[i + 1..];
        assert forall k :: 0 <= k < |t| ==> t[k] == c.items[if k < i then k else k + 1];
      }
    } else {
      FindIndexSameIds(c.items, r.items, p);
    }
  }

  /** The `for…of` loop of `updateCartQuantity`; an unknown product ends it with 404 and nothing saved. */
  function UpdateLines(c: Cart, lines: seq<Line>, products: map<ProductId, Product>): Result<Cart>
    decreases |lines|
  {
    if lines == [] then Ok(c)
    else if lines[0].productId !in products then Err(ProductNotFound(lines[0].productId))
    else UpdateLines(UpdateLine(c, lines[0], products[lines[0].productId].price), lines[1..], products)
  }

  /** The total drift a request causes: Σ price × quantity over its lines with quantity <= 0. */
  function Drift(lines: seq<Line>, products: map<ProductId, Product>): int
    decreases |lines|
  {
    if lines == [] then 0
    else
      (if lines[0].productId in products then LineDrift(lines[0], products[lines[0].productId].price) else 0)
      + Drift(lines[1..], products)
  }

  /**
   * `updateCartQuantity` succeeds exactly when every product is known; it keeps one entry per
   * product, and moves `totalPrice - Σ subtotal` by exactly the request's drift.
   */
  lemma {:induction false} UpdateLinesKeeps(c: Cart, lines: seq<Line>, products: map<ProductId, Product>)
    ensures UpdateLines(c, lines, products).Ok? <==> AllKnown(lines, products)
    ensures UpdateLines(c, lines, products).Ok? ==>
      var r := UpdateLines(c, lines, products).value;
      Gap(r) == Gap(c) + Drift(lines, products) &&
      (UniqueIds(c.items) ==> UniqueIds(r.items))
    decreases |lines|
  {
    if lines != [] {
      var l := lines[0];
      assert forall k :: 1 <= k < |lines| ==> lines[k] == lines[1..][k - 1];
      if l.productId in products {
        var next := UpdateLine(c, l, products[l.productId].price);
        UpdateLineKeeps(c, l, products[l.productId].price);
        UpdateLinesKeeps(next, lines[1..], products);
        assert AllKnown(lines, products) <==> AllKnown(lines[1..], products);
      }
    }
  }

  /** A request without negative quantities causes no drift. */
  lemma {:induction false} NoDriftWithoutNegatives(lines: seq<Line>, products: map<ProductId, Product>)
    requires forall k :: 0 <= k < |lines| ==> lines[k].quantity >= 0
    ensures Drift(lines, products) == 0
    decreases |lines|
  {
    if lines != [] {
      assert forall k :: 0 <= k < |lines[1..]| ==> lines[1..][k] == lines[k + 1];
      NoDriftWithoutNegatives(lines[1..], products);
    }
  }

  /** The cart invariant survives `updateCartQuantity` when no quantity is negative. */
  lemma UpdateLinesConsistent(c: Cart, lines: seq<Line>, products: map<ProductId, Product>)
    requires Consistent(c)
    requires forall k :: 0 <= k < |lines| ==> lines[k].quantity >= 0
    requires UpdateLines(c, lines, products).Ok?
    ensures Consistent(UpdateLines(c, lines, products).value)
  {
    UpdateLinesKeeps(c, lines, products);
    NoDriftWithoutNegatives(lines, products);
  }

  /** Setting the quantity of the only entry to 0 removes it and brings the total to 0. */
  lemma ZeroQuantityRemoves(p: ProductId, products: map<ProductId, Product>)
    requires p in products && products[p].price == 10
    ensures UpdateLines(Cart([CartItem(p, 2, 20)], 20), [Line(p, 0)], products) == Ok(Cart([], 0))
  {
    var c := Cart([CartItem(p, 2, 20)], 20);
    assert [Line(p, 0)][1..] == [];
    assert FindIndex(c.items, p) == 0;
    assert c.items[..0] + c.items[1..] == [];
    assert UpdateLine(c, Line(p, 0), 10) == Cart([], 0);
  }

  /**
   * The defect of controllers/cart.js:178: a request for quantity -1 of a product priced 10
   * that the cart does not hold adds nothing to the items but -10 to the total.
   */
  lemma NegativeQuantityDrifts(p: ProductId, products: map<ProductId, Product>)
    requires p in products && products[p].price == 10
    ensures UpdateLines(EMPTY_CART, [Line(p, -1)], products) == Ok(Cart([], -10))
    ensures !Consistent(Cart([], -10))
  {
    assert [Line(p, -1)][1..] == [];
    assert FindIndex([], p) == -1;
    assert UpdateLine(EMPTY_CART, Line(p, -1), 10) == Cart([], -10);
  }

  /**
   * The update the code evidently intends: the new subtotal enters the total only in the
   * branches that keep or add an entry for the product.
   */
  function UpdateLineIntended(c: Cart, l: Line, price: int): (r: Cart)
    ensures r.items == UpdateLine(c, l, price).items
    ensures r.totalPrice == UpdateLine(c, l, price).totalPrice - LineDrift(l, price)
  {
    var subtotal := price * l.quantity;
    var i := FindIndex(c.items, l.productId);
    if i == -1 then
      if l.quantity > 0 then Cart(c.items + [CartItem(l.productId, l.quantity, subtotal)], c.totalPrice + subtotal)
      else c
    else if l.quantity <= 0 then
      Cart(c.items[..i] + c.items[i + 1..], c.totalPrice - c.items[i].subtotal)
    else
      Cart(c.items[i := c.items[i].(quantity := l.quantity, subtotal := subtotal)],
           c.totalPrice - c.items[i].subtotal + subtotal)
  }

  /** The intended update keeps the cart invariant for every quantity, negative ones included. */
  lemma UpdateLineIntendedKeeps(c: Cart, l: Line, price: int)
    ensures Gap(UpdateLineIntended(c, l, price)) == Gap(c)
    ensures UniqueIds(c.items) ==> UniqueIds(UpdateLineIntended(c, l, price).items)
  {
    UpdateLineKeeps(c, l, price);
    var i := FindIndex(c.items, l.productId);
    if i == -1 && l.quantity > 0 {
      SumPush(c.items, CartItem(l.productId, l.quantity, price * l.quantity));
    }
  }

  /** On a quantity that is not negative the intended update and the written one agree. */
  lemma IntendedAgreesOnNonNegative(c: Cart, l: Line, price: int)
    requires l.quantity >= 0
    ensures UpdateLineIntended(c, l, price) == UpdateLine(c, l, price)
  {
  }

  /** The request loop of `updateCartQuantity` with the intended update of each line. */
  function UpdateLinesIntended(c: Cart, lines: seq<Line>, products: map<ProductId, Product>): Result<Cart>
    decreases |lines|
  {
    if lines == [] then Ok(c)
    else if lines[0].productId !in products then Err(ProductNotFound(lines[0].productId))
    else UpdateLinesIntended(UpdateLineIntended(c, lines[0], products[lines[0].productId].price), lines[1..], products)
  }

  /**
   * The intended `updateCartQuantity` succeeds exactly when every product is known, and then
   * keeps `totalPrice - Σ subtotal` and one entry per product, whatever the quantities.
   */
  lemma {:induction false} UpdateLinesIntendedKeeps(c: Cart, lines: seq<Line>, products: map<ProductId, Product>)
    ensures UpdateLinesIntended(c, lines, products).Ok? <==> AllKnown(lines, products)
    ensures UpdateLinesIntended(c, lines, products).Ok? ==>
      var r := UpdateLinesIntended(c, lines, products).value;
      Gap(r) == Gap(c) && (UniqueIds(c.items) ==> UniqueIds(r.items))
    decreases |lines|
  {
    if lines != [] {
      var l := lines[0];
      assert forall k :: 1 <= k < |lines| ==> lines[k] == lines[1..][k - 1];
      if l.productId in products {
        var next := UpdateLineIntended(c, l, products[l.productId].price);
        UpdateLineIntendedKeeps(c, l, products[l.productId].price);
        UpdateLinesIntendedKeeps(next, lines[1..], products);
        assert AllKnown(lines, products) <==> AllKnown(lines[1..], products);
      }
    }
  }

  /** On a request without negative quantities the intended loop and the written one give the same answer. */
  lemma {:induction false} IntendedLinesAgreeOnNonNegative(c: Cart, lines: seq<Line>, products: map<ProductId, Product>)
    requires forall k :: 0 <= k < |lines| ==> lines[k].quantity >= 0
    ensures UpdateLinesIntended(c, lines, products) == UpdateLines(c, lines, products)
    decreases |lines|
  {
    if lines != [] && lines[0].productId in products {
      var price := products[lines[0].productId].price;
      IntendedAgreesOnNonNegative(c, lines[0], price);
      assert forall k :: 0 <= k < |lines[1..]| ==> lines[1..][k] == lines[k + 1];
      IntendedLinesAgreeOnNonNegative(UpdateLine(c, lines[0], price), lines[1..], products);
    }
  }

  /**
   * Started from carts with the same items, the written update and the intended one change the
   * items alike; the written total keeps the offset it started with and gains `LineDrift`.
   */
  lemma UpdateLineVersusIntended(w: Cart, v: Cart, l: Line, price: int)
    requires w.items == v.items
    ensures UpdateLine(w, l, price).items == UpdateLineIntended(v, l, price).items
    ensures UpdateLine(w, l, price).totalPrice ==
      UpdateLineIntended(v, l, price).totalPrice + (w.totalPrice - v.totalPrice) + LineDrift(l, price)
  {
  }

  /**
   * Over a whole request, the loop as written and the intended loop fail alike and build the
   * same items; the written total ends up exactly the request's drift further from the intended one.
   */
  lemma {:induction false} UpdateLinesVersusIntended(w: Cart, v: Cart, lines: seq<Line>, products: map<ProductId, Product>)
    requires w.items == v.items
    ensures UpdateLines(w, lines, products).Ok? <==> UpdateLinesIntended(v, lines, products).Ok?
    ensures UpdateLinesIntended(v, lines, products).Ok? ==>
      UpdateLines(w, lines, products).value.items == UpdateLinesIntended(v, lines, products).value.items &&
      UpdateLines(w, lines, products).value.totalPrice ==
        UpdateLinesIntended(v, lines, products).value.totalPrice + (w.totalPrice - v.totalPrice) + Drift(lines, products)
    ensures UpdateLinesIntended(v, lines, products).Err? ==>
      UpdateLines(w, lines, products).failure == UpdateLinesIntended(v, lines, products).failure
    decreases |lines|
  {
    if lines != [] && lines[0].productId in products {
      var price := products[lines[0].productId].price;
      var w', v' := UpdateLine(w, lines[0], price), UpdateLineIntended(v, lines[0], price);
      UpdateLineVersusIntended(w, v, lines[0], price);
      assert Drift(lines, products) == LineDrift(lines[0], price) + Drift(lines[1..], products);
      UpdateLinesVersusIntended(w', v', lines[1..], products);
    }
  }

  /**
   * How the code as written would answer a request that got the answer `r`: it fails exactly
   * when `r` does, and on success it holds the same items with `Drift` added to the total.
   */
  predicate WrittenAnswer(c: Cart, lines: seq<Line>, products: map<ProductId, Product>, r: Result<Cart>)
  {
    (UpdateLines(c, lines, products).Ok? <==> r.Ok?) &&
    (r.Ok? ==> UpdateLines(c, lines, products) == Ok(Cart(r.value.items, r.value.totalPrice + Drift(lines, products))))
  }

  /** The intended loop's answer relates to the written loop's answer as `WrittenAnswer` says. */
  lemma IntendedVersusWritten(c: Cart, lines: seq<Line>, products: map<ProductId, Product>)
    ensures WrittenAnswer(c, lines, products, UpdateLinesIntended(c, lines, products))
  {
    UpdateLinesVersusIntended(c, c, lines, products);
  }

  // ---------------------------------------------------------------------------
  // removeFromCart: filter

  /** The entries for a product, in order. */
  function Matching(items: seq<CartItem>, pid: ProductId): seq<CartItem>
  {
    if items == [] then []
    else
      var last := items[|items| - 1];
      Matching(items[..|items| - 1], pid) + (if last.productId == pid then [last] else [])
  }

  /** `cartItems.filter(item => item.productId !== pid)`: every other entry, in order. */
  function Without(items: seq<CartItem>, pid: ProductId): seq<CartItem>
  {
    if items == [] then []
    else
      var last := items[|items| - 1];
      Without(items[..|items| - 1], pid) + (if last.productId != pid then [last] else [])
  }

  /** Extending a prefix by one entry extends its matching entries and their sum by that entry or by nothing. */
  lemma MatchingStep(items: seq<CartItem>, i: nat, pid: ProductId)
    requires i < |items|
    ensures Matching(items[..i + 1], pid) ==
      Matching(items[..i], pid) + (if items[i].productId == pid then [items[i]] else [])
    ensures Sum(Matching(items[..i + 1], pid)) ==
      Sum(Matching(items[..i], pid)) + (if items[i].productId == pid then items[i].subtotal else 0)
  {
    assert items[..i + 1][..i] == items[..i];
    if items[i].productId == pid {
      SumPush(Matching(items[..i], pid), items[i]);
    } else {
      assert Matching(items[..i], pid) + [] == Matching(items[..i], pid);
    }
  }

  /** Splitting the items by product splits their sum. */
  lemma {:induction false} SumSplit(items: seq<CartItem>, pid: ProductId)
    ensures Sum(items) == Sum(Matching(items, pid)) + Sum(Without(items, pid))
    ensures |items| == |Matching(items, pid)| + |Without(items, pid)|
    decreases |items|
  {
    if items != [] {
      var init, last := items[..|items| - 1], items[|items| - 1];
      assert items[..|items| - 1] == init;
      SumSplit(init, pid);
      if last.productId == pid {
        assert Matching(items, pid) == Matching(init, pid) + [last];
        assert Without(items, pid) == Without(init, pid);
        SumPush(Matching(init, pid), last);
      } else {
        assert Matching(items, pid) == Matching(init, pid);
        assert Without(items, pid) == Without(init, pid) + [last];
        SumPush(Without(init, pid), last);
      }
    }
  }

  /** What the filter keeps: exactly the entries of other products. */
  lemma {:induction false} WithoutMembers(items: seq<CartItem>, pid: ProductId)
    ensures forall e :: e in Without(items, pid) <==> e in items && e.productId != pid
    decreases |items|
  {
    if items != [] {
      var init, last := items[..|items| - 1], items[|items| - 1];
      WithoutMembers(init, pid);
      assert items == init + [last];
    }
  }

  /** What the matching filter keeps: exactly the entries of the product. */
  lemma {:induction false} MatchingMembers(items: seq<CartItem>, pid: ProductId)
    ensures forall e :: e in Matching(items, pid) <==> e in items && e.productId == pid
    decreases |items|
  {
    if items != [] {
      var init, last := items[..|items| - 1], items[|items| - 1];
      MatchingMembers(init, pid);
      assert items == init + [last];
    }
  }

  /** Filtering twice is filtering once, as happens when the loop meets a second matching entry. */
  lemma {:induction false} WithoutIdempotent(items: seq<CartItem>, pid: ProductId)
    ensures Without(Without(items, pid), pid) == Without(items, pid)
    decreases |items|
  {
    if items != [] {
      var init, last := items[..|items| - 1], items[|items| - 1];
      WithoutIdempotent(init, pid);
      var w := Without(init, pid);
      if last.productId != pid {
        assert Without(items, pid) == w + [last];
        assert (w + [last])[..|w|] == w;
      } else {
        assert Without(items, pid) == w;
      }
    }
  }

  /** Filtering keeps one entry per product. */
  lemma {:induction false} WithoutUnique(items: seq<CartItem>, pid: ProductId)
    requires UniqueIds(items)
    ensures UniqueIds(Without(items, pid))
    decreases |items|
  {
    if items != [] {
      var init, last := items[..|items| - 1], items[|items| - 1];
      assert UniqueIds(init);
      WithoutUnique(init, pid);
      WithoutMembers(init, pid);
      var w := Without(init, pid);
      if last.productId != pid {
        forall i, j | 0 <= i < j < |w + [last]| ensures (w + [last])[i].productId != (w + [last])[j].productId {
          if j == |w| {
            assert w[i] in init;
            var k :| 0 <= k < |init| && init[k] == w[i];
            assert items[k] == init[k];
          }
        }
      }
    }
  }

  const PRODUCT_NOT_IN_CART := Failure(404, "Product not found in cart")

  /**
   * `removeFromCart` on a found cart (controllers/cart.js:216-233): every entry for the
   * product goes, each removed subtotal leaves the total, and no matching entry is a 404.
   */
  function RemoveProduct(c: Cart, pid: ProductId): Result<Cart>
  {
    var removed := Matching(c.items, pid);
    if |removed| == 0 then Err(PRODUCT_NOT_IN_CART)
    else Ok(Cart(Without(c.items, pid), c.totalPrice - Sum(removed)))
  }

  /**
   * Removal succeeds exactly when the product has an entry; it then keeps the other entries
   * (in order, by `Without`) and drops every entry of the product, and it keeps the cart invariant.
   */
  lemma RemoveProductKeeps(c: Cart, pid: ProductId)
    ensures RemoveProduct(c, pid).Ok? <==> exists e :: e in c.items && e.productId == pid
    ensures RemoveProduct(c, pid).Ok? ==>
      var r := RemoveProduct(c, pid).value;
      (forall e :: e in r.items <==> e in c.items && e.productId != pid) &&
      Gap(r) == Gap(c) &&
      (UniqueIds(c.items) ==> UniqueIds(r.items))
  {
    SumSplit(c.items, pid);
    WithoutMembers(c.items, pid);
    MatchingMembers(c.items, pid);
    if UniqueIds(c.items) {
      WithoutUnique(c.items, pid);
    }
    var m := Matching(c.items, pid);
    assert |m| > 0 ==> m[0] in m;
  }
}
