/**
 * The cart handlers (server/controllers/cartController.js) over an in-memory
 * cart collection. `CartStore.carts` maps a session id to the `items` of that
 * session's cart document; a handler loads the document into a `Cart`,
 * changes its items in place, and saves them back. Products are looked up in
 * a map from id to product. Amounts are integer cents.
 */
module CartController {
  import opened Common
  import opened ProductModel
  import opened CartRules

  /** A cart document loaded for one request; the handlers change its `items`. */
  class Cart {
    var items: seq<LineItem>

    constructor (items: seq<LineItem>)
      ensures this.items == items
    {
      this.items := items;
    }

    /** `cart.items.find(item => item.productId.toString() === productId)`, as an index (-1: none). */
    method FindLine(productId: ProductId) returns (i: int)
      ensures i == LineIndex(items, productId)
    {
      i := 0;
      while i < |items| && items[i].productId != productId
        invariant 0 <= i <= |items|
        invariant forall k :: 0 <= k < i ==> items[k].productId != productId
      {
        i := i + 1;
      }
      if i == |items| {
        i := -1;
      }
    }

    /** `existingItem.quantity += quantity`, or `cart.items.push({ productId, quantity })`. */
    method AddQuantity(productId: ProductId, quantity: int)
      modifies this
      ensures items == WithAdded(old(items), productId, quantity)
    {
      var i := FindLine(productId);
      if i >= 0 {
        items := items[i := items[i].(quantity := items[i].quantity + quantity)];
      } else {
        items := items + [LineItem(productId, quantity)];
      }
    }

    /** `item.quantity = quantity` on the line found at index `i`. */
    method SetQuantity(i: int, quantity: int)
      requires 0 <= i < |items|
      modifies this
      ensures items == old(items)[i := old(items)[i].(quantity := quantity)]
    {
      items := items[i := items[i].(quantity := quantity)];
    }

    /** `cart.items = cart.items.filter(item => item.productId.toString() !== productId)`. */
    method RemoveProduct(productId: ProductId)
      modifies this
      ensures items == WithoutProduct(old(items), productId)
    {
      var all, kept: seq<LineItem> := items, [];
      for i := 0 to |all|
        invariant kept == WithoutProduct(all[..i], productId)
      {
        assert all[..i + 1] == all[..i] + [all[i]];
        WithoutProductConcat(all[..i], [all[i]], productId);
        if all[i].productId != productId {
          kept := kept + [all[i]];
        }
      }
      assert all[..|all|] == all;
      items := kept;
    }
  }

  // ---- the getCart response -------------------------------------------------------

  /** One line of the getCart response, joined with the product. */
  datatype CartLine = CartLine(productId: ProductId, title: string, price: int, image: string, quantity: int, subtotal: int)

  /** The getCart response body: the lines and the summary totals. */
  datatype CartView = CartView(sessionId: SessionId, items: seq<CartLine>, totalItems: int, totalAmount: int)

  /** Every line refers to a product that still exists. */
  predicate AllKnown(items: seq<LineItem>, products: map<ProductId, Product>) {
    forall k :: 0 <= k < |items| ==> items[k].productId in products
  }

  /** The response line of one cart line: the base price times the quantity. */
  function ViewOf(item: LineItem, p: Product): CartLine {
    CartLine(item.productId, p.title, p.price, p.image, item.quantity, p.price * item.quantity)
  }

  /** `cart.items.map(...)`: the response lines in stored order. */
  function LineViews(items: seq<LineItem>, products: map<ProductId, Product>): seq<CartLine>
    requires AllKnown(items, products)
  {
    seq(|items|, k requires 0 <= k < |items| => ViewOf(items[k], products[items[k].productId]))
  }

  /** The sum of the response lines' subtotals. */
  function SubtotalSum(lines: seq<CartLine>): int {
    if |lines| == 0 then 0 else lines[0].subtotal + SubtotalSum(lines[1..])
  }

  lemma {:induction false} SubtotalSumAppend(lines: seq<CartLine>, x: CartLine)
    ensures SubtotalSum(lines + [x]) == SubtotalSum(lines) + x.subtotal
  {
    if |lines| > 0 {
      assert (lines + [x])[1..] == lines[1..] + [x];
      SubtotalSumAppend(lines[1..], x);
    }
  }

  // ---- statuses -------------------------------------------------------------------

  /** addToCart's checks, in order: missing ids (400), unknown product (404), out of stock (400). */
  function AddToCartStatus(products: map<ProductId, Product>, sessionId: SessionId, productId: ProductId): HttpStatus {
    if sessionId == "" || productId == "" then BadRequest
    else if productId !in products then NotFound
    else if !products[productId].inStock then BadRequest
    else Success
  }

  /** updateCartItem's checks, in order: missing field (400), no cart (404), no line for the product (404). */
  function UpdateCartItemStatus(carts: map<SessionId, seq<LineItem>>, sessionId: SessionId, productId: ProductId, quantity: Option<int>): HttpStatus {
    if sessionId == "" || productId == "" || quantity.None? then BadRequest
    else if sessionId !in carts then NotFound
    else if LineIndex(carts[sessionId], productId) == -1 then NotFound
    else Success
  }

  /** The cart collection. */
  class CartStore {
    var carts: map<SessionId, seq<LineItem>>

    /** Every stored cart holds at most one line per product. */
    ghost predicate Valid()
      reads this
    {
      forall s :: s in carts ==> UniqueProducts(carts[s])
    }

    constructor ()
      ensures carts == map[] && Valid()
    {
      carts := map[];
    }

    /**
     * addToCart: the checks run before any cart is read or created, and a
     * rejected request changes nothing. Otherwise the session's cart (a new
     * empty one if it had none) gets the quantity (default 1) added, no other
     * cart changes, and the reply carries the cart's new total quantity.
     */
    method AddToCart(products: map<ProductId, Product>, sessionId: SessionId, productId: ProductId, quantity: Option<int>)
      returns (status: HttpStatus, totalItems: Option<int>)
      requires Valid()
      modifies this
      ensures Valid()
      ensures status == AddToCartStatus(products, sessionId, productId)
      ensures status != Success ==> carts == old(carts) && totalItems == None
      ensures status == Success ==>
        var before := if sessionId in old(carts) then old(carts)[sessionId] else [];
        && carts == old(carts)[sessionId := WithAdded(before, productId, quantity.GetOr(1))]
        && totalItems == Some(TotalQuantity(carts[sessionId]))
    {
      if sessionId == "" || productId == "" {
        return BadRequest, None;
      }
      if productId !in products {
        return NotFound, None;
      }
      if !products[productId].inStock {
        return BadRequest, None;
      }
      var cart := new Cart(if sessionId in carts then carts[sessionId] else []);
      cart.AddQuantity(productId, quantity.GetOr(1));
      WithAddedSpec(if sessionId in carts then carts[sessionId] else [], productId, quantity.GetOr(1));
      carts := carts[sessionId := cart.items];
      status, totalItems := Success, Some(TotalQuantity(cart.items));
    }

    /**
     * getCart: a session without a cart gets an empty cart with zero totals;
     * otherwise the lines in stored order, each priced at the product's base
     * price, with the summed quantities and subtotals.
     */
    method GetCart(products: map<ProductId, Product>, sessionId: SessionId) returns (view: CartView)
      requires sessionId in carts ==> AllKnown(carts[sessionId], products)
      ensures sessionId !in carts ==> view == CartView(sessionId, [], 0, 0)
      ensures sessionId in carts ==>
        && view.sessionId == sessionId
        && view.items == LineViews(carts[sessionId], products)
        && view.totalItems == TotalQuantity(carts[sessionId])
        && view.totalAmount == SubtotalSum(view.items)
    {
      if sessionId !in carts {
        return CartView(sessionId, [], 0, 0);
      }
      var items := carts[sessionId];
      var totalAmount, totalItems := 0, 0;
      var lines: seq<CartLine> := [];
      for i := 0 to |items|
        invariant lines == LineViews(items[..i], products)
        invariant totalItems == TotalQuantity(items[..i])
        invariant totalAmount == SubtotalSum(lines)
      {
        var product := products[items[i].productId];
        var subtotal := product.price * items[i].quantity;
        totalAmount := totalAmount + subtotal;
        totalItems := totalItems + items[i].quantity;
        var line := CartLine(items[i].productId, product.title, product.price, product.image, items[i].quantity, subtotal);
        SubtotalSumAppend(lines, line);
        TotalQuantityAppend(items[..i], items[i]);
        assert items[..i + 1] == items[..i] + [items[i]];
        lines := lines + [line];
      }
      assert items[..|items|] == items;
      view := CartView(sessionId, lines, totalItems, totalAmount);
    }

    /**
     * updateCartItem: the cart and then the line must exist (404), checked
     * before the quantity is looked at. A quantity <= 0 removes the product's
     * line, a positive one sets it; nothing else changes.
     */
    method UpdateCartItem(sessionId: SessionId, productId: ProductId, quantity: Option<int>) returns (status: HttpStatus)
      requires Valid()
      modifies this
      ensures Valid()
      ensures status == UpdateCartItemStatus(old(carts), sessionId, productId, quantity)
      ensures status != Success ==> carts == old(carts)
      ensures status == Success ==>
        carts == old(carts)[sessionId := WithQuantity(old(carts)[sessionId], productId, quantity.value)]
    {
      if sessionId == "" || productId == "" || quantity.None? {
        return BadRequest;
      }
      if sessionId !in carts {
        return NotFound;
      }
      var cart := new Cart(carts[sessionId]);
      var i := cart.FindLine(productId);
      if i == -1 {
        return NotFound;
      }
      if quantity.value <= 0 {
        cart.RemoveProduct(productId);
      } else {
        cart.SetQuantity(i, quantity.value);
      }
      WithQuantitySpec(carts[sessionId], productId, quantity.value);
      carts := carts[sessionId := cart.items];
      status := Success;
    }

    /**
     * removeFromCart: 404 only when the session has no cart; otherwise the
     * product's lines are filtered out (none is fine) and the cart is kept,
     * even when it becomes empty.
     */
    method RemoveFromCart(sessionId: SessionId, productId: ProductId) returns (status: HttpStatus)
      requires Valid()
      modifies this
      ensures Valid()
      ensures status == (if sessionId in old(carts) then Success else NotFound)
      ensures sessionId !in old(carts) ==> carts == old(carts)
      ensures sessionId in old(carts) ==>
        carts == old(carts)[sessionId := WithoutProduct(old(carts)[sessionId], productId)]
    {
      if sessionId !in carts {
        return NotFound;
      }
      var cart := new Cart(carts[sessionId]);
      cart.RemoveProduct(productId);
      WithoutProductKeepsInvariants(carts[sessionId], productId);
      carts := carts[sessionId := cart.items];
      status := Success;
    }

    /** clearCart: always succeeds, and afterwards the session has no cart. */
    method ClearCart(sessionId: SessionId) returns (status: HttpStatus)
      requires Valid()
      modifies this
      ensures Valid()
      ensures status == Success
      ensures carts == old(carts) - {sessionId}
    {
      carts := carts - {sessionId};
      status := Success;
    }
  }

  // ---- properties of the handlers' results ------------------------------------------

  /** Rejections come in the handler's order: missing ids first, then an unknown product, then stock. */
  lemma AddToCartStatusOrder(products: map<ProductId, Product>, sessionId: SessionId, productId: ProductId)
    ensures sessionId == "" || productId == "" ==> AddToCartStatus(products, sessionId, productId).Code() == 400
    ensures sessionId != "" && productId != "" && productId !in products ==> AddToCartStatus(products, sessionId, productId).Code() == 404
    ensures AddToCartStatus(products, sessionId, productId) == Success <==>
      sessionId != "" && productId != "" && productId in products && products[productId].inStock
  {
  }

  /** A missing line is 404 whatever the quantity, including quantities that would remove it. */
  lemma UpdateMissingLineIgnoresQuantity(carts: map<SessionId, seq<LineItem>>, sessionId: SessionId, productId: ProductId, q1: int, q2: int)
    requires sessionId != "" && productId != ""
    requires sessionId !in carts || LineIndex(carts[sessionId], productId) == -1
    ensures UpdateCartItemStatus(carts, sessionId, productId, Some(q1)) == NotFound
    ensures UpdateCartItemStatus(carts, sessionId, productId, Some(q2)) == NotFound
  {
  }

  /** The amount is computed from base prices only: changing discounted prices changes nothing in the cart view. */
  lemma LineViewsIgnoreDiscount(items: seq<LineItem>, products: map<ProductId, Product>, discounted: map<ProductId, Product>)
    requires AllKnown(items, products)
    requires products.Keys == discounted.Keys
    requires forall id :: id in products ==> discounted[id] == products[id].(discountedPrice := discounted[id].discountedPrice)
    ensures LineViews(items, discounted) == LineViews(items, products)
  {
  }

  /** With non-negative prices and quantities the cart amount is non-negative. */
  lemma {:induction false} SubtotalSumNonNegative(lines: seq<CartLine>)
    requires forall k :: 0 <= k < |lines| ==> lines[k].subtotal >= 0
    ensures SubtotalSum(lines) >= 0
  {
    if |lines| > 0 {
      SubtotalSumNonNegative(lines[1..]);
    }
  }

  /**
   * Adding q of a product that was not in the cart and then reading the cart
   * shows a last line for it with quantity q and subtotal price * q, and both
   * totals grow by exactly that line.
   */
  lemma AddThenView(items: seq<LineItem>, products: map<ProductId, Product>, productId: ProductId, q: int)
    requires AllKnown(items, products) && productId in products
    requires LineIndex(items, productId) == -1
    ensures AllKnown(WithAdded(items, productId, q), products)
    ensures var lines := LineViews(WithAdded(items, productId, q), products);
      && |lines| == |items| + 1
      && lines[|items|].productId == productId
      && lines[|items|].quantity == q
      && lines[|items|].subtotal == products[productId].price * q
      && SubtotalSum(lines) == SubtotalSum(LineViews(items, products)) + products[productId].price * q
      && TotalQuantity(WithAdded(items, productId, q)) == TotalQuantity(items) + q
  {
    var after := WithAdded(items, productId, q);
    var x := LineItem(productId, q);
    assert after == items + [x];
    assert LineViews(after, products) == LineViews(items, products) + [ViewOf(x, products[productId])];
    SubtotalSumAppend(LineViews(items, products), ViewOf(x, products[productId]));
    TotalQuantityAppend(items, x);
  }

  /** The scenarios the handlers are meant to satisfy, checked against the method contracts alone. */
  method HandlerScenarios(phone: Product)
    requires phone.id == "p1" && phone.inStock
  {
    var store := new CartStore();
    var products := map["p1" := phone];
    var status, total := store.AddToCart(products, "s", "missing-id", Some(1));
    assert status.Code() == 404 && "s" !in store.carts;
    status, total := store.AddToCart(products, "s", "p1", Some(2));
    assert status == Success && total == Some(2);
    status, total := store.AddToCart(products, "s", "p1", None);
    assert store.carts["s"] == [LineItem("p1", 3)] && total == Some(3);
    assert WithoutProduct([LineItem("p1", 3)], "p1") == [];
    status := store.UpdateCartItem("s", "p1", Some(0));
    assert status == Success && store.carts["s"] == [];
    status := store.UpdateCartItem("s", "p1", Some(0));
    assert status == NotFound;
    status := store.RemoveFromCart("s", "p1");
    assert status == Success && store.carts["s"] == [];
    status := store.ClearCart("s");
    status := store.ClearCart("s");
    assert status == Success && "s" !in store.carts;
    status := store.RemoveFromCart("s", "p1");
    assert status == NotFound;
  }
}
