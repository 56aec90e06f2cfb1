/**
 * The line-item rules of the cart handlers (server/controllers/cartController.js),
 * stated on the `items` array of one cart document: find the line of a product,
 * add to it or append one, set its quantity, filter it out, and sum quantities.
 * A cart holding at most one line per product is, in effect, a map from
 * product id to quantity; `QuantityOf` is that view.
 */
module CartRules {
  import opened Common

  /** One element of `cart.items`: `{ productId, quantity }`. */
  datatype LineItem = LineItem(productId: ProductId, quantity: int)

  /** At most one line per product. */
  predicate UniqueProducts(items: seq<LineItem>) {
    forall i, j :: 0 <= i < j < |items| ==> items[i].productId != items[j].productId
  }

  /** Every line has a positive quantity. */
  predicate AllPositive(items: seq<LineItem>) {
    forall k :: 0 <= k < |items| ==> items[k].quantity > 0
  }

  /** `items.find(item => item.productId === productId)`, as an index: the first matching line, or -1. */
  function LineIndex(items: seq<LineItem>, productId: ProductId): (i: int)
    ensures -1 <= i < |items|
    ensures i >= 0 ==> items[i].productId == productId
    ensures forall k :: 0 <= k < |items| && (i == -1 || k < i) ==> items[k].productId != productId
  {
    if |items| == 0 then -1
    else if items[0].productId == productId then 0
    else
      var k := LineIndex(items[1..], productId);
      if k == -1 then -1 else k + 1
  }

  /** `items.reduce((total, item) => total + item.quantity, 0)`. */
  function TotalQuantity(items: seq<LineItem>): int {
    if |items| == 0 then 0 else items[0].quantity + TotalQuantity(items[1..])
  }

  /** The quantity the cart holds of one product, summed over its lines. */
  function QuantityOf(items: seq<LineItem>, productId: ProductId): int {
    if |items| == 0 then 0
    else (if items[0].productId == productId then items[0].quantity else 0) + QuantityOf(items[1..], productId)
  }

  /** addToCart: add `quantity` to the product's existing line, or push a new line at the end. */
  function WithAdded(items: seq<LineItem>, productId: ProductId, quantity: int): seq<LineItem> {
    var i := LineIndex(items, productId);
    if i >= 0 then items[i := items[i].(quantity := items[i].quantity + quantity)]
    else items + [LineItem(productId, quantity)]
  }

  /** `items.filter(item => item.productId !== productId)`. */
  function WithoutProduct(items: seq<LineItem>, productId: ProductId): seq<LineItem> {
    if |items| == 0 then []
    else (if items[0].productId != productId then [items[0]] else []) + WithoutProduct(items[1..], productId)
  }

  /** updateCartItem on an existing line: a quantity <= 0 filters the product out, otherwise its line is set to exactly that quantity. */
  function WithQuantity(items: seq<LineItem>, productId: ProductId, quantity: int): seq<LineItem>
    requires LineIndex(items, productId) >= 0
  {
    if quantity <= 0 then WithoutProduct(items, productId)
    else
      var i := LineIndex(items, productId);
      items[i := items[i].(quantity := quantity)]
  }

  // ---- sums ---------------------------------------------------------------

  lemma {:induction false} TotalQuantityAppend(items: seq<LineItem>, x: LineItem)
    ensures TotalQuantity(items + [x]) == TotalQuantity(items) + x.quantity
  {
    if |items| > 0 {
      assert (items + [x])[1..] == items[1..] + [x];
      TotalQuantityAppend(items[1..], x);
    }
  }

  lemma {:induction false} QuantityOfAppend(items: seq<LineItem>, x: LineItem, p: ProductId)
    ensures QuantityOf(items + [x], p) == QuantityOf(items, p) + (if x.productId == p then x.quantity else 0)
  {
    if |items| > 0 {
      assert (items + [x])[1..] == items[1..] + [x];
      QuantityOfAppend(items[1..], x, p);
    }
  }

  lemma {:induction false} TotalQuantityUpdate(items: seq<LineItem>, i: int, x: LineItem)
    requires 0 <= i < |items|
    ensures TotalQuantity(items[i := x]) == TotalQuantity(items) - items[i].quantity + x.quantity
  {
    if i > 0 {
      assert items[i := x][1..] == items[1..][i - 1 := x];
      TotalQuantityUpdate(items[1..], i - 1, x);
    }
  }

  lemma {:induction false} QuantityOfUpdate(items: seq<LineItem>, i: int, x: LineItem, p: ProductId)
    requires 0 <= i < |items|
    ensures QuantityOf(items[i := x], p) ==
      QuantityOf(items, p) - (if items[i].productId == p then items[i].quantity else 0) + (if x.productId == p then x.quantity else 0)
  {
    if i > 0 {
      assert items[i := x][1..] == items[1..][i - 1 := x];
      QuantityOfUpdate(items[1..], i - 1, x, p);
    }
  }

  /** A product without a line has quantity 0. */
  lemma {:induction false} QuantityOfAbsent(items: seq<LineItem>, p: ProductId)
    requires forall k :: 0 <= k < |items| ==> items[k].productId != p
    ensures QuantityOf(items, p) == 0
  {
    if |items| > 0 {
      QuantityOfAbsent(items[1..], p);
    }
  }

  /** With one line per product, the quantity of a product is the quantity on its line. */
  lemma {:induction false} QuantityOfUnique(items: seq<LineItem>, p: ProductId)
    requires UniqueProducts(items)
    ensures QuantityOf(items, p) == (if LineIndex(items, p) >= 0 then items[LineIndex(items, p)].quantity else 0)
  {
    if |items| > 0 {
      if items[0].productId == p {
        QuantityOfAbsent(items[1..], p);
      } else {
        QuantityOfUnique(items[1..], p);
      }
    }
  }

  // ---- add ------------------------------------------------------------------

  /**
   * Adding raises the product's quantity by exactly the requested amount and
   * leaves every other product's quantity alone; an existing line is updated
   * in place (no new line), otherwise one line is appended. The total grows by
   * the requested amount, and one line per product is kept.
   */
  lemma WithAddedSpec(items: seq<LineItem>, productId: ProductId, quantity: int)
    ensures var r := WithAdded(items, productId, quantity);
      && QuantityOf(r, productId) == QuantityOf(items, productId) + quantity
      && (forall p :: p != productId ==> QuantityOf(r, p) == QuantityOf(items, p))
      && TotalQuantity(r) == TotalQuantity(items) + quantity
      && (LineIndex(items, productId) >= 0 ==> |r| == |items|)
      && (LineIndex(items, productId) == -1 ==> r == items + [LineItem(productId, quantity)])
      && (UniqueProducts(items) ==> UniqueProducts(r))
  {
    var i := LineIndex(items, productId);
    if i >= 0 {
      var x := items[i].(quantity := items[i].quantity + quantity);
      TotalQuantityUpdate(items, i, x);
      forall p ensures QuantityOf(items[i := x], p) ==
        QuantityOf(items, p) - (if items[i].productId == p then items[i].quantity else 0) + (if x.productId == p then x.quantity else 0) {
        QuantityOfUpdate(items, i, x, p);
      }
    } else {
      var x := LineItem(productId, quantity);
      TotalQuantityAppend(items, x);
      forall p ensures QuantityOf(items + [x], p) == QuantityOf(items, p) + (if x.productId == p then x.quantity else 0) {
        QuantityOfAppend(items, x, p);
      }
    }
  }

  /** Adding a positive amount keeps every quantity positive. */
  lemma WithAddedPositive(items: seq<LineItem>, productId: ProductId, quantity: int)
    requires AllPositive(items) && quantity >= 1
    ensures AllPositive(WithAdded(items, productId, quantity))
  {
  }

  // ---- remove -----------------------------------------------------------------

  /** Filtering distributes over concatenation, so the other lines keep their order. */
  lemma {:induction false} WithoutProductConcat(a: seq<LineItem>, b: seq<LineItem>, productId: ProductId)
    ensures WithoutProduct(a + b, productId) == WithoutProduct(a, productId) + WithoutProduct(b, productId)
  {
    if |a| > 0 {
      assert (a + b)[1..] == a[1..] + b;
      WithoutProductConcat(a[1..], b, productId);
    } else {
      assert a + b == b;
    }
  }

  /** Removing a product keeps exactly the lines of the other products. */
  lemma {:induction false} WithoutProductMembers(items: seq<LineItem>, productId: ProductId)
    ensures forall x :: x in WithoutProduct(items, productId) <==> x in items && x.productId != productId
    ensures |WithoutProduct(items, productId)| <= |items|
  {
    if |items| > 0 {
      WithoutProductMembers(items[1..], productId);
      assert items == [items[0]] + items[1..];
    }
  }

  /**
   * Removing a product sets its quantity to 0, leaves every other quantity
   * unchanged, and lowers the total by what it held.
   */
  lemma {:induction false} WithoutProductQuantities(items: seq<LineItem>, productId: ProductId)
    ensures var r := WithoutProduct(items, productId);
      && QuantityOf(r, productId) == 0
      && (forall p :: p != productId ==> QuantityOf(r, p) == QuantityOf(items, p))
      && TotalQuantity(r) == TotalQuantity(items) - QuantityOf(items, productId)
  {
    if |items| > 0 {
      WithoutProductQuantities(items[1..], productId);
      var rest := WithoutProduct(items[1..], productId);
      if items[0].productId != productId {
        assert WithoutProduct(items, productId) == [items[0]] + rest;
        assert ([items[0]] + rest)[1..] == rest;
      } else {
        assert WithoutProduct(items, productId) == rest;
      }
    }
  }

  /** Removing an absent product changes nothing. */
  lemma {:induction false} WithoutAbsentProduct(items: seq<LineItem>, productId: ProductId)
    requires LineIndex(items, productId) == -1
    ensures WithoutProduct(items, productId) == items
  {
    if |items| > 0 {
      WithoutAbsentProduct(items[1..], productId);
    }
  }

  /** Removing twice is removing once. */
  lemma WithoutProductIdempotent(items: seq<LineItem>, productId: ProductId)
    ensures WithoutProduct(WithoutProduct(items, productId), productId) == WithoutProduct(items, productId)
  {
    var r := WithoutProduct(items, productId);
    WithoutProductMembers(items, productId);
    forall k | 0 <= k < |r| ensures r[k].productId != productId {
      assert r[k] in r;
    }
    WithoutAbsentProduct(r, productId);
  }

  /** Filtering keeps a subsequence, so uniqueness and positivity survive it. */
  lemma {:induction false} WithoutProductKeepsInvariants(items: seq<LineItem>, productId: ProductId)
    ensures UniqueProducts(items) ==> UniqueProducts(WithoutProduct(items, productId))
    ensures AllPositive(items) ==> AllPositive(WithoutProduct(items, productId))
  {
    if |items| > 0 {
      WithoutProductKeepsInvariants(items[1..], productId);
      WithoutProductMembers(items[1..], productId);
      var rest := WithoutProduct(items[1..], productId);
      if UniqueProducts(items) && items[0].productId != productId {
        forall k | 0 <= k < |rest| ensures rest[k].productId != items[0].productId {
          assert rest[k] in items[1..];
        }
      }
    }
  }

  // ---- update -------------------------------------------------------------------

  /**
   * On a cart with one line per product, updating an existing line to a
   * positive quantity sets that product's quantity to exactly that value,
   * keeps the length and order, and touches no other line; a quantity <= 0
   * removes it. Either way, one line per product and positivity are kept.
   */
  lemma WithQuantitySpec(items: seq<LineItem>, productId: ProductId, quantity: int)
    requires UniqueProducts(items) && LineIndex(items, productId) >= 0
    ensures var r := WithQuantity(items, productId, quantity);
      && QuantityOf(r, productId) == (if quantity <= 0 then 0 else quantity)
      && (forall p :: p != productId ==> QuantityOf(r, p) == QuantityOf(items, p))
      && (quantity > 0 ==> |r| == |items| && forall k :: 0 <= k < |r| && k != LineIndex(items, productId) ==> r[k] == items[k])
      && (quantity <= 0 ==> r == WithoutProduct(items, productId))
      && UniqueProducts(r)
      && (AllPositive(items) ==> AllPositive(r))
  {
    WithoutProductKeepsInvariants(items, productId);
    WithoutProductQuantities(items, productId);
    if quantity > 0 {
      var i := LineIndex(items, productId);
      var x := items[i].(quantity := quantity);
      QuantityOfUnique(items, productId);
      forall p ensures QuantityOf(items[i := x], p) ==
        QuantityOf(items, p) - (if items[i].productId == p then items[i].quantity else 0) + (if x.productId == p then x.quantity else 0) {
        QuantityOfUpdate(items, i, x, p);
      }
    }
  }
}
