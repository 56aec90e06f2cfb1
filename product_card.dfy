/**
 * The pricing a product card displays and its add-to-cart handler
 * (client/src/components/cards/ProductCard.tsx). The card recomputes the
 * effective price and the discount flag itself; they are compared here with
 * the server's getters. Amounts are integer cents.
 */
module ProductCard {
  import opened Common
  import opened ProductModel
  import opened ProductHelpers
  import opened CartApi
  import CartController

  /** `product.discountedPrice || product.price`: a null or zero discounted price falls back to the price. */
  function CardEffectivePrice(p: Product): int {
    match p.discountedPrice
    case Some(d) => if d != 0 then d else p.price
    case None => p.price
  }

  /** `product.discountedPrice !== null`. */
  predicate CardHasDiscount(p: Product) {
    p.discountedPrice.Some?
  }

  /** The percentage shown next to a discount, 0 without one; a price of 0 would divide by zero. */
  function CardDiscountPercentage(p: Product): int
    requires CardHasDiscount(p) ==> p.price > 0
  {
    if CardHasDiscount(p) then CalculateDiscountPercentage(p.price, p.discountedPrice.value) else 0
  }

  /** `product.savings || (product.price - effectivePrice)`. */
  function CardSavings(p: Product, savings: Option<int>): int {
    if savings.Some? && savings.value != 0 then savings.value else p.price - CardEffectivePrice(p)
  }

  /** Both treat 0 as "no discounted price": the card's effective price is the server's. */
  lemma CardEffectivePriceIsServerGetter(p: Product)
    ensures CardEffectivePrice(p) == EffectivePrice(p)
  {
  }

  /**
   * The card's flag is weaker than the server's `hasDiscount`: it also holds
   * when the discounted price is not below the price, and exactly then do the
   * two disagree.
   */
  lemma CardHasDiscountVersusServer(p: Product)
    ensures HasDiscount(p) ==> CardHasDiscount(p)
    ensures (CardHasDiscount(p) && !HasDiscount(p)) <==> (p.discountedPrice.Some? && p.discountedPrice.value >= p.price)
  {
  }

  /** A discounted price above the price shows a struck-through discount with negative savings and no positive percentage. */
  lemma DiscountAbovePriceShown()
    ensures var p := Product("id", "t", "d", 1000, Some(1200), "i", Mobiles, true, 0);
      && CardHasDiscount(p) && !HasDiscount(p)
      && CardSavings(p, None) == -200
      && CardDiscountPercentage(p) == -20
  {
    var p := Product("id", "t", "d", 1000, Some(1200), "i", Mobiles, true, 0);
    assert CalculateDiscountPercentage(1000, 1200) == (200 * (1000 - 1200) + 1000) / 2000;
  }

  /**
   * With a discounted price between 0 and the price the percentage lies in
   * 0..100, and it never grows as the discounted price grows.
   */
  lemma CardDiscountPercentageRange(p: Product, q: Product)
    requires p.price > 0 && p.discountedPrice.Some? && 0 <= p.discountedPrice.value <= p.price
    requires q.price == p.price && q.discountedPrice.Some? && q.discountedPrice.value >= p.discountedPrice.value
    ensures 0 <= CardDiscountPercentage(p) <= 100
    ensures CardDiscountPercentage(q) <= CardDiscountPercentage(p)
  {
    DiscountPercentageRange(p.price, p.discountedPrice.value);
    DiscountPercentageAntitone(p.price, p.discountedPrice.value, q.discountedPrice.value);
  }

  /**
   * Without a `savings` field the savings are the price minus the effective
   * price; they are positive exactly when the server reports a discount with
   * a non-zero discounted price.
   */
  lemma CardSavingsSpec(p: Product)
    ensures CardSavings(p, None) == p.price - EffectivePrice(p)
    ensures CardSavings(p, None) > 0 <==> (HasDiscount(p) && p.discountedPrice.value != 0)
  {
  }

  /** A truthy `savings` field is shown as it is, whatever the prices. */
  lemma CardSavingsField(p: Product, s: int)
    requires s != 0
    ensures CardSavings(p, Some(s)) == s
  {
  }

  /** The request `handleAddToCart` sends: none for an out-of-stock product, otherwise one of quantity 1. */
  function AddRequest(p: Product, sessionId: SessionId): Option<Mutation> {
    if !p.inStock then None else Some(AddToCart(CartBody(sessionId, p.id, 1)))
  }

  /** The add request of an in-stock card is one the server accepts, as long as there is a session id and the product exists. */
  lemma AddRequestAccepted(p: Product, sessionId: SessionId, products: map<ProductId, Product>)
    requires p.inStock && sessionId != "" && p.id != ""
    requires p.id in products && products[p.id] == p
    ensures AddRequest(p, sessionId).Some?
    ensures var b := AddRequest(p, sessionId).value.add;
      b.sessionId == sessionId && b.productId == p.id && b.quantity == 1
    ensures CartController.AddToCartStatus(products, sessionId, p.id) == Success
  {
  }

  /** The card's own state. */
  class ProductCardState {
    var isAdded: bool

    constructor ()
      ensures !isAdded
    {
      isAdded := false;
    }

    /**
     * `handleAddToCart`: an out-of-stock product sends nothing and changes
     * nothing; otherwise the add request goes out and, when it succeeds, the
     * button shows "added" and opening the cart is scheduled.
     * `requestSucceeds` is the outcome of the request.
     */
    method HandleAddToCart(p: Product, sessionId: SessionId, requestSucceeds: bool) returns (sent: Option<Mutation>, opensCart: bool)
      modifies this
      ensures sent == AddRequest(p, sessionId)
      ensures opensCart == (p.inStock && requestSucceeds)
      ensures isAdded == (old(isAdded) || (p.inStock && requestSucceeds))
    {
      if !p.inStock {
        return None, false;
      }
      sent := Some(AddToCart(CartBody(sessionId, p.id, 1)));
      opensCart := false;
      if requestSucceeds {
        isAdded := true;
        opensCart := true;
      }
    }

    /** The timer two seconds after a successful add. */
    method ResetAdded()
      modifies this
      ensures !isAdded
    {
      isAdded := false;
    }
  }
}
