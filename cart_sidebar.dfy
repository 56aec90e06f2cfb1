/**
 * The cart sidebar (client/src/components/shared/Navbar/CartSidebar.tsx): when
 * it fetches the cart, what it copies into the cart slice, and the request
 * each of its buttons sends. The buttons are related here to what the server's
 * cart handlers then do to the session's stored lines.
 */
module CartSidebar {
  import opened Common
  import opened CartRules
  import opened CartApi
  import CartSlice
  import CartController
  import UiSlice
  import opened ProductModel

  /** The `skip` option of the cart query: no fetch without a session id or while the sidebar is closed. */
  predicate SkipFetch(sessionId: SessionId, isCartOpen: bool) {
    sessionId == "" || !isCartOpen
  }

  /** `handleUpdateQuantity`: a new quantity of exactly 0 is sent as a removal, any other as an update. */
  function QuantityMutation(sessionId: SessionId, productId: ProductId, newQuantity: int): Mutation {
    if newQuantity == 0 then RemoveFromCart(sessionId, productId)
    else UpdateCartItem(CartBody(sessionId, productId, newQuantity))
  }

  /** The minus button of a displayed line. */
  function MinusMutation(sessionId: SessionId, line: CartController.CartLine): Mutation {
    QuantityMutation(sessionId, line.productId, line.quantity - 1)
  }

  /** The plus button of a displayed line. */
  function PlusMutation(sessionId: SessionId, line: CartController.CartLine): Mutation {
    QuantityMutation(sessionId, line.productId, line.quantity + 1)
  }

  /** The delete button of a displayed line (`handleRemoveItem`). */
  function DeleteMutation(sessionId: SessionId, line: CartController.CartLine): Mutation {
    RemoveFromCart(sessionId, line.productId)
  }

  /**
   * What a successful cart handler does to a session's lines (`ApplyMutation`
   * ties it to the handlers): remove filters the product out, update sets an
   * existing line (a missing one is a 404 without a change), add adds, clear
   * leaves no line. A rejected add changes nothing; the stock checks are the
   * handler's status, not part of this function.
   */
  function ServerEffect(items: seq<LineItem>, m: Mutation): seq<LineItem> {
    match m
    case AddToCart(b) => WithAdded(items, b.productId, b.quantity)
    case UpdateCartItem(b) =>
      if LineIndex(items, b.productId) >= 0 then WithQuantity(items, b.productId, b.quantity) else items
    case RemoveFromCart(_, p) => WithoutProduct(items, p)
    case ClearCart(_) => []
  }

  /**
   * A mutation as the server's handlers carry it out on the cart store: the
   * request of `MutationRequest` reaching its handler. When the handler
   * succeeds, the session's lines become `ServerEffect` of its lines before
   * (none for a session that had no cart); when it fails, no cart changes.
   * Clearing differs in form only: the server deletes the session's cart,
   * which `getCart` then shows exactly as an empty one.
   */
  method ApplyMutation(store: CartController.CartStore, products: map<ProductId, Product>, m: Mutation)
    returns (status: HttpStatus)
    requires store.Valid()
    modifies store
    ensures store.Valid()
    ensures status != Success ==> store.carts == old(store.carts)
    ensures status == Success && !m.ClearCart? ==>
      var before := if SessionOf(m) in old(store.carts) then old(store.carts)[SessionOf(m)] else [];
      store.carts == old(store.carts)[SessionOf(m) := ServerEffect(before, m)]
    ensures m.ClearCart? ==> status == Success && store.carts == old(store.carts) - {SessionOf(m)}
    ensures m.AddToCart? ==> status == CartController.AddToCartStatus(products, m.add.sessionId, m.add.productId)
    ensures m.UpdateCartItem? ==>
      status == CartController.UpdateCartItemStatus(old(store.carts), m.update.sessionId, m.update.productId, Some(m.update.quantity))
    ensures m.RemoveFromCart? ==> (status == Success <==> SessionOf(m) in old(store.carts))
  {
    match m
    case AddToCart(b) =>
      var totalItems;
      status, totalItems := store.AddToCart(products, b.sessionId, b.productId, Some(b.quantity));
    case UpdateCartItem(b) =>
      status := store.UpdateCartItem(b.sessionId, b.productId, Some(b.quantity));
    case RemoveFromCart(s, p) =>
      status := store.RemoveFromCart(s, p);
    case ClearCart(s) =>
      status := store.ClearCart(s);
  }

  /** The response lines as the effect hands them to `setCartItems`; `ids` are the lines' sub-document ids. */
  function ClientItems(lines: seq<CartController.CartLine>, ids: seq<string>): seq<CartSlice.CartItem>
    requires |ids| == |lines|
  {
    seq(|lines|, k requires 0 <= k < |lines| =>
      CartSlice.CartItem(ids[k], lines[k].productId, lines[k].title, lines[k].price, lines[k].image, lines[k].quantity, lines[k].subtotal))
  }

  /** `cartData?.data?.items || []`: the lines shown, none before the first response. */
  function DisplayedItems(data: Option<CartController.CartView>): seq<CartController.CartLine> {
    if data.Some? then data.value.items else []
  }

  /** `summary.totalItems || 0`. */
  function DisplayedTotalItems(data: Option<CartController.CartView>): int {
    if data.Some? then data.value.totalItems else 0
  }

  /** `summary.totalAmount || 0`. */
  function DisplayedTotalAmount(data: Option<CartController.CartView>): int {
    if data.Some? then data.value.totalAmount else 0
  }

  /**
   * The cart is fetched exactly when there is a session id and the sidebar is
   * open: `openCart` starts fetching for a session, and `closeCart`,
   * `openCheckoutModal`, `openSuccessModal` or opening the mobile menu stop it.
   */
  lemma SkipFetchFollowsUi(sessionId: SessionId, ui: UiSlice.UIState)
    ensures !SkipFetch(sessionId, ui.isCartOpen) <==> (sessionId != "" && ui.isCartOpen)
    ensures sessionId != "" ==> !SkipFetch(sessionId, UiSlice.OpenCart(ui).isCartOpen)
    ensures SkipFetch(sessionId, UiSlice.CloseCart(ui).isCartOpen)
    ensures SkipFetch(sessionId, UiSlice.OpenCheckoutModal(ui).isCartOpen)
    ensures SkipFetch(sessionId, UiSlice.OpenSuccessModal(ui).isCartOpen)
    ensures !ui.isMobileMenuOpen ==> SkipFetch(sessionId, UiSlice.ToggleMobileMenu(ui).isCartOpen)
  {
  }

  /**
   * Only 0 becomes a removal; every other quantity, negative ones included,
   * is sent unchanged as an update. Either way the request is for the given
   * session and product.
   */
  lemma QuantityMutationSpec(sessionId: SessionId, productId: ProductId, newQuantity: int)
    ensures var m := QuantityMutation(sessionId, productId, newQuantity);
      && (m.RemoveFromCart? <==> newQuantity == 0)
      && (m.RemoveFromCart? ==> m.removeProduct == productId)
      && (m.UpdateCartItem? ==> m.update.productId == productId && m.update.quantity == newQuantity)
      && (m.RemoveFromCart? || m.UpdateCartItem?)
      && SessionOf(m) == sessionId
  {
  }

  /**
   * Sending 0 as a removal is only a shortcut: for a product with a line, the
   * server leaves the same lines as if the update had been sent as it is.
   */
  lemma {:induction false} ZeroAsRemovalSameEffect(items: seq<LineItem>, sessionId: SessionId, productId: ProductId, newQuantity: int)
    requires LineIndex(items, productId) >= 0
    ensures ServerEffect(items, QuantityMutation(sessionId, productId, newQuantity))
         == ServerEffect(items, UpdateCartItem(CartBody(sessionId, productId, newQuantity)))
  {
  }

  /** With one line per product, the line of a product is the one the search finds. */
  lemma {:induction false} LineIndexOfLine(items: seq<LineItem>, k: int)
    requires UniqueProducts(items) && 0 <= k < |items|
    ensures LineIndex(items, items[k].productId) == k
  {
    assert forall j :: 0 <= j < k ==> items[j].productId != items[k].productId;
  }

  /**
   * On a cart with one positive line per product, setting the line at `k` to
   * `q` changes the total by `q` minus its old quantity and that product's
   * quantity to `q`, whether `q` is sent as an update or, being 0, as a
   * removal; the other products keep theirs and the invariants are kept.
   */
  lemma {:induction false} SetLineEffect(items: seq<LineItem>, k: int, sessionId: SessionId, q: int)
    requires UniqueProducts(items) && AllPositive(items) && 0 <= k < |items| && q >= 0
    ensures var p := items[k].productId;
      var r := ServerEffect(items, QuantityMutation(sessionId, p, q));
      && TotalQuantity(r) == TotalQuantity(items) - items[k].quantity + q
      && QuantityOf(r, p) == q
      && (forall other :: other != p ==> QuantityOf(r, other) == QuantityOf(items, other))
      && UniqueProducts(r) && AllPositive(r)
  {
    var p := items[k].productId;
    LineIndexOfLine(items, k);
    QuantityOfUnique(items, p);
    WithQuantitySpec(items, p, q);
    if q == 0 {
      WithoutProductQuantities(items, p);
    } else {
      TotalQuantityUpdate(items, k, items[k].(quantity := q));
    }
  }

  /**
   * Pressed on a line that shows the stored quantity, the minus button lowers
   * the cart's total quantity by exactly one (removing the line when it held
   * one) and the plus button raises it by exactly one; no other product's
   * quantity changes.
   */
  lemma {:induction false} StepButtonsEffect(items: seq<LineItem>, products: map<ProductId, Product>, k: int, sessionId: SessionId)
    requires CartController.AllKnown(items, products)
    requires UniqueProducts(items) && AllPositive(items) && 0 <= k < |items|
    ensures var line := CartController.LineViews(items, products)[k];
      var minus := ServerEffect(items, MinusMutation(sessionId, line));
      var plus := ServerEffect(items, PlusMutation(sessionId, line));
      && TotalQuantity(minus) == TotalQuantity(items) - 1
      && TotalQuantity(plus) == TotalQuantity(items) + 1
      && QuantityOf(minus, line.productId) == items[k].quantity - 1
      && QuantityOf(plus, line.productId) == items[k].quantity + 1
      && (items[k].quantity == 1 <==> MinusMutation(sessionId, line).RemoveFromCart?)
      && (forall other :: other != line.productId ==>
            QuantityOf(minus, other) == QuantityOf(items, other) && QuantityOf(plus, other) == QuantityOf(items, other))
  {
    SetLineEffect(items, k, sessionId, items[k].quantity - 1);
    SetLineEffect(items, k, sessionId, items[k].quantity + 1);
  }

  /** The delete button takes the line's whole quantity off the total and leaves its product at 0. */
  lemma {:induction false} DeleteButtonEffect(items: seq<LineItem>, products: map<ProductId, Product>, k: int, sessionId: SessionId)
    requires CartController.AllKnown(items, products)
    requires UniqueProducts(items) && 0 <= k < |items|
    ensures var line := CartController.LineViews(items, products)[k];
      var r := ServerEffect(items, DeleteMutation(sessionId, line));
      && TotalQuantity(r) == TotalQuantity(items) - items[k].quantity
      && QuantityOf(r, line.productId) == 0
      && LineIndex(r, line.productId) == -1
  {
    var p := items[k].productId;
    LineIndexOfLine(items, k);
    QuantityOfUnique(items, p);
    WithoutProductQuantities(items, p);
    WithoutProductMembers(items, p);
    assert CartController.LineViews(items, products)[k].productId == p;
    var r := WithoutProduct(items, p);
    forall j | 0 <= j < |r| ensures r[j].productId != p {
      assert r[j] in r;
    }
  }

  /**
   * The slice's totals, summed from the left over the converted lines, are
   * the server's: the total quantity of the stored lines and the sum of the
   * response's subtotals.
   */
  lemma {:induction false} ClientItemsTotals(items: seq<LineItem>, products: map<ProductId, Product>, ids: seq<string>)
    requires CartController.AllKnown(items, products) && |ids| == |items|
    ensures var lines := CartController.LineViews(items, products);
      var cs := ClientItems(lines, ids);
      && CartSlice.QuantitySum(cs) == TotalQuantity(items)
      && CartSlice.SubtotalSum(cs) == CartController.SubtotalSum(lines)
    decreases |items|
  {
    var lines := CartController.LineViews(items, products);
    var cs := ClientItems(lines, ids);
    if |items| > 0 {
      var rest := items[1..];
      var restLines := CartController.LineViews(rest, products);
      assert restLines == lines[1..];
      assert ClientItems(restLines, ids[1..]) == cs[1..];
      ClientItemsTotals(rest, products, ids[1..]);
      CartSlice.QuantitySumFront(cs);
      CartSlice.SubtotalSumFront(cs);
    } else {
      assert cs == [];
    }
  }

  /**
   * After the effect copies a fetched cart into the slice, the slice holds
   * the displayed lines and its totals are the summary the sidebar shows.
   */
  lemma {:induction false} SyncedSliceMatchesSummary(
    s: CartSlice.CartState, items: seq<LineItem>, products: map<ProductId, Product>,
    view: CartController.CartView, ids: seq<string>)
    requires CartController.AllKnown(items, products) && |ids| == |items|
    requires view.items == CartController.LineViews(items, products)
    requires view.totalItems == TotalQuantity(items) && view.totalAmount == CartController.SubtotalSum(view.items)
    ensures var r := CartSlice.SetCartItems(s, ClientItems(view.items, ids));
      && |r.items| == |DisplayedItems(Some(view))|
      && (forall k :: 0 <= k < |r.items| ==>
            r.items[k].productId == view.items[k].productId && r.items[k].quantity == view.items[k].quantity)
      && r.totalItems == DisplayedTotalItems(Some(view))
      && r.totalAmount == DisplayedTotalAmount(Some(view))
      && CartSlice.Consistent(r)
  {
    ClientItemsTotals(items, products, ids);
  }

  /** The clear button (`handleClearCart`) asks for the session's own cart to be emptied: no product is left in it. */
  lemma ClearButtonEffect(items: seq<LineItem>, sessionId: SessionId)
    ensures SessionOf(ClearCart(sessionId)) == sessionId
    ensures var r := ServerEffect(items, ClearCart(sessionId));
      TotalQuantity(r) == 0 && forall p :: QuantityOf(r, p) == 0
  {
  }

  /** Before the first response the sidebar shows no lines and zero totals; afterwards the response's lines and summary. */
  lemma DisplayDefaults(data: Option<CartController.CartView>)
    ensures data.None? ==> DisplayedItems(data) == [] && DisplayedTotalItems(data) == 0 && DisplayedTotalAmount(data) == 0
    ensures data.Some? ==> DisplayedItems(data) == data.value.items && DisplayedTotalItems(data) == data.value.totalItems
  {
  }
}
