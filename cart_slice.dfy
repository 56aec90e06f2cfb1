/**
 * The client's cart summary (client/src/redux/services/cart/cartSlice.ts): the
 * cart lines last fetched, their totals and the session id. The reducers are
 * functions on `CartState`; `CartSliceStore` is the store whose fields they
 * assign. Amounts are integer cents.
 */
module CartSlice {
  import opened Common

  /** One line as the client keeps it (the getCart response line). */
  datatype CartItem = CartItem(id: string, productId: ProductId, title: string, price: int, image: string, quantity: int, subtotal: int)

  datatype CartState = CartState(items: seq<CartItem>, totalItems: int, totalAmount: int, sessionId: Option<string>)

  /** `initialState`. */
  const Initial: CartState := CartState([], 0, 0, None)

  /** `payload.reduce((sum, item) => sum + item.quantity, 0)`, folded from the left. */
  function QuantitySum(items: seq<CartItem>): int {
    if |items| == 0 then 0 else QuantitySum(items[..|items| - 1]) + items[|items| - 1].quantity
  }

  /** `payload.reduce((sum, item) => sum + item.subtotal, 0)`, folded from the left. */
  function SubtotalSum(items: seq<CartItem>): int {
    if |items| == 0 then 0 else SubtotalSum(items[..|items| - 1]) + items[|items| - 1].subtotal
  }

  /** The totals are those of the items held. */
  predicate Consistent(s: CartState) {
    s.totalItems == QuantitySum(s.items) && s.totalAmount == SubtotalSum(s.items)
  }

  /** `setSessionId`. */
  function SetSessionId(s: CartState, id: string): CartState {
    s.(sessionId := Some(id))
  }

  /** `setCartItems`: the payload replaces the items and the totals are recomputed from it. */
  function SetCartItems(s: CartState, payload: seq<CartItem>): CartState {
    s.(items := payload, totalItems := QuantitySum(payload), totalAmount := SubtotalSum(payload))
  }

  /** `clearCart`: no items and zero totals; the session id stays. */
  function ClearCart(s: CartState): CartState {
    s.(items := [], totalItems := 0, totalAmount := 0)
  }

  lemma {:induction false} QuantitySumAppend(a: seq<CartItem>, b: seq<CartItem>)
    ensures QuantitySum(a + b) == QuantitySum(a) + QuantitySum(b)
    decreases |b|
  {
    if |b| > 0 {
      assert (a + b)[..|a + b| - 1] == a + b[..|b| - 1];
      QuantitySumAppend(a, b[..|b| - 1]);
    } else {
      assert a + b == a;
    }
  }

  lemma {:induction false} SubtotalSumAppend(a: seq<CartItem>, b: seq<CartItem>)
    ensures SubtotalSum(a + b) == SubtotalSum(a) + SubtotalSum(b)
    decreases |b|
  {
    if |b| > 0 {
      assert (a + b)[..|a + b| - 1] == a + b[..|b| - 1];
      SubtotalSumAppend(a, b[..|b| - 1]);
    } else {
      assert a + b == a;
    }
  }

  /** The left fold equals the sum taken from the front, line by line. */
  lemma {:induction false} QuantitySumFront(items: seq<CartItem>)
    requires |items| > 0
    ensures QuantitySum(items) == items[0].quantity + QuantitySum(items[1..])
  {
    assert items == [items[0]] + items[1..];
    QuantitySumAppend([items[0]], items[1..]);
    assert [items[0]][..0] == [];
  }

  /** The left fold equals the sum taken from the front, line by line. */
  lemma {:induction false} SubtotalSumFront(items: seq<CartItem>)
    requires |items| > 0
    ensures SubtotalSum(items) == items[0].subtotal + SubtotalSum(items[1..])
  {
    assert items == [items[0]] + items[1..];
    SubtotalSumAppend([items[0]], items[1..]);
    assert [items[0]][..0] == [];
  }

  /** With positive quantities there is at least one item per line counted. */
  lemma {:induction false} QuantitySumBounds(items: seq<CartItem>)
    requires forall k :: 0 <= k < |items| ==> items[k].quantity >= 1
    ensures QuantitySum(items) >= |items|
    ensures QuantitySum(items) == 0 <==> items == []
    ensures forall k :: 0 <= k < |items| ==> items[k].quantity <= QuantitySum(items)
  {
    if |items| > 0 {
      var front := items[..|items| - 1];
      QuantitySumBounds(front);
      assert forall k :: 0 <= k < |front| ==> front[k] == items[k];
    }
  }

  /** The initial state is empty, consistent and has no session id. */
  lemma InitialState()
    ensures Initial.items == [] && Initial.totalItems == 0 && Initial.totalAmount == 0 && Initial.sessionId == None
    ensures Consistent(Initial)
  {
  }

  /** `setSessionId` changes nothing but the session id, and keeps the totals consistent. */
  lemma SetSessionIdSpec(s: CartState, id: string)
    ensures var r := SetSessionId(s, id);
      && r.sessionId == Some(id)
      && r.items == s.items && r.totalItems == s.totalItems && r.totalAmount == s.totalAmount
      && (Consistent(s) ==> Consistent(r))
  {
  }

  /**
   * `setCartItems` replaces the items by the payload whatever the state was
   * before, and keeps the session id. The totals add up the payload's
   * quantities and subtotals line by line: an empty payload gives zero
   * totals, and when every line holds at least one unit the item count is at
   * least the number of lines and at least any one line's quantity.
   */
  lemma SetCartItemsSpec(s: CartState, payload: seq<CartItem>)
    ensures var r := SetCartItems(s, payload);
      && r.items == payload && r.sessionId == s.sessionId
      && (payload == [] ==> r.totalItems == 0 && r.totalAmount == 0)
      && (|payload| > 0 ==>
            r.totalItems == payload[0].quantity + QuantitySum(payload[1..]) &&
            r.totalAmount == payload[0].subtotal + SubtotalSum(payload[1..]))
      && ((forall k :: 0 <= k < |payload| ==> payload[k].quantity >= 1) ==>
            r.totalItems >= |payload| &&
            forall k :: 0 <= k < |payload| ==> payload[k].quantity <= r.totalItems)
  {
    if |payload| > 0 {
      QuantitySumFront(payload);
      SubtotalSumFront(payload);
    }
    if forall k :: 0 <= k < |payload| ==> payload[k].quantity >= 1 {
      QuantitySumBounds(payload);
    }
  }

  /** Setting the items depends only on the payload: the previous items are forgotten. */
  lemma SetCartItemsOverwrites(s: CartState, first: seq<CartItem>, second: seq<CartItem>)
    ensures SetCartItems(SetCartItems(s, first), second) == SetCartItems(s, second)
  {
  }

  /** `clearCart` keeps the session id, leaves a consistent empty cart, and a second clear changes nothing. */
  lemma ClearCartSpec(s: CartState)
    ensures var r := ClearCart(s);
      && r.items == [] && r.totalItems == 0 && r.totalAmount == 0
      && r.sessionId == s.sessionId && Consistent(r)
      && ClearCart(r) == r
  {
  }

  /** The slice of the store: its fields are assigned by the reducers. */
  class CartSliceStore {
    var items: seq<CartItem>
    var totalItems: int
    var totalAmount: int
    var sessionId: Option<string>

    function State(): CartState
      reads this
    {
      CartState(items, totalItems, totalAmount, sessionId)
    }

    constructor ()
      ensures State() == Initial
    {
      items, totalItems, totalAmount, sessionId := [], 0, 0, None;
    }

    /** `dispatch(setSessionId(id))`. */
    method DispatchSetSessionId(id: string)
      modifies this
      ensures State() == SetSessionId(old(State()), id)
    {
      sessionId := Some(id);
    }

    /** `dispatch(setCartItems(payload))`: `reduce` walks the payload from the left, as the loop does. */
    method DispatchSetCartItems(payload: seq<CartItem>)
      modifies this
      ensures State() == SetCartItems(old(State()), payload)
    {
      items := payload;
      var quantities, subtotals := 0, 0;
      for i := 0 to |payload|
        invariant quantities == QuantitySum(payload[..i])
        invariant subtotals == SubtotalSum(payload[..i])
      {
        assert payload[..i + 1][..i] == payload[..i];
        quantities := quantities + payload[i].quantity;
        subtotals := subtotals + payload[i].subtotal;
      }
      assert payload[..|payload|] == payload;
      totalItems := quantities;
      totalAmount := subtotals;
    }

    /** `dispatch(clearCart())`. */
    method DispatchClearCart()
      modifies this
      ensures State() == ClearCart(old(State()))
    {
      items := [];
      totalItems := 0;
      totalAmount := 0;
    }
  }
}
