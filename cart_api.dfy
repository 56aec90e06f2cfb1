/**
 * The cart endpoints of the client's API layer (client/src/redux/api/cart/cartApi.ts):
 * the request each endpoint sends, the cache tags `getCart` provides and the
 * tags each mutation invalidates. A cached query is refetched when a tag it
 * provides is invalidated.
 */
module CartApi {
  import opened Common
  import opened Text

  datatype HttpMethod = GET | POST | PUT | DELETE

  /** The JSON body of add and update. */
  datatype CartBody = CartBody(sessionId: SessionId, productId: ProductId, quantity: int)

  datatype Request = Request(url: string, httpMethod: HttpMethod, body: Option<CartBody>)

  const CartType: string := "Cart"

  /** The four cart mutations with their arguments. */
  datatype Mutation =
    | AddToCart(add: CartBody)
    | UpdateCartItem(update: CartBody)
    | RemoveFromCart(removeSession: SessionId, removeProduct: ProductId)
    | ClearCart(clearSession: SessionId)

  /** `getCart`: a GET of "cart/{sessionId}". */
  function GetCartRequest(sessionId: SessionId): Request {
    Request("cart/" + sessionId, GET, None)
  }

  function GetCartProvides(sessionId: SessionId): seq<Tag> {
    [Tag(CartType, sessionId), Tag(CartType, ListId)]
  }

  /** The session a mutation acts on. */
  function SessionOf(m: Mutation): SessionId {
    match m
    case AddToCart(b) => b.sessionId
    case UpdateCartItem(b) => b.sessionId
    case RemoveFromCart(s, _) => s
    case ClearCart(s) => s
  }

  /** The request each mutation sends. */
  function MutationRequest(m: Mutation): Request {
    match m
    case AddToCart(b) => Request("cart/add", POST, Some(b))
    case UpdateCartItem(b) => Request("cart/update", PUT, Some(b))
    case RemoveFromCart(s, p) => Request("cart/" + s + "/item/" + p, DELETE, None)
    case ClearCart(s) => Request("cart/" + s, DELETE, None)
  }

  /** Every mutation invalidates its session's tag and the list tag. */
  function Invalidates(m: Mutation): seq<Tag> {
    [Tag(CartType, SessionOf(m)), Tag(CartType, ListId)]
  }

  /** A cached `getCart(sessionId)` is refetched after the mutation. */
  predicate Refetches(m: Mutation, sessionId: SessionId) {
    exists k :: 0 <= k < |GetCartProvides(sessionId)| && GetCartProvides(sessionId)[k] in Invalidates(m)
  }

  /** A mutation invalidates every tag its own session's cart query provides. */
  lemma MutationCoversOwnCart(m: Mutation)
    ensures forall t :: t in GetCartProvides(SessionOf(m)) ==> t in Invalidates(m)
  {
  }

  /** Because every cart query also provides the list tag, any mutation refetches the cart of every session. */
  lemma MutationRefetchesEveryCart(m: Mutation, sessionId: SessionId)
    ensures Refetches(m, sessionId)
  {
    assert GetCartProvides(sessionId)[1] in Invalidates(m);
  }

  /** Add and update send their three fields as the body, to fixed paths; remove and clear send none. */
  lemma MutationRequestShape(m: Mutation)
    ensures var r := MutationRequest(m);
      && (r.body.Some? <==> (m.AddToCart? || m.UpdateCartItem?))
      && (m.AddToCart? ==> r == Request("cart/add", POST, Some(CartBody(SessionOf(m), m.add.productId, m.add.quantity))))
      && (m.UpdateCartItem? ==> r == Request("cart/update", PUT, Some(CartBody(SessionOf(m), m.update.productId, m.update.quantity))))
      && (r.httpMethod == DELETE <==> (m.RemoveFromCart? || m.ClearCart?))
  {
  }

  /** The clear request goes to the same path as the cart query, with DELETE instead of GET. */
  lemma ClearUsesCartPath(sessionId: SessionId)
    ensures MutationRequest(ClearCart(sessionId)).url == GetCartRequest(sessionId).url
    ensures MutationRequest(ClearCart(sessionId)).httpMethod != GetCartRequest(sessionId).httpMethod
  {
  }

  /** The remove path splits on "/" back into its four segments when the ids hold no "/". */
  lemma RemovePathSegments(sessionId: SessionId, productId: ProductId)
    requires IndexOf(sessionId, "/") == -1 && IndexOf(productId, "/") == -1
    ensures Split(MutationRequest(RemoveFromCart(sessionId, productId)).url, "/") == ["cart", sessionId, "item", productId]
  {
    var parts := ["cart", sessionId, "item", productId];
    JoinFour("cart", sessionId, "item", productId, "/");
    assert "cart" + "/" == "cart/" && "/" + "item" + "/" == "/item/";
    IndexOfAbsentChar("cart", '/');
    IndexOfAbsentChar("item", '/');
    SplitJoin(parts, "/");
  }

  lemma JoinFour(a: string, b: string, c: string, d: string, sep: string)
    ensures Join([a, b, c, d], sep) == (a + sep) + b + (sep + c + sep) + d
  {
    assert [a, b, c, d][1..] == [b, c, d];
    assert [b, c, d][1..] == [c, d];
    assert [c, d][1..] == [d];
    assert Join([c, d], sep) == c + sep + d;
    assert Join([b, c, d], sep) == b + sep + (c + sep + d);
    assert Join([a, b, c, d], sep) == a + sep + (b + sep + (c + sep + d));
  }
}
