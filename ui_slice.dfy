/**
 * The four overlay flags of the client (client/src/redux/services/ui/uiSlice.ts):
 * the cart sidebar, the checkout modal, the success modal and the mobile menu,
 * with the nine reducers that set, clear or flip them. The reducers are
 * functions on `UIState`; `UiStore` is the store whose fields they assign.
 */
module UiSlice {

  datatype UIState = UIState(isCartOpen: bool, isCheckoutModalOpen: bool, isSuccessModalOpen: bool, isMobileMenuOpen: bool)

  /** `initialState`: everything closed. */
  const Initial: UIState := UIState(false, false, false, false)

  function ToggleCart(s: UIState): UIState {
    s.(isCartOpen := !s.isCartOpen)
  }

  function OpenCart(s: UIState): UIState {
    s.(isCartOpen := true, isCheckoutModalOpen := false, isMobileMenuOpen := false)
  }

  function CloseCart(s: UIState): UIState {
    s.(isCartOpen := false)
  }

  function OpenCheckoutModal(s: UIState): UIState {
    s.(isCheckoutModalOpen := true, isCartOpen := false)
  }

  function CloseCheckoutModal(s: UIState): UIState {
    s.(isCheckoutModalOpen := false)
  }

  function OpenSuccessModal(s: UIState): UIState {
    s.(isSuccessModalOpen := true, isCheckoutModalOpen := false, isCartOpen := false)
  }

  function CloseSuccessModal(s: UIState): UIState {
    s.(isSuccessModalOpen := false)
  }

  /** Flips the menu; only when it comes open are the cart and the checkout closed. */
  function ToggleMobileMenu(s: UIState): UIState {
    var nowOpen := !s.isMobileMenuOpen;
    if nowOpen then s.(isMobileMenuOpen := true, isCartOpen := false, isCheckoutModalOpen := false)
    else s.(isMobileMenuOpen := false)
  }

  function CloseMobileMenu(s: UIState): UIState {
    s.(isMobileMenuOpen := false)
  }

  /** The nine actions of the slice. */
  datatype Action =
    | ToggleCartAction | OpenCartAction | CloseCartAction
    | OpenCheckoutModalAction | CloseCheckoutModalAction
    | OpenSuccessModalAction | CloseSuccessModalAction
    | ToggleMobileMenuAction | CloseMobileMenuAction

  /** The slice reducer: one action applied to the state. */
  function Reduce(s: UIState, a: Action): UIState {
    match a
    case ToggleCartAction => ToggleCart(s)
    case OpenCartAction => OpenCart(s)
    case CloseCartAction => CloseCart(s)
    case OpenCheckoutModalAction => OpenCheckoutModal(s)
    case CloseCheckoutModalAction => CloseCheckoutModal(s)
    case OpenSuccessModalAction => OpenSuccessModal(s)
    case CloseSuccessModalAction => CloseSuccessModal(s)
    case ToggleMobileMenuAction => ToggleMobileMenu(s)
    case CloseMobileMenuAction => CloseMobileMenu(s)
  }

  /** A sequence of actions dispatched in order. */
  function Run(s: UIState, actions: seq<Action>): UIState
    decreases |actions|
  {
    if |actions| == 0 then s else Run(Reduce(s, actions[0]), actions[1..])
  }

  /** The cart sidebar and the checkout modal are not both open. */
  predicate CartAndCheckoutExclusive(s: UIState) {
    !(s.isCartOpen && s.isCheckoutModalOpen)
  }

  /** Each of the three open reducers leaves the cart and the checkout exclusive, from any state. */
  lemma OpenersExclude(s: UIState)
    ensures CartAndCheckoutExclusive(OpenCart(s))
    ensures CartAndCheckoutExclusive(OpenCheckoutModal(s))
    ensures CartAndCheckoutExclusive(OpenSuccessModal(s))
  {
  }

  /** Every reducer except `toggleCart` keeps the cart and the checkout exclusive. */
  lemma ReducePreservesExclusive(s: UIState, a: Action)
    requires CartAndCheckoutExclusive(s) && a != ToggleCartAction
    ensures CartAndCheckoutExclusive(Reduce(s, a))
  {
  }

  /** `toggleCart` can open the cart over an open checkout modal. */
  lemma ToggleCartBreaksExclusive()
    ensures CartAndCheckoutExclusive(UIState(false, true, false, false))
    ensures !CartAndCheckoutExclusive(ToggleCart(UIState(false, true, false, false)))
  {
  }

  /** Any run without `toggleCart` from an exclusive state ends exclusive; in particular every such run from the initial state. */
  lemma {:induction false} RunPreservesExclusive(s: UIState, actions: seq<Action>)
    requires CartAndCheckoutExclusive(s)
    requires forall k :: 0 <= k < |actions| ==> actions[k] != ToggleCartAction
    ensures CartAndCheckoutExclusive(Run(s, actions))
    decreases |actions|
  {
    if |actions| > 0 {
      ReducePreservesExclusive(s, actions[0]);
      RunPreservesExclusive(Reduce(s, actions[0]), actions[1..]);
    }
  }

  /** Toggling the cart twice changes nothing. */
  lemma ToggleCartTwice(s: UIState)
    ensures ToggleCart(ToggleCart(s)) == s
  {
  }

  /** Each close reducer clears its own flag and no other, and is idempotent. */
  lemma ClosersClearOnlyTheirFlag(s: UIState)
    ensures CloseCart(s) == s.(isCartOpen := false) && CloseCart(CloseCart(s)) == CloseCart(s)
    ensures CloseCheckoutModal(s) == s.(isCheckoutModalOpen := false)
    ensures CloseSuccessModal(s) == s.(isSuccessModalOpen := false)
    ensures CloseMobileMenu(s) == s.(isMobileMenuOpen := false)
    ensures !s.isCartOpen ==> CloseCart(s) == s
  {
  }

  /**
   * The open reducers: `openCart` closes the checkout and the menu and keeps
   * the success modal; `openCheckoutModal` closes only the cart;
   * `openSuccessModal` closes the checkout and the cart and keeps the menu.
   */
  lemma OpenersFrame(s: UIState)
    ensures OpenCart(s).isCartOpen && !OpenCart(s).isCheckoutModalOpen && !OpenCart(s).isMobileMenuOpen
    ensures OpenCart(s).isSuccessModalOpen == s.isSuccessModalOpen
    ensures OpenCheckoutModal(s).isCheckoutModalOpen && !OpenCheckoutModal(s).isCartOpen
    ensures OpenCheckoutModal(s).isSuccessModalOpen == s.isSuccessModalOpen && OpenCheckoutModal(s).isMobileMenuOpen == s.isMobileMenuOpen
    ensures OpenSuccessModal(s).isSuccessModalOpen && !OpenSuccessModal(s).isCheckoutModalOpen && !OpenSuccessModal(s).isCartOpen
    ensures OpenSuccessModal(s).isMobileMenuOpen == s.isMobileMenuOpen
  {
  }

  /**
   * `toggleMobileMenu` flips the menu and never touches the success modal;
   * opening the menu closes the cart and the checkout, closing it leaves them
   * as they were; so toggling twice from a closed menu only closes the cart
   * and the checkout.
   */
  lemma ToggleMobileMenuSpec(s: UIState)
    ensures var r := ToggleMobileMenu(s);
      && r.isMobileMenuOpen == !s.isMobileMenuOpen
      && r.isSuccessModalOpen == s.isSuccessModalOpen
      && (r.isMobileMenuOpen ==> !r.isCartOpen && !r.isCheckoutModalOpen)
      && (!r.isMobileMenuOpen ==> r.isCartOpen == s.isCartOpen && r.isCheckoutModalOpen == s.isCheckoutModalOpen)
    ensures !s.isMobileMenuOpen ==> ToggleMobileMenu(ToggleMobileMenu(s)) == s.(isCartOpen := false, isCheckoutModalOpen := false)
  {
  }

  /** The store's `ui` slice; each method is one dispatched action. */
  class UiStore {
    var isCartOpen: bool
    var isCheckoutModalOpen: bool
    var isSuccessModalOpen: bool
    var isMobileMenuOpen: bool

    function State(): UIState
      reads this
    {
      UIState(isCartOpen, isCheckoutModalOpen, isSuccessModalOpen, isMobileMenuOpen)
    }

    constructor ()
      ensures State() == Initial
    {
      isCartOpen, isCheckoutModalOpen, isSuccessModalOpen, isMobileMenuOpen := false, false, false, false;
    }

    method DispatchToggleCart()
      modifies this
      ensures State() == ToggleCart(old(State()))
    {
      isCartOpen := !isCartOpen;
    }

    method DispatchOpenCart()
      modifies this
      ensures State() == OpenCart(old(State()))
    {
      isCartOpen := true;
      isCheckoutModalOpen := false;
      isMobileMenuOpen := false;
    }

    method DispatchCloseCart()
      modifies this
      ensures State() == CloseCart(old(State()))
    {
      isCartOpen := false;
    }

    method DispatchOpenCheckoutModal()
      modifies this
      ensures State() == OpenCheckoutModal(old(State()))
    {
      isCheckoutModalOpen := true;
      isCartOpen := false;
    }

    method DispatchCloseCheckoutModal()
      modifies this
      ensures State() == CloseCheckoutModal(old(State()))
    {
      isCheckoutModalOpen := false;
    }

    method DispatchOpenSuccessModal()
      modifies this
      ensures State() == OpenSuccessModal(old(State()))
    {
      isSuccessModalOpen := true;
      isCheckoutModalOpen := false;
      isCartOpen := false;
    }

    method DispatchCloseSuccessModal()
      modifies this
      ensures State() == CloseSuccessModal(old(State()))
    {
      isSuccessModalOpen := false;
    }

    method DispatchToggleMobileMenu()
      modifies this
      ensures State() == ToggleMobileMenu(old(State()))
    {
      isMobileMenuOpen := !isMobileMenuOpen;
      if isMobileMenuOpen {
        isCartOpen := false;
        isCheckoutModalOpen := false;
      }
    }

    method DispatchCloseMobileMenu()
      modifies this
      ensures State() == CloseMobileMenu(old(State()))
    {
      isMobileMenuOpen := false;
    }
  }
}
