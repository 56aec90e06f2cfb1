/**
 * The checkout modal (client/src/components/pages/Checkout/CheckoutModal.tsx):
 * the order totals computed from the cart slice, the field rules of the
 * checkout form with the Bangladeshi mobile-number pattern of the bKash and
 * Nagad fields, and the submit and close handlers driven by `isProcessing`.
 * Amounts are integer cents: the free-shipping threshold of $50 is 5000 and
 * the shipping fee of $10 is 1000.
 */
module CheckoutModal {
  import opened Common
  import opened Text
  import opened CartApi
  import CartSlice
  import UiSlice
  import CartController
  import CartSidebar
  import opened CartRules
  import opened ProductModel

  const FreeShippingAbove: int := 5000
  const ShippingFee: int := 1000

  /** `cartItems.reduce((sum, item) => sum + item.price * item.quantity, 0)`, folded from the left. */
  function Subtotal(items: seq<CartSlice.CartItem>): int {
    if |items| == 0 then 0 else Subtotal(items[..|items| - 1]) + items[|items| - 1].price * items[|items| - 1].quantity
  }

  /** `subtotal > 50 ? 0 : 10`. */
  function Shipping(subtotal: int): (r: int)
    ensures r == 0 || r == ShippingFee
  {
    if subtotal > FreeShippingAbove then 0 else ShippingFee
  }

  function Total(subtotal: int): int {
    subtotal + Shipping(subtotal)
  }

  /** Every line's subtotal is its price times its quantity, as the server computes it. */
  predicate LinesPriced(items: seq<CartSlice.CartItem>) {
    forall k :: 0 <= k < |items| ==> items[k].subtotal == items[k].price * items[k].quantity
  }

  /**
   * Shipping is free exactly above the threshold, so a subtotal of exactly
   * 5000 and an empty cart both pay the fee; the total exceeds the subtotal
   * by 0 or the fee and never falls below it.
   */
  lemma ShippingSpec(subtotal: int)
    ensures Shipping(subtotal) == 0 <==> subtotal > FreeShippingAbove
    ensures Total(subtotal) - subtotal == 0 || Total(subtotal) - subtotal == ShippingFee
    ensures Total(subtotal) >= subtotal
    ensures Total(FreeShippingAbove) == 6000 && Total(0) == ShippingFee
  {
  }

  /**
   * The total is not monotone in the subtotal: one cent more than the
   * threshold costs less than the threshold itself. Apart from that step
   * it never decreases.
   */
  lemma TotalAroundThreshold(a: int, b: int)
    requires a <= b
    ensures Total(FreeShippingAbove + 1) < Total(FreeShippingAbove)
    ensures (a > FreeShippingAbove || b <= FreeShippingAbove) ==> Total(a) <= Total(b)
    ensures Total(a) <= Total(b) + ShippingFee
  {
  }

  /** When each line's subtotal is its price times its quantity, the checkout subtotal is the slice's total amount. */
  lemma {:induction false} SubtotalIsSliceSum(items: seq<CartSlice.CartItem>)
    requires LinesPriced(items)
    ensures Subtotal(items) == CartSlice.SubtotalSum(items)
    decreases |items|
  {
    if |items| > 0 {
      var init := items[..|items| - 1];
      assert LinesPriced(init) by {
        forall k | 0 <= k < |init| ensures init[k].subtotal == init[k].price * init[k].quantity {
          assert init[k] == items[k];
        }
      }
      SubtotalIsSliceSum(init);
    }
  }

  /**
   * After the sidebar has copied a fetched cart into the slice, the checkout
   * subtotal is the server's total amount for that cart.
   */
  lemma CheckoutSubtotalIsServerTotal(items: seq<LineItem>, products: map<ProductId, Product>, ids: seq<string>)
    requires CartController.AllKnown(items, products) && |ids| == |items|
    ensures var lines := CartController.LineViews(items, products);
      Subtotal(CartSidebar.ClientItems(lines, ids)) == CartController.SubtotalSum(lines)
  {
    var lines := CartController.LineViews(items, products);
    var cs := CartSidebar.ClientItems(lines, ids);
    assert LinesPriced(cs) by {
      forall k | 0 <= k < |cs| ensures cs[k].subtotal == cs[k].price * cs[k].quantity {
        assert lines[k] == CartController.ViewOf(items[k], products[items[k].productId]);
      }
    }
    SubtotalIsSliceSum(cs);
    CartSidebar.ClientItemsTotals(items, products, ids);
  }

  // ---- the mobile-number field ------------------------------------------------

  /** `[3-9]`. */
  predicate OperatorDigit(c: char) { '3' <= c <= '9' }

  /** `[3-9]\d{8}`: the nine characters after the prefix. */
  predicate Subscriber(t: string) {
    |t| == 9 && OperatorDigit(t[0]) && forall i :: 1 <= i < 9 ==> IsDigit(t[i])
  }

  /** `/^(\+8801|01)[3-9]\d{8}$/`: the prefix "+8801" or "01", then the subscriber part, and nothing else. */
  predicate MobilePattern(s: string) {
    (StartsWith(s, "+8801") && Subscriber(s[5..])) || (StartsWith(s, "01") && Subscriber(s[2..]))
  }

  /** The input's `maxLength={11}`: what can be typed into the field. */
  predicate Enterable(s: string) { |s| <= 11 }

  /** The error the field shows: the required message when empty, else the pattern message when it does not match, else none. */
  function MobileFieldError(s: string, requiredMessage: string): Option<string> {
    if s == "" then Some(requiredMessage)
    else if !MobilePattern(s) then Some("Please enter a valid Bangladeshi mobile number")
    else None
  }

  /** An accepted number has 14 characters with "+8801" or 11 with "01", and only digits after the prefix. */
  lemma MobilePatternShape(s: string)
    requires MobilePattern(s)
    ensures (|s| == 14 && StartsWith(s, "+8801")) || (|s| == 11 && StartsWith(s, "01"))
    ensures |s| == 11 ==> forall i :: 0 <= i < |s| ==> IsDigit(s[i])
  {
    if |s| == 11 {
      assert !(StartsWith(s, "+8801") && Subscriber(s[5..]));
      assert s[..2] == "01";
      forall i | 0 <= i < |s| ensures IsDigit(s[i]) {
        if i < 2 {
          assert s[i] == s[..2][i];
        } else {
          assert s[i] == s[2..][i - 2];
        }
      }
    }
  }

  /** Because of the length cap, the "+8801" form can never be entered: every enterable accepted number is the 11-digit "01" form. */
  lemma EnterableMobileNumbers(s: string)
    requires MobilePattern(s) && Enterable(s)
    ensures |s| == 11 && StartsWith(s, "01")
    ensures !StartsWith(s, "+8801")
  {
    MobilePatternShape(s);
    assert s[0] == '0' by { assert s[..2][0] == s[0]; }
  }

  /** A number is accepted exactly when it passes both rules, so a blank field and a malformed one each get one message. */
  lemma MobileFieldErrorSpec(s: string, requiredMessage: string)
    ensures MobileFieldError(s, requiredMessage).None? <==> (s != "" && MobilePattern(s))
    ensures s == "" ==> MobileFieldError(s, requiredMessage) == Some(requiredMessage)
  {
  }

  /** Concrete numbers: an 11-digit "01" number and its "+880" form match; operator digit 2 and a short number do not. */
  lemma MobilePatternExamples()
    ensures MobilePattern("01712345678")
    ensures MobilePattern("+8801712345678") && !Enterable("+8801712345678")
    ensures !MobilePattern("01212345678")
    ensures !MobilePattern("0171234567")
  {
    assert "01712345678"[..2] == "01" && "01712345678"[2..] == "712345678";
    assert "+8801712345678"[..5] == "+8801" && "+8801712345678"[5..] == "712345678";
    assert "01212345678"[2..][0] == '2';
    assert "01212345678"[..5] != "+8801" by { assert "01212345678"[0] != '+'; }
    assert "0171234567"[..5] != "+8801" by { assert "0171234567"[0] != '+'; }
  }

  // ---- the form ----------------------------------------------------------------

  datatype PaymentMethod = Card | Bkash | Nagad

  /** The form's values; an untouched field is "". */
  datatype CheckoutForm = CheckoutForm(
    firstName: string, lastName: string, email: string, phone: string,
    address: string, city: string, postalCode: string, paymentMethod: PaymentMethod,
    cardNumber: string, expiryDate: string, cvv: string, bkashNumber: string, nagadNumber: string)

  /** What `resetFields` restores: every field empty and the payment method at its initial value "card". */
  const EmptyForm: CheckoutForm := CheckoutForm("", "", "", "", "", "", "", Card, "", "", "", "", "")

  /**
   * The messages of the rendered fields: the seven contact fields are
   * required, then only the fields of the selected method are rendered and
   * checked (card number, expiry and CVV; or the bKash or Nagad number).
   */
  function FormErrors(f: CheckoutForm, selected: PaymentMethod): seq<string> {
    ContactErrors(f) + PaymentErrors(f, selected)
  }

  /** `{ required: true, message }`: the message when the field is empty. */
  function Required(value: string, message: string): seq<string> {
    if value == "" then [message] else []
  }

  function ContactErrors(f: CheckoutForm): seq<string> {
    Required(f.firstName, "Please enter your first name")
    + Required(f.lastName, "Please enter your last name")
    + Required(f.email, "Please enter your email")
    + Required(f.phone, "Please enter your phone number")
    + Required(f.address, "Please enter your address")
    + Required(f.city, "Please enter your city")
    + Required(f.postalCode, "Please enter postal code")
  }

  function PaymentErrors(f: CheckoutForm, selected: PaymentMethod): seq<string> {
    match selected
    case Card =>
      Required(f.cardNumber, "Please enter card number")
      + Required(f.expiryDate, "Please enter expiry date")
      + Required(f.cvv, "Please enter CVV")
    case Bkash => OptionToSeq(MobileFieldError(f.bkashNumber, "Please enter your bKash number"))
    case Nagad => OptionToSeq(MobileFieldError(f.nagadNumber, "Please enter your Nagad number"))
  }

  function OptionToSeq(o: Option<string>): seq<string> {
    if o.Some? then [o.value] else []
  }

  /**
   * The form submits exactly when every rendered required field is filled
   * and the selected wallet's number matches the pattern; the fields of the
   * other methods are not looked at.
   */
  lemma FormErrorsSpec(f: CheckoutForm, selected: PaymentMethod)
    ensures FormErrors(f, selected) == [] <==>
      && f.firstName != "" && f.lastName != "" && f.email != "" && f.phone != ""
      && f.address != "" && f.city != "" && f.postalCode != ""
      && (selected == Card ==> f.cardNumber != "" && f.expiryDate != "" && f.cvv != "")
      && (selected == Bkash ==> f.bkashNumber != "" && MobilePattern(f.bkashNumber))
      && (selected == Nagad ==> f.nagadNumber != "" && MobilePattern(f.nagadNumber))
    ensures selected != Bkash ==> FormErrors(f, selected) == FormErrors(f.(bkashNumber := ""), selected)
  {
    assert |ContactErrors(f)| ==
      |Required(f.firstName, "Please enter your first name")| + |Required(f.lastName, "Please enter your last name")|
      + |Required(f.email, "Please enter your email")| + |Required(f.phone, "Please enter your phone number")|
      + |Required(f.address, "Please enter your address")| + |Required(f.city, "Please enter your city")|
      + |Required(f.postalCode, "Please enter postal code")|;
    assert |FormErrors(f, selected)| == |ContactErrors(f)| + |PaymentErrors(f, selected)|;
  }

  /**
   * The reset form does not submit: it reports each of the seven contact
   * fields missing, in form order, followed by the required messages of the
   * selected method's fields.
   */
  lemma EmptyFormRejected(selected: PaymentMethod)
    ensures ContactErrors(EmptyForm) == [
      "Please enter your first name", "Please enter your last name", "Please enter your email",
      "Please enter your phone number", "Please enter your address", "Please enter your city",
      "Please enter postal code"]
    ensures FormErrors(EmptyForm, selected) == ContactErrors(EmptyForm) +
      match selected
      case Card => ["Please enter card number", "Please enter expiry date", "Please enter CVV"]
      case Bkash => ["Please enter your bKash number"]
      case Nagad => ["Please enter your Nagad number"]
  {
  }

  /** The success path: the checkout closes and the success modal opens over a closed cart; the mobile menu is kept. */
  lemma SubmitSuccessUi(s: UiSlice.UIState)
    ensures var r := UiSlice.OpenSuccessModal(UiSlice.CloseCheckoutModal(s));
      && r.isSuccessModalOpen && !r.isCheckoutModalOpen && !r.isCartOpen
      && r.isMobileMenuOpen == s.isMobileMenuOpen
      && UiSlice.CartAndCheckoutExclusive(r)
  {
  }

  /** The modal's own state, the form it holds, and the store's `ui` slice it dispatches to. */
  class CheckoutModalState {
    var isProcessing: bool
    var values: CheckoutForm
    /** The `paymentMethod` state that decides which payment fields are rendered. */
    var selected: PaymentMethod
    const ui: UiSlice.UiStore

    constructor (ui: UiSlice.UiStore)
      ensures this.ui == ui
      ensures !isProcessing && values == EmptyForm && selected == Card
    {
      this.ui := ui;
      isProcessing := false;
      values := EmptyForm;
      selected := Card;
    }

    /** `maskClosable={!isProcessing}`. */
    function MaskClosable(): bool
      reads this
    {
      !isProcessing
    }

    /** The payment radio group: sets both the rendered method and the form value. */
    method SelectPayment(m: PaymentMethod)
      modifies this
      ensures selected == m && values == old(values).(paymentMethod := m)
      ensures isProcessing == old(isProcessing)
    {
      selected := m;
      values := values.(paymentMethod := m);
    }

    /** `handleSubmit` up to its first `await`: processing starts (only reached when the form has no errors). */
    method BeginSubmit()
      requires FormErrors(values, selected) == []
      modifies this
      ensures isProcessing && !MaskClosable()
      ensures values == old(values) && selected == old(selected)
    {
      isProcessing := true;
    }

    /**
     * The rest of `handleSubmit`: the clear request for the session is sent;
     * when it succeeds the form is reset, the checkout closes and the success
     * modal opens; on failure nothing else changes. Processing ends either way.
     * The selected method is the component's own state and survives the reset.
     */
    method FinishSubmit(sessionId: SessionId, clearSucceeded: bool) returns (sent: Mutation)
      modifies this, ui
      ensures sent == ClearCart(sessionId)
      ensures !isProcessing && MaskClosable()
      ensures selected == old(selected)
      ensures clearSucceeded ==> values == EmptyForm && ui.State() == UiSlice.OpenSuccessModal(UiSlice.CloseCheckoutModal(old(ui.State())))
      ensures !clearSucceeded ==> values == old(values) && ui.State() == old(ui.State())
    {
      sent := ClearCart(sessionId);
      if clearSucceeded {
        values := EmptyForm;
        ui.DispatchCloseCheckoutModal();
        ui.DispatchOpenSuccessModal();
      }
      isProcessing := false;
    }

    /** `handleClose`: ignored while processing, otherwise closes the checkout. */
    method HandleClose()
      modifies ui
      ensures isProcessing ==> ui.State() == old(ui.State())
      ensures !isProcessing ==> ui.State() == UiSlice.CloseCheckoutModal(old(ui.State()))
    {
      if !isProcessing {
        ui.DispatchCloseCheckoutModal();
      }
    }
  }
}
