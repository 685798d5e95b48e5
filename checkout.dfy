/**
 * The two-step checkout page: a shipping step and a payment step, a form of eleven text
 * fields, a simulated payment whose completion clears the cart, and the order summary.
 * The completion of the simulated payment is a separate step, not a timer.
 */
module Checkout {
  import opened Seqs
  import opened CartContext
  import opened Forms
  import CartDrawer

  datatype Tab = Information | Payment

  /** The page renders its empty state, with no form, when the cart has no lines. */
  datatype View = EmptyState | CheckoutForm

  function PageView(items: seq<CartItem>): (v: View)
    ensures v == EmptyState <==> |items| == 0
  {
    if |items| == 0 then EmptyState else CheckoutForm
  }

  /** The field names of the form, all starting empty. */
  const FieldNames: seq<string> :=
    ["name", "email", "phone", "address", "city", "state", "zipCode",
     "cardName", "cardNumber", "cardExpiry", "cardCvc"]

  /** The shipping step's inputs, all marked `required`. */
  const ShippingFields: seq<string> := ["name", "email", "phone", "address", "city", "state", "zipCode"]

  /** The payment step's inputs, all marked `required`. */
  const CardFields: seq<string> := ["cardName", "cardNumber", "cardExpiry", "cardCvc"]

  /** The form as first rendered: every input empty. */
  function InitialForm(): map<string, string> {
    EmptyForm(FieldNames)
  }

  /**
   * Clicking a tab trigger: the Payment trigger is disabled while on the Information step,
   * and clicking the Information trigger there changes nothing.
   */
  function ClickTab(active: Tab, clicked: Tab): (r: Tab)
    ensures active == Information ==> r == Information
    ensures active == Payment ==> r == clicked
  {
    match active
    case Information => Information
    case Payment => clicked
  }

  /** The summary's line totals add up to the store subtotal, which is also the total shown. */
  lemma SummaryTotalIsSubtotal(items: seq<CartItem>)
    ensures Sum(items, CartDrawer.DrawerLineTotal) == Subtotal(items)
    ensures CartDrawer.DisplayedTotals(items).total == Subtotal(items)
  {
    CartDrawer.LineTotalsSumToSubtotal(items);
  }

  /** The untouched page can submit neither step: every required input is still empty. */
  lemma FreshFormSubmitsNothing()
    ensures !AllFilled(InitialForm(), ShippingFields)
    ensures !AllFilled(InitialForm(), CardFields)
  {
    assert FieldNames[0] == ShippingFields[0] && FieldNames[7] == CardFields[0];
    assert InitialForm()[FieldNames[0]] == "" && InitialForm()[FieldNames[7]] == "";
  }

  /** The only way onto the Payment step is submitting the shipping form. */
  lemma PaymentOnlyBySubmitting(clicked: Tab)
    ensures ClickTab(Information, clicked) == Information
    ensures ClickTab(Payment, Information) == Information
  {
  }

  /** The checkout page's state, with the cart store it clears. */
  class CheckoutPage {
    var activeTab: Tab
    var isSubmitting: bool
    var formData: map<string, string>
    /** A submitted payment whose simulated processing has not finished. */
    var pendingOrder: bool
    const cart: CartStore

    constructor (store: CartStore)
      ensures cart == store
      ensures activeTab == Information && !isSubmitting && !pendingOrder && formData == InitialForm()
    {
      cart := store;
      activeTab := Information;
      isSubmitting := false;
      pendingOrder := false;
      formData := InitialForm();
    }

    method HandleChange(name: string, value: string)
      modifies this
      ensures formData == ChangeField(old(formData), name, value)
      ensures activeTab == old(activeTab) && isSubmitting == old(isSubmitting) && pendingOrder == old(pendingOrder)
    {
      formData := ChangeField(formData, name, value);
    }

    /**
     * Submitting the shipping form, which exists only on the Information tab of a page whose
     * cart has lines: the browser lets it through only when the seven required inputs hold
     * text, and `handleSubmitShipping` then moves to the payment step.
     */
    method HandleSubmitShipping() returns (accepted: bool)
      modifies this
      ensures accepted <==> old(activeTab) == Information && PageView(cart.items) == CheckoutForm
                            && AllFilled(formData, ShippingFields)
      ensures accepted ==> activeTab == Payment
      ensures !accepted ==> activeTab == old(activeTab)
      ensures formData == old(formData) && isSubmitting == old(isSubmitting) && pendingOrder == old(pendingOrder)
    {
      accepted := activeTab == Information && PageView(cart.items) == CheckoutForm
                  && AllFilled(formData, ShippingFields);
      if accepted {
        activeTab := Payment;
      }
    }

    /** A click on a tab trigger, or on "Back to Shipping". */
    method SelectTab(clicked: Tab)
      modifies this
      ensures activeTab == ClickTab(old(activeTab), clicked)
      ensures formData == old(formData) && isSubmitting == old(isSubmitting) && pendingOrder == old(pendingOrder)
    {
      activeTab := ClickTab(activeTab, clicked);
    }

    /**
     * Submitting the payment form, which exists only on the Payment tab of a page whose cart
     * has lines: its only submit button is disabled while a payment is processing, and the
     * browser lets it through only when the four required card inputs hold text;
     * `handleSubmitPayment` then marks submitting and starts the processing.
     */
    method HandleSubmitPayment() returns (accepted: bool)
      modifies this
      ensures accepted <==> old(activeTab) == Payment && PageView(cart.items) == CheckoutForm
                            && !old(isSubmitting) && AllFilled(formData, CardFields)
      ensures accepted ==> isSubmitting && pendingOrder
      ensures !accepted ==> isSubmitting == old(isSubmitting) && pendingOrder == old(pendingOrder)
      ensures activeTab == old(activeTab) && formData == old(formData)
    {
      accepted := activeTab == Payment && PageView(cart.items) == CheckoutForm
                  && !isSubmitting && AllFilled(formData, CardFields);
      if accepted {
        isSubmitting := true;
        pendingOrder := true;
      }
    }

    /** The simulated processing finishes: the cart is cleared and submission ends. */
    method CompletePayment()
      modifies this, cart
      ensures old(pendingOrder) ==> cart.items == [] && !isSubmitting && !pendingOrder
      ensures !old(pendingOrder) ==> cart.items == old(cart.items) && isSubmitting == old(isSubmitting)
      ensures activeTab == old(activeTab) && formData == old(formData)
    {
      if pendingOrder {
        cart.ClearCart();
        isSubmitting := false;
        pendingOrder := false;
      }
    }
  }
}
