/**
 * The payment page: the chosen payment method, a form of five text fields, validation by
 * method (emptiness only), and a simulated payment whose completion clears the cart.
 */
module PaymentPage {
  import opened CartContext
  import opened Forms

  const CashOnDelivery := "cash_on_delivery"
  const CreditCard := "credit_card"
  const DebitCard := "debit_card"
  const Upi := "upi"
  const NetBanking := "net_banking"

  /** The methods the radio group offers. */
  const Methods: seq<string> := [CashOnDelivery, CreditCard, DebitCard, Upi, NetBanking]

  const FieldNames: seq<string> := ["cardName", "cardNumber", "cardExpiry", "cardCvc", "upiId"]

  /** The form as first rendered: every input empty. */
  function InitialForm(): map<string, string> {
    EmptyForm(FieldNames)
  }

  /** A field counts as filled when it is present and not the empty string. */
  predicate Filled(form: map<string, string>, field: string) {
    field in form && form[field] != ""
  }

  /** The validation in `handleSubmit`: card methods need the four card fields, UPI its id. */
  predicate Validates(method_: string, form: map<string, string>) {
    if method_ == CreditCard || method_ == DebitCard then
      Filled(form, "cardName") && Filled(form, "cardNumber") && Filled(form, "cardExpiry") && Filled(form, "cardCvc")
    else if method_ == Upi then
      Filled(form, "upiId")
    else
      true
  }

  /** The amounts shown: shipping is fixed at 0. */
  datatype Amounts = Amounts(subtotal: int, shipping: int, total: int)

  function PageAmounts(items: seq<CartItem>): (a: Amounts)
    ensures a.subtotal == Subtotal(items) && a.shipping == 0
    ensures a.total == a.subtotal + a.shipping
  {
    Amounts(Subtotal(items), 0, Subtotal(items))
  }

  /** Cash on delivery and net banking pass whatever the fields hold. */
  lemma NonCardMethodsAlwaysPass(method_: string, form: map<string, string>)
    requires method_ == CashOnDelivery || method_ == NetBanking
    ensures Validates(method_, form)
  {
  }

  /** Only emptiness is checked: any non-empty text in the needed fields passes. */
  lemma OnlyEmptinessChecked(method_: string, form: map<string, string>)
    requires forall k :: 0 <= k < |FieldNames| ==> Filled(form, FieldNames[k])
    ensures Validates(method_, form)
  {
    assert Filled(form, FieldNames[0]) && Filled(form, FieldNames[1]) && Filled(form, FieldNames[2]);
    assert Filled(form, FieldNames[3]) && Filled(form, FieldNames[4]);
  }

  /** A card method with an empty card field is rejected, whatever the other fields hold. */
  lemma CardMethodNeedsEveryCardField(method_: string, form: map<string, string>, field: string)
    requires method_ == CreditCard || method_ == DebitCard
    requires field in ["cardName", "cardNumber", "cardExpiry", "cardCvc"] && !Filled(form, field)
    ensures !Validates(method_, form)
  {
  }

  /** The fresh form passes only for the methods that check nothing. */
  lemma FreshFormPassesIffNoCheck(method_: string)
    requires method_ in Methods
    ensures Validates(method_, InitialForm()) <==> method_ == CashOnDelivery || method_ == NetBanking
  {
    var m := InitialForm();
    assert m["cardName"] == "" && m["upiId"] == "" by {
      assert FieldNames[0] == "cardName" && FieldNames[4] == "upiId";
    }
  }

  /** The payment page's state, with the cart store it clears. */
  class PaymentForm {
    var paymentMethod: string
    var formData: map<string, string>
    var isSubmitting: bool
    /** A validated payment whose simulated processing has not finished. */
    var pendingOrder: bool
    const cart: CartStore

    constructor (store: CartStore)
      ensures cart == store && paymentMethod == CashOnDelivery
      ensures formData == InitialForm() && !isSubmitting && !pendingOrder
    {
      cart := store;
      paymentMethod := CashOnDelivery;
      formData := InitialForm();
      isSubmitting := false;
      pendingOrder := false;
    }

    method SetPaymentMethod(value: string)
      modifies this
      ensures paymentMethod == value && formData == old(formData)
      ensures isSubmitting == old(isSubmitting) && pendingOrder == old(pendingOrder)
    {
      paymentMethod := value;
    }

    method HandleChange(name: string, value: string)
      modifies this
      ensures formData == ChangeField(old(formData), name, value)
      ensures paymentMethod == old(paymentMethod)
      ensures isSubmitting == old(isSubmitting) && pendingOrder == old(pendingOrder)
    {
      formData := ChangeField(formData, name, value);
    }

    /**
     * Submitting the form: the submit button is disabled while a payment is processing, which
     * blocks submission and changes nothing. Otherwise `handleSubmit` runs: a rejected
     * submission resets `isSubmitting` and schedules nothing; an accepted one stays submitting
     * with the processing pending.
     */
    method HandleSubmit() returns (accepted: bool)
      modifies this
      ensures old(isSubmitting) ==> !accepted && isSubmitting && pendingOrder == old(pendingOrder)
      ensures !old(isSubmitting) ==> (accepted <==> Validates(paymentMethod, formData))
      ensures accepted ==> isSubmitting && pendingOrder
      ensures !old(isSubmitting) && !accepted ==> !isSubmitting && pendingOrder == old(pendingOrder)
      ensures paymentMethod == old(paymentMethod) && formData == old(formData)
    {
      if isSubmitting {
        return false;
      }
      isSubmitting := true;
      if paymentMethod == CreditCard || paymentMethod == DebitCard {
        if !Filled(formData, "cardName") || !Filled(formData, "cardNumber")
           || !Filled(formData, "cardExpiry") || !Filled(formData, "cardCvc") {
          isSubmitting := false;
          return false;
        }
      } else if paymentMethod == Upi {
        if !Filled(formData, "upiId") {
          isSubmitting := false;
          return false;
        }
      }
      pendingOrder := true;
      return true;
    }

    /** The simulated processing finishes: only a validated submission clears the cart. */
    method CompleteOrder()
      modifies this, cart
      ensures old(pendingOrder) ==> cart.items == [] && !isSubmitting && !pendingOrder
      ensures !old(pendingOrder) ==> cart.items == old(cart.items) && isSubmitting == old(isSubmitting)
      ensures paymentMethod == old(paymentMethod) && formData == old(formData)
    {
      if pendingOrder {
        cart.ClearCart();
        isSubmitting := false;
        pendingOrder := false;
      }
    }
  }
}
