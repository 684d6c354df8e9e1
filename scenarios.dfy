/**
 * Worked checkouts for the payment fee, written as client code of the cart:
 * each one states what the hook leaves in the cart's fee list, using only
 * the contracts of PaymentFee.
 */
module PaymentFeeScenarios {
  import opened PaymentFee

  /** A front-end checkout page with the given gateway chosen. */
  function CheckoutWith(gateway: string): Context {
    Context(isAdmin := false, doingAjax := false, isCheckout := true, isEndpoint := false,
      chosenMethod := gateway)
  }

  /** A 5% fee on cash on delivery: one counted item of 100 gives a fee of 5. */
  method CashOnDeliveryFee() {
    var cart := new Cart([CartItem(1, 100.0, "no")]);
    AddCheckoutPaymentFee(cart, CheckoutWith("cod"), Settings(["cod"], 5.0));
    assert EligibleSubtotal(cart.items) == 100.0;
    assert cart.fees == [PaymentFeeLine(5.0)];
  }

  /** The same cart with its only product opted out gets no fee. */
  method ExcludedProductNoFee() {
    var cart := new Cart([CartItem(1, 100.0, "yes")]);
    AddCheckoutPaymentFee(cart, CheckoutWith("cod"), Settings(["cod"], 5.0));
    assert cart.fees == [];
  }

  /** Paying by bank transfer, which is not configured, gets no fee. */
  method OtherGatewayNoFee() {
    var cart := new Cart([CartItem(1, 100.0, "no")]);
    AddCheckoutPaymentFee(cart, CheckoutWith("bacs"), Settings(["cod"], 5.0));
    assert "bacs" != "cod";
    assert cart.fees == [];
  }

  /**
   * A 10% rate over one counted and one opted-out item of 50 each charges 5:
   * only the counted 50 is in the base. A product with no meta at all ("")
   * counts like "no".
   */
  method MixedCartFee() {
    var cart := new Cart([CartItem(1, 50.0, ""), CartItem(2, 50.0, "yes")]);
    AddCheckoutPaymentFee(cart, CheckoutWith("cod"), Settings(["cod"], 10.0));
    assert EligibleSubtotal([CartItem(1, 50.0, "")]) == 50.0;
    assert EligibleSubtotal(cart.items) == 50.0;
    assert cart.fees == [PaymentFeeLine(5.0)];
  }

  /** On an endpoint page (order received, pay for order) nothing is added. */
  method EndpointNoFee() {
    var cart := new Cart([CartItem(1, 100.0, "no")]);
    var ctx := CheckoutWith("cod").(isEndpoint := true);
    AddCheckoutPaymentFee(cart, ctx, Settings(["cod"], 5.0));
    assert cart.fees == [];
  }
}
