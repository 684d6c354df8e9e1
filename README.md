# WooCommerce Payment Fee: the checkout fee calculator

This is a Dafny model of the one computation in the WooCommerce Payment Fee
plugin: the `woocommerce_cart_calculate_fees` hook `add_checkout_payment_fee`.
On every cart recalculation the hook does three things:

1. It checks a chain of guards:
   - the request is not an admin request, unless it is AJAX;
   - at least one gateway is configured;
   - the percentage rate is positive;
   - the page is the checkout and not an endpoint URL;
   - the session's chosen payment method is one of the configured gateways.
2. It sums the `line_subtotal` of every cart item whose product's
   `_payment_fee_excl` meta is not exactly `"yes"`.
3. When that sum is positive, it adds one taxable fee line "Payment Fee" of
   `subtotal * percentage / 100` to the cart.

Files:

- `payment_fee.dfy`, module `PaymentFee`. It holds the inputs as datatypes
  (`Context`, `Settings`, `CartItem`, `Fee`) and the cart as a class `Cart`
  whose `fees` list `AddFee` appends to. The hook itself is the method
  `AddCheckoutPaymentFee`. Its loop keeps the running subtotal equal to
  `EligibleSubtotal` of the items seen so far. Its postcondition says that
  the new fee list is the old one plus the fee line given by the pure
  specification `FeeFor`, if there is one. The properties of the fee are
  proved about `FeeFor` and `EligibleSubtotal`.
- `scenarios.dfy`, module `PaymentFeeScenarios`. Worked checkouts written
  as client code of the cart, proved from the contracts alone: 5% on 100
  gives 5; an opted-out product gives no fee; another gateway gives no fee;
  10% on one counted and one opted-out item of 50 gives 5; an endpoint page
  gives no fee.

Notes on the model:

- Queries to WordPress and WooCommerce become input fields:
  - `is_admin()` and `DOING_AJAX`;
  - `is_checkout()` and `is_wc_endpoint_url()`;
  - the session's `chosen_payment_method`;
  - the options `payment_fee_payment_methods` and `payment_fee_percentage_rate`;
  - each product's `_payment_fee_excl` meta.
- Amounts and the rate are exact `real` numbers.
- The exclusion flag is the product's `_payment_fee_excl` meta string
  itself. An item is excluded only when that string is exactly `"yes"`
  (woocommerce_payment_fee.php:164). `"no"`, the empty string and any other
  text count the item.
- The first guard returns early on an admin request that is not AJAX
  (woocommerce_payment_fee.php:151-153). The others are one conjunction
  (woocommerce_payment_fee.php:158-159).
- The non-empty-gateways guard is implied by the membership guard
  (`GuardsPass` states this). It is kept because the code has it.
- Idempotence holds by construction: `FeeFor` is a function of its inputs.

## Model

| member | source | states |
|---|---|---|
| PaymentFee.AddCheckoutPaymentFee | woocommerce_payment_fee.php:150-174 | Cart items unchanged. The new fee list is the old one plus the fee line `FeeFor` gives, if any. At most one fee is appended, the existing fees stay as they were, and a failing guard leaves the fee list exactly as it was. |
| PaymentFee.Cart.AddFee | woocommerce_payment_fee.php:171 | `$cart->add_fee` appends exactly one fee line with the given name, amount, taxable flag and tax class. The items do not change. |
| PaymentFee.FeeFor | woocommerce_payment_fee.php:151-172 | Each guard alone suppresses the fee: admin without AJAX, no gateways, rate <= 0, not checkout, endpoint URL, chosen method not configured. A fee base <= 0 gives no fee. When every guard holds and the base is positive there is a fee. Any fee is labelled "Payment Fee", taxable, with tax class "", strictly positive, and amount * 100 == base * rate. |
| PaymentFee.EligibleSubtotal | woocommerce_payment_fee.php:160-167 | The fee base is 0 when every item is excluded, including the empty cart. It is non-negative when every line subtotal is. |
| PaymentFee.IsExcluded | woocommerce_payment_fee.php:164 | The exclusion test that `EligibleSubtotal` and `FeeFor` are stated in. Only the meta "yes" excludes. The meta "no" and the empty meta count the item. |
| PaymentFee.GuardsPass | woocommerce_payment_fee.php:151-159 | The guard chain that `FeeFor` and `AddCheckoutPaymentFee` are stated in. It holds exactly when the request is not admin-without-AJAX, the rate is positive, the page is the checkout and not an endpoint, and the chosen method is configured. The non-empty-gateways check is implied by the last one. |
| PaymentFee.PaymentFeeLine | woocommerce_payment_fee.php:171 | The arguments of the `add_fee` call that `FeeFor` is stated in: name "Payment Fee", the given amount, taxable, empty tax class. |
| PaymentFee.EligibleItems | woocommerce_payment_fee.php:164 | The filtered cart holds each item whose meta is not "yes" exactly as often as the cart does, and no excluded item. It is no longer than the cart. |
| PaymentFee.EligibleSubtotalAppend | woocommerce_payment_fee.php:162-167 | The loop's sum splits over concatenation: the base of a + b is the base of a plus the base of b. |
| PaymentFee.EligibleSubtotalIsSumOfEligible | woocommerce_payment_fee.php:160-167 | The accumulated subtotal equals the plain sum of line subtotals over exactly the non-excluded items. |
| PaymentFee.EligibleSubtotalOfEligibleItems | woocommerce_payment_fee.php:164-165 | Dropping every excluded item from the cart leaves the fee base unchanged. |
| PaymentFee.ExcludedItemIrrelevant | woocommerce_payment_fee.php:164-165 | Inserting an excluded item anywhere in the cart leaves the fee base unchanged. |
| PaymentFee.ExcludedItemDoesNotChangeFee | woocommerce_payment_fee.php:164-172 | Adding or removing an excluded item changes neither whether a fee is added nor what it is. |
| PaymentFee.FeeDependsOnlyOnBase | woocommerce_payment_fee.php:169-172 | Two carts with equal fee bases get the same fee, or both get none. |
| PaymentFee.AllExcludedNoFee | woocommerce_payment_fee.php:164-169 | A cart whose every item is excluded, including the empty cart, never gets a fee. |
| PaymentFee.FeeLinearInRate | woocommerce_payment_fee.php:169-170 | Scaling the rate by any k > 0 keeps the decision and scales the fee by k. With k = 2, doubling the rate doubles the fee. |

## Left out

- PHP number semantics: `floatval` parsing of the rate option, the `(float)` casts of line subtotals, and IEEE double arithmetic. The rate and subtotals are exact, already-parsed reals. Currency rounding happens later in WooCommerce and is not part of this model.
- PHP's loose `in_array` comparison: membership is exact string membership. Under loose comparison an unset (null) chosen method would match a configured empty-string gateway. The model does not capture that.
- Translation of the fee name: the source passes `__('Payment Fee', 'wc-payment-fee')` to `add_fee`. The model treats the translation call as the identity, so the name is always the untranslated "Payment Fee".
- WooCommerce's `add_fee` internals: it derives a fee id from the name and refuses a second fee with the same id, and the cart clears its fees before each recalculation. `Cart.AddFee` is a plain append.
- Product lookup: the meta is given per cart item. The case where `wc_get_product` finds no product, which fails in the source, is not modelled.
- The admin settings page, its sections and fields (woocommerce_payment_fee.php:31-112): UI and option registration, with nothing to compute.
- The product-edit checkbox and its save handler (woocommerce_payment_fee.php:121-139): metadata persistence. The stored meta string is an input. The save handler reads the POST key `_excl_payment_fee`, while the checkbox's id is `_payment_fee_excl`.
- The script that refreshes the checkout when the payment method changes (woocommerce_payment_fee.php:180-185), and the plugin-active check (woocommerce_payment_fee.php:17-22): client-side and bootstrap code.
