/**
 * The checkout payment fee of the WooCommerce Payment Fee plugin.
 *
 * On every cart recalculation the plugin checks a chain of guards (front-end
 * request, configured gateways, positive rate, checkout page, chosen gateway),
 * sums the line subtotals of the cart items whose product is not opted out
 * through the `_payment_fee_excl` meta, and, when that sum is positive,
 * appends one taxable "Payment Fee" of `subtotal * percentage / 100` to the
 * cart.
 *
 * Every query the plugin makes of WordPress and WooCommerce (is_admin,
 * DOING_AJAX, is_checkout, is_wc_endpoint_url, the session's chosen payment
 * method, the two options, the product meta) is an input value here.
 */
module PaymentFee {

  /** The meta value that opts a product out of the fee base. */
  const ExcludedFlag: string := "yes"

  /** The label of the fee line added to the cart. */
  const FeeLabel: string := "Payment Fee"

  /** One cart line, with the `_payment_fee_excl` meta of its product already looked up. */
  datatype CartItem = CartItem(productId: int, lineSubtotal: real, exclMeta: string)

  /** A fee line as WooCommerce's add_fee receives it: name, amount, taxable, tax class. */
  datatype Fee = Fee(name: string, amount: real, taxable: bool, taxClass: string)

  /** What the request tells the calculator about where it runs. */
  datatype Context = Context(
    isAdmin: bool,
    doingAjax: bool,
    isCheckout: bool,
    isEndpoint: bool,
    chosenMethod: string)

  /** The two plugin options: the selected gateways and the parsed percentage rate. */
  datatype Settings = Settings(methods: seq<string>, percentage: real)

  datatype Option<T> = None | Some(value: T)

  /** Only the exact string "yes" excludes a product; "no", "" or anything else counts it. */
  predicate IsExcluded(item: CartItem)
    ensures IsExcluded(item) ==> item.exclMeta == "yes"
    ensures item.exclMeta == "no" || item.exclMeta == "" ==> !IsExcluded(item)
  {
    item.exclMeta == ExcludedFlag
  }

  /** The amount one item adds to the fee base. */
  function Contribution(item: CartItem): real {
    if IsExcluded(item) then 0.0 else item.lineSubtotal
  }

  /**
   * The fee base: the sum of the line subtotals of the items that are not
   * excluded, accumulated in cart order as the plugin's loop does.
   */
  function EligibleSubtotal(items: seq<CartItem>): (r: real)
    ensures (forall i | 0 <= i < |items| :: IsExcluded(items[i])) ==> r == 0.0
    ensures (forall i | 0 <= i < |items| :: items[i].lineSubtotal >= 0.0) ==> r >= 0.0
  {
    if items == [] then 0.0
    else EligibleSubtotal(items[..|items| - 1]) + Contribution(items[|items| - 1])
  }

  /**
   * Every guard of the plugin holds: the fee may be computed. The check that
   * some gateway is configured is implied by the membership check.
   */
  predicate GuardsPass(ctx: Context, settings: Settings)
    ensures GuardsPass(ctx, settings) <==>
      && !(ctx.isAdmin && !ctx.doingAjax)
      && settings.percentage > 0.0
      && ctx.isCheckout
      && !ctx.isEndpoint
      && ctx.chosenMethod in settings.methods
  {
    !(ctx.isAdmin && !ctx.doingAjax)
    && |settings.methods| > 0
    && settings.percentage > 0.0
    && ctx.isCheckout
    && !ctx.isEndpoint
    && ctx.chosenMethod in settings.methods
  }

  /**
   * The fee one recalculation adds to a cart holding `items`, or None when it
   * adds nothing.
   */
  function FeeFor(ctx: Context, settings: Settings, items: seq<CartItem>): (r: Option<Fee>)
    // Each guard on its own suppresses the fee.
    ensures ctx.isAdmin && !ctx.doingAjax ==> r == None
    ensures |settings.methods| == 0 ==> r == None
    ensures settings.percentage <= 0.0 ==> r == None
    ensures !ctx.isCheckout ==> r == None
    ensures ctx.isEndpoint ==> r == None
    ensures ctx.chosenMethod !in settings.methods ==> r == None
    // An empty, fully excluded or non-positive fee base adds nothing.
    ensures EligibleSubtotal(items) <= 0.0 ==> r == None
    // Otherwise exactly one fee is added, and this is what it looks like.
    ensures GuardsPass(ctx, settings) && EligibleSubtotal(items) > 0.0 ==> r.Some?
    ensures r.Some? ==>
      && r.value.name == FeeLabel
      && r.value.taxable
      && r.value.taxClass == ""
      && r.value.amount > 0.0
      && r.value.amount * 100.0 == EligibleSubtotal(items) * settings.percentage
  {
    if GuardsPass(ctx, settings) && EligibleSubtotal(items) > 0.0 then
      Some(PaymentFeeLine(EligibleSubtotal(items) * settings.percentage / 100.0))
    else None
  }

  /** The fee line the plugin adds: labelled "Payment Fee", taxable, with the standard tax class. */
  function PaymentFeeLine(amount: real): (f: Fee)
    ensures f.name == "Payment Fee" && f.taxable && f.taxClass == "" && f.amount == amount
  {
    Fee(FeeLabel, amount, true, "")
  }

  /** The fee lines a result contributes: none, or the one fee. */
  function FeeLines(r: Option<Fee>): seq<Fee> {
    match r
    case None => []
    case Some(f) => [f]
  }

  /** The WooCommerce cart: its line items and the fee lines added so far in this recalculation. */
  class Cart {
    var items: seq<CartItem>
    var fees: seq<Fee>

    constructor (items: seq<CartItem>)
      ensures this.items == items && fees == []
    {
      this.items := items;
      fees := [];
    }

    /** `$cart->add_fee(name, amount, taxable, taxClass)`: one more fee line, nothing else changes. */
    method AddFee(name: string, amount: real, taxable: bool, taxClass: string)
      modifies this
      ensures fees == old(fees) + [Fee(name, amount, taxable, taxClass)]
      ensures items == old(items)
    {
      fees := fees + [Fee(name, amount, taxable, taxClass)];
    }
  }

  /**
   * The `woocommerce_cart_calculate_fees` hook: check the guards, sum the
   * eligible subtotal over the cart, and add the fee when that sum is positive.
   */
  method AddCheckoutPaymentFee(cart: Cart, ctx: Context, settings: Settings)
    modifies cart
    ensures cart.items == old(cart.items)
    ensures cart.fees == old(cart.fees) + FeeLines(FeeFor(ctx, settings, old(cart.items)))
    // At most one fee is appended; the fees already there stay as they were.
    ensures |cart.fees| <= |old(cart.fees)| + 1
    ensures cart.fees[..|old(cart.fees)|] == old(cart.fees)
    ensures !GuardsPass(ctx, settings) ==> cart.fees == old(cart.fees)
  {
    if ctx.isAdmin && !ctx.doingAjax {
      return;
    }
    var methods := settings.methods;
    var percentage := settings.percentage;
    if |methods| > 0 && percentage > 0.0 && ctx.isCheckout && !ctx.isEndpoint
      && ctx.chosenMethod in methods
    {
      var items := cart.items;
      var subtotal := 0.0;
      var i := 0;
      while i < |items|
        invariant 0 <= i <= |items|
        invariant subtotal == EligibleSubtotal(items[..i])
      {
        assert items[..i + 1][..i] == items[..i];
        if items[i].exclMeta != ExcludedFlag {
          subtotal := subtotal + items[i].lineSubtotal;
        }
        i := i + 1;
      }
      assert items[..i] == items;
      assert GuardsPass(ctx, settings);
      if subtotal > 0.0 {
        var feeAmount := subtotal * percentage / 100.0;
        assert FeeFor(ctx, settings, items).value.amount == feeAmount;
        cart.AddFee(FeeLabel, feeAmount, true, "");
      }
    }
  }

  // ---------------------------------------------------------------------
  // A second definition of the fee base: filter first, then sum.
  // ---------------------------------------------------------------------

  /** The items that are not excluded, in cart order. */
  function EligibleItems(items: seq<CartItem>): (r: seq<CartItem>)
    ensures |r| <= |items|
    ensures forall x :: x in r <==> x in items && !IsExcluded(x)
    ensures forall x :: multiset(r)[x] == if IsExcluded(x) then 0 else multiset(items)[x]
  {
    if items == [] then []
    else
      assert multiset(items) == multiset{items[0]} + multiset(items[1..]) by {
        assert items == [items[0]] + items[1..];
      }
      if IsExcluded(items[0]) then EligibleItems(items[1..])
      else [items[0]] + EligibleItems(items[1..])
  }

  /** The plain sum of all line subtotals. */
  function LineTotal(items: seq<CartItem>): real {
    if items == [] then 0.0 else items[0].lineSubtotal + LineTotal(items[1..])
  }

  lemma {:induction false} EligibleSubtotalAppend(a: seq<CartItem>, b: seq<CartItem>)
    ensures EligibleSubtotal(a + b) == EligibleSubtotal(a) + EligibleSubtotal(b)
    decreases |b|
  {
    if b == [] {
      assert a + b == a;
    } else {
      var b' := b[..|b| - 1];
      assert (a + b)[..|a + b| - 1] == a + b';
      EligibleSubtotalAppend(a, b');
    }
  }

  /** The fee base accumulated by the loop is the sum over exactly the non-excluded items. */
  lemma {:induction false} EligibleSubtotalIsSumOfEligible(items: seq<CartItem>)
    ensures EligibleSubtotal(items) == LineTotal(EligibleItems(items))
    decreases |items|
  {
    if items != [] {
      var rest := items[1..];
      assert items == [items[0]] + rest;
      EligibleSubtotalAppend([items[0]], rest);
      assert [items[0]][..0] == [];
      EligibleSubtotalIsSumOfEligible(rest);
      if !IsExcluded(items[0]) {
        var e := [items[0]] + EligibleItems(rest);
        assert e[1..] == EligibleItems(rest);
      }
    }
  }

  /** Dropping the excluded items from the cart leaves the fee base as it was. */
  lemma {:induction false} EligibleSubtotalOfEligibleItems(items: seq<CartItem>)
    ensures EligibleSubtotal(EligibleItems(items)) == EligibleSubtotal(items)
    decreases |items|
  {
    if items != [] {
      var rest := items[1..];
      assert items == [items[0]] + rest;
      EligibleSubtotalAppend([items[0]], rest);
      assert [items[0]][..0] == [];
      EligibleSubtotalOfEligibleItems(rest);
      if !IsExcluded(items[0]) {
        EligibleSubtotalAppend([items[0]], EligibleItems(rest));
      }
    }
  }

  /** An excluded item, wherever it sits in the cart, does not change the fee base. */
  lemma ExcludedItemIrrelevant(before: seq<CartItem>, x: CartItem, after: seq<CartItem>)
    requires IsExcluded(x)
    ensures EligibleSubtotal(before + [x] + after) == EligibleSubtotal(before + after)
  {
    EligibleSubtotalAppend(before + [x], after);
    EligibleSubtotalAppend(before, [x]);
    EligibleSubtotalAppend(before, after);
    assert [x][..0] == [];
  }

  /** Adding or removing an excluded item changes neither whether a fee is added nor its amount. */
  lemma ExcludedItemDoesNotChangeFee(
    ctx: Context, settings: Settings, before: seq<CartItem>, x: CartItem, after: seq<CartItem>)
    requires IsExcluded(x)
    ensures FeeFor(ctx, settings, before + [x] + after) == FeeFor(ctx, settings, before + after)
  {
    ExcludedItemIrrelevant(before, x, after);
    FeeDependsOnlyOnBase(ctx, settings, before + [x] + after, before + after);
  }

  /** The cart enters the fee only through its fee base: equal bases, equal fees. */
  lemma FeeDependsOnlyOnBase(ctx: Context, settings: Settings, a: seq<CartItem>, b: seq<CartItem>)
    requires EligibleSubtotal(a) == EligibleSubtotal(b)
    ensures FeeFor(ctx, settings, a) == FeeFor(ctx, settings, b)
  {
    var s := EligibleSubtotal(a);
    if GuardsPass(ctx, settings) && s > 0.0 {
      assert FeeFor(ctx, settings, a).value.amount == s * settings.percentage / 100.0;
      assert FeeFor(ctx, settings, b).value.amount == s * settings.percentage / 100.0;
    }
  }

  /** A cart whose every item is excluded never gets a fee. */
  lemma AllExcludedNoFee(ctx: Context, settings: Settings, items: seq<CartItem>)
    requires forall i | 0 <= i < |items| :: IsExcluded(items[i])
    ensures FeeFor(ctx, settings, items) == None
  {
  }

  /**
   * With everything else fixed, the fee is linear in the rate: scaling the
   * rate by k > 0 keeps the decision and scales the amount by k (k = 2:
   * doubling the rate doubles the fee).
   */
  lemma FeeLinearInRate(ctx: Context, settings: Settings, items: seq<CartItem>, k: real)
    requires k > 0.0
    ensures FeeFor(ctx, settings, items).Some? <==>
            FeeFor(ctx, settings.(percentage := k * settings.percentage), items).Some?
    ensures FeeFor(ctx, settings, items).Some? ==>
            FeeFor(ctx, settings.(percentage := k * settings.percentage), items).value.amount
              == k * FeeFor(ctx, settings, items).value.amount
  {
  }
}
