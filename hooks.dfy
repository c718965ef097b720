/**
 * The plugin's hook callbacks: the cart's discounted-amount filter, the
 * per-discount totals of the cart's discount line, the order total saved on
 * purchase completion, the receipt total, and the save of the
 * "apply to signup fee" flag. The post-meta store they read and write is the
 * class `PostMeta`; the cart, the discount codes and the host's discount
 * catalogue are parameters.
 */
module Hooks {
  import opened Wrappers
  import opened FeeDiscount
  import opened Cart

  /** With an empty cart every code adds nothing. */
  lemma {:induction false} EmptyCartAddsNothing(rule: CapRule, c: Catalog, flags: map<nat, string>, codes: seq<string>)
    ensures FeeDiscountTotal(rule, c, flags, codes, []) == 0.0
  {
    if codes != [] {
      EmptyCartAddsNothing(rule, c, flags, codes[..|codes| - 1]);
    }
  }

  /**
   * The `edd_get_cart_discounted_amount` filter. Missing codes or items fall
   * back to the session's; when either is still empty the amount is returned
   * as it came. Otherwise each flagged, resolving code adds, for each item
   * with a signup fee, its discount on that fee capped at the fee.
   */
  method ApplySignupFeeDiscount(discountedAmount: real, discounts: seq<string>, cartItems: seq<CartItem>,
                                sessionDiscounts: seq<string>, sessionCart: seq<CartItem>,
                                c: Catalog, flags: map<nat, string>)
    returns (r: real)
    ensures var codes := if discounts == [] then sessionDiscounts else discounts;
            var items := if cartItems == [] then sessionCart else cartItems;
            (codes == [] || items == [] ==> r == discountedAmount) &&
            r == discountedAmount + FeeDiscountTotal(CapEveryType, c, flags, codes, items)
  {
    var items := cartItems;
    if items == [] {
      items := sessionCart;
    }
    var codes := discounts;
    if codes == [] {
      codes := sessionDiscounts;
    }
    if codes == [] || items == [] {
      EmptyCartAddsNothing(CapEveryType, c, flags, codes);
      return discountedAmount;
    }

    r := discountedAmount;
    for i := 0 to |codes|
      invariant r == discountedAmount + FeeDiscountTotal(CapEveryType, c, flags, codes[..i], items)
    {
      assert codes[..i + 1][..i] == codes[..i];
      var id := IdOf(c, codes[i]);
      if id == 0 {
        continue;
      }
      if FlagOf(flags, id) != FlagOn {
        continue;
      }
      var kind, amount := KindOf(c, id), AmountOf(c, id);
      ghost var before := r;
      for j := 0 to |items|
        invariant r == before + ItemsTotal(CapEveryType, kind, amount, items[..j])
      {
        assert items[..j + 1][..j] == items[..j];
        var item := items[j];
        if item.signupFee.Some? {
          var fee := item.signupFee.value;
          var finalDiscount := CappedFeeDiscount(kind, amount, fee);
          r := r + finalDiscount;
        }
      }
      assert items[..|items|] == items;
    }
    assert codes[..|codes|] == codes;
  }

  /**
   * The signup-fee discount computed on purchase completion: the same loops
   * as the cart filter, but a percentage discount is not capped at the fee.
   */
  method OrderSignupFeeDiscount(c: Catalog, flags: map<nat, string>, discounts: seq<string>, cartItems: seq<CartItem>)
    returns (total: real)
    ensures discounts == [] || cartItems == [] ==> total == 0.0
    ensures total == FeeDiscountTotal(CapFlatOnly, c, flags, discounts, cartItems)
  {
    total := 0.0;
    if discounts == [] || cartItems == [] {
      EmptyCartAddsNothing(CapFlatOnly, c, flags, discounts);
      return;
    }
    for i := 0 to |discounts|
      invariant total == FeeDiscountTotal(CapFlatOnly, c, flags, discounts[..i], cartItems)
    {
      assert discounts[..i + 1][..i] == discounts[..i];
      var id := IdOf(c, discounts[i]);
      if id == 0 {
        continue;
      }
      if FlagOf(flags, id) != FlagOn {
        continue;
      }
      var kind, amount := KindOf(c, id), AmountOf(c, id);
      ghost var before := total;
      for j := 0 to |cartItems|
        invariant total == before + ItemsTotal(CapFlatOnly, kind, amount, cartItems[..j])
      {
        assert cartItems[..j + 1][..j] == cartItems[..j];
        var item := cartItems[j];
        if item.signupFee.Some? {
          var fee := item.signupFee.value;
          var discount := OrderFeeDiscount(kind, amount, fee);
          total := total + discount;
        }
      }
      assert cartItems[..|cartItems|] == cartItems;
    }
    assert discounts[..|discounts|] == discounts;
  }

  /**
   * The total shown next to one code by the `edd_get_cart_discounts_html`
   * filter: for each item, the discount on a positive price capped at the
   * price, plus the capped fee discount when the code's flag is "1". An
   * unresolved code is not skipped; its id reads as 0.
   */
  method DiscountLineTotal(c: Catalog, flags: map<nat, string>, code: string, cartItems: seq<CartItem>)
    returns (totalDiscount: real)
    ensures totalDiscount == DisplayTotal(c, flags, code, cartItems)
  {
    var id := IdOf(c, code);
    var kind, amount := KindOf(c, id), AmountOf(c, id);
    totalDiscount := 0.0;
    for j := 0 to |cartItems|
      invariant totalDiscount == DisplayTotal(c, flags, code, cartItems[..j])
    {
      assert cartItems[..j + 1][..j] == cartItems[..j];
      var item := cartItems[j];
      ghost var before := totalDiscount;
      if 0.0 < item.price {
        var recurringDiscount := Min(Raw(kind, amount, item.price), item.price);
        totalDiscount := totalDiscount + recurringDiscount;
      }
      if item.signupFee.Some? {
        var fee := item.signupFee.value;
        if FlagOf(flags, id) == FlagOn {
          var feeDiscount := CappedFeeDiscount(kind, amount, fee);
          totalDiscount := totalDiscount + feeDiscount;
        }
      }
      assert totalDiscount == before + DisplayItem(c, flags, id, item);
    }
    assert cartItems[..|cartItems|] == cartItems;
  }

  /** The per-code totals of the cart's discount line, one per code in order. */
  method DiscountLineTotals(c: Catalog, flags: map<nat, string>, discounts: seq<string>, cartItems: seq<CartItem>)
    returns (totals: seq<real>)
    ensures |totals| == |discounts|
    ensures forall k :: 0 <= k < |discounts| ==> totals[k] == DisplayTotal(c, flags, discounts[k], cartItems)
  {
    totals := [];
    for i := 0 to |discounts|
      invariant |totals| == i
      invariant forall k :: 0 <= k < i ==> totals[k] == DisplayTotal(c, flags, discounts[k], cartItems)
    {
      var totalDiscount := DiscountLineTotal(c, flags, discounts[i], cartItems);
      totals := totals + [totalDiscount];
    }
  }

  /** The fields of the discount form that the flag save reads. */
  datatype DiscountForm = DiscountForm(nonce: Option<string>, applyToSignupFee: Option<string>)

  /** PHP's `empty()` on a posted string field: absent, "" or "0". */
  predicate PostedEmpty(field: Option<string>)
  {
    field.None? || field.value == "" || field.value == "0"
  }

  /** The flag is written only when a nonce is posted, the field is posted and the nonce verifies. */
  predicate SaveAllowed(form: DiscountForm, nonceVerifies: bool)
  {
    !PostedEmpty(form.nonce) && form.applyToSignupFee.Some? && nonceVerifies
  }

  /**
   * The `_apply_to_signup_fee` meta after saving a discount's form: untouched
   * unless the save is allowed; then "1" for the discount exactly when "1" was
   * posted, "" otherwise, and every other discount's flag as it was. WordPress
   * writes no meta for object id 0, so a save for id 0 changes nothing.
   */
  function SavedFlags(flags: map<nat, string>, form: DiscountForm, nonceVerifies: bool, discountId: nat): (r: map<nat, string>)
    ensures !SaveAllowed(form, nonceVerifies) || discountId == 0 ==> r == flags
    ensures SaveAllowed(form, nonceVerifies) && discountId != 0 ==>
              discountId in r && (r[discountId] == FlagOn <==> form.applyToSignupFee.value == FlagOn) &&
              (r[discountId] == FlagOn || r[discountId] == "")
    ensures r.Keys <= flags.Keys + {discountId}
    ensures forall other :: other in flags && other != discountId ==> other in r && r[other] == flags[other]
  {
    if SaveAllowed(form, nonceVerifies) && discountId != 0 then
      flags[discountId := if form.applyToSignupFee.value == FlagOn then FlagOn else ""]
    else flags
  }

  /**
   * After a save, a code of the saved discount applies to signup fees exactly
   * when "1" was posted (if the save was allowed) or as before (if not); codes
   * of other discounts are unaffected.
   */
  lemma SavedFlagControlsCart(c: Catalog, flags: map<nat, string>, form: DiscountForm, nonceVerifies: bool,
                              discountId: nat, code: string)
    ensures var saved := SavedFlags(flags, form, nonceVerifies, discountId);
            IdOf(c, code) == discountId != 0 && SaveAllowed(form, nonceVerifies) ==>
              (AppliesToFee(c, saved, code) <==> form.applyToSignupFee.value == FlagOn)
    ensures var saved := SavedFlags(flags, form, nonceVerifies, discountId);
            IdOf(c, code) != discountId || discountId == 0 || !SaveAllowed(form, nonceVerifies) ==>
              (AppliesToFee(c, saved, code) <==> AppliesToFee(c, flags, code))
  {
  }

  /**
   * Posting the form with the field absent keeps an enabled flag enabled;
   * posting it with any value other than "1" turns the flag off.
   */
  lemma ToggleOffNeedsPostedField(flags: map<nat, string>, nonce: string, discountId: nat, posted: string)
    requires FlagOf(flags, discountId) == FlagOn
    ensures FlagOf(SavedFlags(flags, DiscountForm(Some(nonce), None), true, discountId), discountId) == FlagOn
    ensures !PostedEmpty(Some(nonce)) && posted != FlagOn ==>
              FlagOf(SavedFlags(flags, DiscountForm(Some(nonce), Some(posted)), true, discountId), discountId) == ""
  {
  }

  /**
   * WordPress post meta, restricted to the two keys the plugin uses:
   * `_apply_to_signup_fee` per discount id and `_signup_fee_discount` per
   * payment id.
   */
  class PostMeta {
    var feeFlags: map<nat, string>
    var orderFeeDiscounts: map<nat, real>

    /** An empty store: no discount is flagged, no order has a stored discount. */
    constructor ()
      ensures feeFlags == map[] && orderFeeDiscounts == map[]
      ensures forall id: nat :: FlagOf(feeFlags, id) == ""
    {
      feeFlags := map[];
      orderFeeDiscounts := map[];
    }

    /** The `edd_post_insert_discount` / `edd_post_update_discount` action. */
    method SaveSignupFeeMeta(form: DiscountForm, nonceVerifies: bool, discountId: nat)
      modifies this
      ensures feeFlags == SavedFlags(old(feeFlags), form, nonceVerifies, discountId)
      ensures orderFeeDiscounts == old(orderFeeDiscounts)
    {
      if PostedEmpty(form.nonce) || form.applyToSignupFee.None? || !nonceVerifies {
        return;
      }
      var applyToSignupFee := if form.applyToSignupFee.value == FlagOn then FlagOn else "";
      // update_post_meta writes nothing for object id 0
      if discountId != 0 {
        feeFlags := feeFlags[discountId := applyToSignupFee];
      }
    }

    /**
     * The `edd_complete_purchase` action: the order's signup-fee discount is
     * always written, zero included, and nothing else changes. As for every
     * meta write, payment id 0 gets nothing written.
     */
    method SaveSignupFeeDiscountMeta(paymentId: nat, c: Catalog, discounts: seq<string>, cartItems: seq<CartItem>)
      modifies this
      ensures paymentId != 0 ==>
                orderFeeDiscounts == old(orderFeeDiscounts)[paymentId := FeeDiscountTotal(CapFlatOnly, c, feeFlags, discounts, cartItems)]
      ensures paymentId == 0 ==> orderFeeDiscounts == old(orderFeeDiscounts)
      ensures feeFlags == old(feeFlags)
    {
      var signupFeeDiscount := OrderSignupFeeDiscount(c, feeFlags, discounts, cartItems);
      // update_post_meta writes nothing for object id 0
      if paymentId != 0 {
        orderFeeDiscounts := orderFeeDiscounts[paymentId := signupFeeDiscount];
      }
    }

    /** The stored `_signup_fee_discount` of an order, if any; id 0 reads as nothing stored. */
    function StoredOrderDiscount(orderId: nat): Option<real>
      reads this
    {
      if orderId != 0 && orderId in orderFeeDiscounts then Some(orderFeeDiscounts[orderId]) else None
    }

    /**
     * The `edd_payment_amount` filter: the order total less the stored
     * signup-fee discount, never negative, or the total unchanged when the
     * stored discount is missing or zero.
     */
    function PaymentAmount(total: real, orderId: nat): (r: real)
      reads this
      ensures orderId == 0 || orderId !in orderFeeDiscounts || orderFeeDiscounts[orderId] == 0.0 ==> r == total
      ensures orderId != 0 && orderId in orderFeeDiscounts && orderFeeDiscounts[orderId] != 0.0 ==>
                0.0 <= r && total - orderFeeDiscounts[orderId] <= r &&
                (r == 0.0 || r == total - orderFeeDiscounts[orderId])
    {
      AdjustReceiptTotal(total, StoredOrderDiscount(orderId))
    }
  }
}
