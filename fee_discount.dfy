/** Option type for values that the host may or may not have stored. */
module Wrappers {
  datatype Option<+T> = None | Some(value: T)
}

/**
 * The per-item arithmetic of the plugin: what one discount takes off one
 * signup fee (or one item price), and how the receipt total is adjusted by
 * the discount stored against an order. Money is an exact `real`.
 */
module FeeDiscount {
  import opened Wrappers

  /** The discount type EDD reports for a percentage discount; any other type takes the flat branch. */
  const PercentType: string := "percent"

  /** PHP's `min` on two numbers. */
  function Min(a: real, b: real): real { if a <= b then a else b }

  /** PHP's `max` on two numbers. */
  function Max(a: real, b: real): real { if a >= b then a else b }

  /**
   * What a discount of type `kind` and amount `amount` takes off `base`
   * before any cap: a percentage of the base, or the flat amount itself.
   */
  function Raw(kind: string, amount: real, base: real): real
  {
    if kind == PercentType then base * (amount / 100.0) else amount
  }

  /**
   * The cart rule: the discount on one signup fee, capped at the fee.
   * There is no floor at zero; the result is non-negative only when the
   * amount and the fee are.
   */
  function CappedFeeDiscount(kind: string, amount: real, fee: real): (r: real)
    ensures r <= fee
    ensures kind == PercentType ==> r * 100.0 <= fee * amount
    ensures kind != PercentType ==> r <= amount
    ensures r == fee || (kind == PercentType && r * 100.0 == fee * amount) || (kind != PercentType && r == amount)
    ensures 0.0 <= amount && 0.0 <= fee ==> 0.0 <= r
  {
    Min(Raw(kind, amount, fee), fee)
  }

  /**
   * The order rule used when the purchase completes: a percentage of the fee,
   * NOT capped, or the flat amount capped at the fee. It never takes less off
   * than the cart rule, and takes the same off for every flat discount.
   */
  function OrderFeeDiscount(kind: string, amount: real, fee: real): (r: real)
    ensures kind == PercentType ==> r * 100.0 == fee * amount
    ensures kind != PercentType ==> r == CappedFeeDiscount(kind, amount, fee) && r <= fee
    ensures CappedFeeDiscount(kind, amount, fee) <= r
  {
    if kind == PercentType then fee * (amount / 100.0) else Min(amount, fee)
  }

  /**
   * A percentage discount of at most 100% (negative ones included) on a
   * non-negative fee is within the fee, so both rules agree.
   */
  lemma OrderMatchesCartWithinHundred(kind: string, amount: real, fee: real)
    requires 0.0 <= fee
    requires kind == PercentType ==> amount <= 100.0
    ensures OrderFeeDiscount(kind, amount, fee) == CappedFeeDiscount(kind, amount, fee)
    ensures 0.0 <= amount ==> 0.0 <= OrderFeeDiscount(kind, amount, fee) <= fee
  {
    if kind == PercentType {
      if amount < 0.0 {
        assert fee * (amount / 100.0) <= 0.0;
      } else {
        assert fee * (amount / 100.0) <= fee * 1.0 by {
          assert amount / 100.0 <= 1.0;
        }
      }
      assert Raw(kind, amount, fee) <= fee;
    }
  }

  /** With a non-negative amount and fee, the cart rule takes off between nothing and what the order rule takes off. */
  lemma CartRuleWithinOrderRule(kind: string, amount: real, fee: real)
    requires 0.0 <= amount && 0.0 <= fee
    ensures 0.0 <= CappedFeeDiscount(kind, amount, fee) <= OrderFeeDiscount(kind, amount, fee)
  {
  }

  /** A percentage discount above 100% on a positive fee takes more than the fee on the order path, the fee on the cart path. */
  lemma OrderExceedsCartAboveHundred(amount: real, fee: real)
    requires 100.0 < amount && 0.0 < fee
    ensures CappedFeeDiscount(PercentType, amount, fee) == fee
    ensures fee < OrderFeeDiscount(PercentType, amount, fee)
  {
    assert fee * 1.0 < fee * (amount / 100.0) by {
      assert 1.0 < amount / 100.0;
    }
    assert fee < Raw(PercentType, amount, fee);
  }

  /**
   * PHP's `empty()` on the stored order discount: nothing stored, or a
   * stored zero (a float 0 is saved as the string "0", which is empty).
   */
  predicate IsEmptyStored(stored: Option<real>)
  {
    stored.None? || stored.value == 0.0
  }

  /**
   * The receipt total: the order total less the stored signup-fee discount,
   * never below zero, or the order total untouched when nothing non-empty is
   * stored.
   */
  function AdjustReceiptTotal(total: real, stored: Option<real>): (r: real)
    ensures IsEmptyStored(stored) ==> r == total
    ensures !IsEmptyStored(stored) ==> 0.0 <= r && total - stored.value <= r
    ensures !IsEmptyStored(stored) ==> (r == 0.0 || r == total - stored.value)
    ensures 0.0 <= total && (stored.Some? ==> 0.0 <= stored.value) ==> 0.0 <= r <= total
  {
    if !IsEmptyStored(stored) then Max(0.0, total - stored.value) else total
  }
}
