# Signup Fee Discount for EDD — a Dafny model

This project models the money arithmetic of the WordPress plugin "Signup Fee
Discount for EDD". The plugin adds one flag to each Easy Digital Downloads
discount: `_apply_to_signup_fee`. When the flag is `'1'`, the discount also
applies to the one-time signup fee of recurring cart items. The plugin uses
the flag in four places:

- the cart's discounted amount (`apply_signup_fee_discount`);
- the per-discount totals shown in the cart's discount line (the
  `edd_get_cart_discounts_html` closure);
- the total saved against an order when the purchase completes
  (`save_signup_fee_discount_meta`);
- the receipt total, which subtracts that saved total
  (`adjust_receipt_total`).

The flag itself is written by `save_signup_fee_meta`, when a discount's form is saved.

Files:

- `fee_discount.dfy`, module `FeeDiscount`: the per-item rules. `CappedFeeDiscount` is the cart rule: a percentage or flat discount, capped at the fee. `OrderFeeDiscount` is the order rule: only flat discounts are capped. `AdjustReceiptTotal` is the receipt rule. Module `Wrappers` holds `Option`.
- `cart.dfy`, module `Cart`: the cart items and the host's discount catalogue. It holds the specification functions for the three totals and the lemmas about them: bounds, non-negativity, which codes and items contribute, order total against cart total, and how the display total splits.
- `hooks.dfy`, module `Hooks`: the hook callbacks as methods with loops, each proved equal to its specification function. It also holds the class `PostMeta`, which is the post-meta store the callbacks read and write.

How the host's pieces are represented:

- Money is an exact `real`.
- A discount code resolves through `Catalog.ids`. Id 0 stands for PHP's falsy "not found".
- A discount's type and amount come from `Catalog.kinds` and `Catalog.amounts`. An id with no entry reads as type `""` and amount 0.
- The post meta is two maps, one per meta key. An absent flag reads as `""`. As in WordPress, object id 0 has no meta: it reads as nothing stored, and a write for it changes nothing.
- The result of `wp_verify_nonce` is a boolean parameter.
- The cart contents and the cart's discount codes from the EDD session are parameters.

The model keeps these behaviours exactly as the code has them:

- The code puts no floor at zero on a per-item discount. A negative fee, a negative flat amount, or a negative percentage on a positive fee gives a negative discount.
- Posting the discount form without the `apply_to_signup_fee` field returns early. So unchecking the box does not, by itself, turn the flag off. Only a posted value other than `'1'` turns it off (`Hooks.ToggleOffNeedsPostedField`).
- The three computations are not the same. The order path does not cap percentage discounts at the fee. The display does not skip codes that do not resolve, and it adds a discount on each positive item price.

## Model

| member | source | states |
|---|---|---|
| FeeDiscount.CappedFeeDiscount | signup-fee-discount-edd.php:146-151 | the cart's per-item discount never exceeds the fee; it is the fee, or the percentage of the fee, or the flat amount, whichever the `min` picks; it is non-negative when the amount and the fee are |
| FeeDiscount.OrderFeeDiscount | signup-fee-discount-edd.php:275-277 | on the order path a percentage discount is exactly `fee * amount / 100` with no cap; a flat one equals the cart rule and is within the fee; it never takes less than the cart rule |
| FeeDiscount.OrderMatchesCartWithinHundred | signup-fee-discount-edd.php:275-277 | for a non-negative fee and a percentage of at most 100, negative percentages included, the order rule and the cart rule agree; for a non-negative amount the result is within `[0, fee]` |
| FeeDiscount.OrderExceedsCartAboveHundred | signup-fee-discount-edd.php:275-277 | a percentage above 100 on a positive fee gives the whole fee on the cart path but more than the fee on the order path |
| FeeDiscount.AdjustReceiptTotal | signup-fee-discount-edd.php:297-306 | an absent or zero stored discount leaves the total unchanged; otherwise the result is `max(0, total - stored)`, never negative; with a non-negative total and stored discount it lies in `[0, total]` |
| Cart.AppliedCodes | signup-fee-discount-edd.php:127-138 | a code is among those that survive the two `continue`s exactly when it is in the cart's code list, resolves and is flagged `'1'`; there are as many as the applied count |
| Cart.FeeItems | signup-fee-discount-edd.php:141-142 | an item is among those the inner loop acts on exactly when it is in the cart and carries a signup fee; there are exactly as many of them as cart positions with a fee, repeats included, and no more than cart items |
| Cart.ItemsTotalAtMostFees | signup-fee-discount-edd.php:141-156 | because `min` is applied before accumulation, one discount adds at most the sum of the cart's signup fees |
| Cart.CartTotalAtMostFees | signup-fee-discount-edd.php:127-159 | the cart filter adds at most the sum of the signup fees once for each applied code |
| Cart.ItemsTotalNonNegative | signup-fee-discount-edd.php:141-156 | with a non-negative amount and fees, one discount's fee discounts sum to at least zero, under either cap rule |
| FeeDiscount.CartRuleWithinOrderRule | signup-fee-discount-edd.php:146-151 | with a non-negative amount and fee, the cart rule's result lies between 0 and the order rule's |
| Cart.FlagOf | signup-fee-discount-edd.php:135-136 | the flag read for a discount is the stored value, `''` when nothing is stored, and `''` for id 0, for which WordPress reads no meta |
| Cart.FeeDiscountTotalNonNegative | signup-fee-discount-edd.php:151-154 | with non-negative amounts and fees the added signup-fee discount is non-negative, so the cart filter never lowers the discounted amount |
| Cart.FeeItemsSuffice | signup-fee-discount-edd.php:141-142 | items without a `signup_fee` contribute nothing: the total over the cart equals the total over its fee-bearing items |
| Cart.AppliedCodesSuffice | signup-fee-discount-edd.php:127-138 | codes that do not resolve or whose flag is not exactly `'1'` contribute nothing: the total equals the total over the applied codes |
| Cart.OrderItemsAtLeastCart | signup-fee-discount-edd.php:271-281 | over one discount, the order path's fee discounts are at least the cart path's |
| Cart.OrderAtLeastCart | signup-fee-discount-edd.php:259-283 | the total saved on the order is at least what the cart filter adds, for every catalogue, flag store, code list and cart |
| Cart.OrderItemsMatchCart | signup-fee-discount-edd.php:271-281 | over one discount with a percentage of at most 100 (negative ones included) and non-negative fees, the two paths agree |
| Cart.OrderMatchesCart | signup-fee-discount-edd.php:259-283 | when every percentage discount is at most 100 (negative ones included) and every fee is non-negative, the order total equals the cart's added discount; only a percentage above 100 makes them differ |
| Cart.OrderExceedsCartExample | signup-fee-discount-edd.php:275-277 | a 150% discount on a single fee of 100: the cart adds 100, the order records 150 |
| Cart.RecurringPart | signup-fee-discount-edd.php:190-196 | for a positive price the recurring part is `min` of the discount applied to the price and the price: at most both, and equal to one of them; zero for a price that is not positive; non-negative for a non-negative amount |
| Cart.DisplayTotalSplits | signup-fee-discount-edd.php:185-219 | a code's displayed total is the sum of its recurring parts, plus the cart rule's fee discounts exactly when its id's flag is `'1'` |
| Cart.DisplayFeePartMatchesCart | signup-fee-discount-edd.php:177-219 | for every code the displayed total is its recurring parts plus exactly what the cart filter adds for that code; an unresolved code adds nothing to the cart, and its fee part shown is zero too |
| Cart.DisplayTotalBounded | signup-fee-discount-edd.php:185-219 | with non-negative fees a code's displayed total is at most the sum of positive prices plus the sum of fees |
| Hooks.EmptyCartAddsNothing | signup-fee-discount-edd.php:122-124 | with no cart items every code list adds zero |
| Hooks.ApplySignupFeeDiscount | signup-fee-discount-edd.php:111-160 | after the session fallbacks, an empty code list or cart returns the incoming amount; otherwise the result is the incoming amount plus the capped fee discount of every applied code on every fee-bearing item |
| Hooks.OrderSignupFeeDiscount | signup-fee-discount-edd.php:253-283 | the order's signup-fee discount is zero for an empty code list or cart, and otherwise the order-rule total over applied codes and fee-bearing items |
| Hooks.DiscountLineTotal | signup-fee-discount-edd.php:178-219 | the loop over items computes the displayed total of one code, without skipping an unresolved id |
| Hooks.DiscountLineTotals | signup-fee-discount-edd.php:177-240 | one displayed total per code, in order |
| Hooks.SavedFlags | signup-fee-discount-edd.php:89-96 | the flag store is untouched when the nonce is empty, the field is absent or the nonce fails (and for id 0, which gets no meta); otherwise the discount's flag becomes `'1'` exactly when `'1'` was posted and `''` otherwise, and no other entry changes |
| Hooks.SavedFlagControlsCart | signup-fee-discount-edd.php:89-96 | after an allowed save for a non-zero id, a code of the saved discount applies to signup fees exactly when `'1'` was posted; codes of other discounts, and every code after a refused save, apply exactly as before |
| Hooks.ToggleOffNeedsPostedField | signup-fee-discount-edd.php:90-94 | an enabled flag stays enabled when the field is not posted, and becomes `''` when any other value than `'1'` is posted with a verified nonce |
| Hooks.PostMeta.constructor | signup-fee-discount-edd.php:135-136 | before any save, the flag read of every discount is the default `''` that `get_post_meta` gives for an absent key, so no discount applies to signup fees |
| Hooks.PostMeta.SaveSignupFeeMeta | signup-fee-discount-edd.php:89-96 | the flag store becomes `SavedFlags` of the old one; the order store is unchanged |
| Hooks.PostMeta.SaveSignupFeeDiscountMeta | signup-fee-discount-edd.php:252-287 | for a non-zero payment id the order's `_signup_fee_discount` is always written, zero included, with the order-rule total; no other order entry and no flag changes; payment id 0 gets nothing written |
| Hooks.PostMeta.PaymentAmount | signup-fee-discount-edd.php:297-306 | the receipt total reads the stored order discount: unchanged when absent or zero (and for order id 0), else `max(0, total - stored)` |

## Left out

- `render_signup_fee_toggle` and the HTML built in the discount-line closure (rate display, escaping, remove link, `apply_filters`). These are UI output only. The model keeps the closure's arithmetic (`Hooks.DiscountLineTotals`).
- `error_log` calls, `add_action`/`add_filter` registration, `init`, the empty `activate`/`deactivate`, and `load_plugin_textdomain` and the translation functions. None of them affects a value.
- The EDD and WordPress host functions. Each is an input of the model, not behaviour: `edd_get_cart_contents`, `edd_get_cart_discounts`, `edd_get_discount_id_by_code`, `edd_get_discount_type`, `edd_get_discount_amount`, `edd_get_cart_item_price`, `get_post_meta`, `update_post_meta` and `wp_verify_nonce`. What they return for an id they do not know is taken as type `""`, amount 0 and flag `""`.
- `sanitize_text_field` and `wp_unslash` are taken as the identity. A posted `" 1 "`, which the host trims to `"1"`, is therefore not modelled as enabling the flag.
- `floatval` parsing of the stored fee and of the stored order discount, PHP float rounding, and currency formatting (`edd_format_amount`, `edd_currency_filter`). Amounts are exact reals.
- The `is_array` test on the cart contents in the discount-line closure. The cart is always a sequence here, and an empty one gives totals of zero.
- The `$args` argument of `save_signup_fee_meta` and the `$payment_data` argument of `save_signup_fee_discount_meta`. The code does not read them.
- The discount-line closure fetches the cart contents again for each code. The model passes one cart, because the session does not change during one render.
