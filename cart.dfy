/**
 * The cart as the plugin sees it, the host's discount catalogue, and the
 * specification of the three per-discount totals the plugin computes: the
 * signup-fee discount added to the cart's discounted amount, the one saved
 * against a completed order, and the per-discount total shown in the cart's
 * discount line.
 */
module Cart {
  import opened Wrappers
  import opened FeeDiscount

  /**
   * A cart item: the price EDD reports for it, and the signup fee found under
   * `options.recurring.signup_fee` when the item is a recurring one.
   */
  datatype CartItem = CartItem(price: real, signupFee: Option<real>)

  /**
   * The host's discount catalogue: discount code to discount id, and the type
   * and amount of each id. Id 0 stands for "the code did not resolve".
   */
  datatype Catalog = Catalog(ids: map<string, nat>, kinds: map<nat, string>, amounts: map<nat, real>)

  /** Which cap the per-item discount gets: every type (cart) or flat only (order). */
  datatype CapRule = CapEveryType | CapFlatOnly

  /** The value of the `_apply_to_signup_fee` meta that turns the feature on. */
  const FlagOn: string := "1"

  function IdOf(c: Catalog, code: string): nat
  {
    if code in c.ids then c.ids[code] else 0
  }

  function KindOf(c: Catalog, id: nat): string
  {
    if id in c.kinds then c.kinds[id] else ""
  }

  function AmountOf(c: Catalog, id: nat): real
  {
    if id in c.amounts then c.amounts[id] else 0.0
  }

  /**
   * The stored `_apply_to_signup_fee` meta of a discount. Nothing stored reads
   * as "", and so does id 0: WordPress reads no meta for object id 0.
   */
  function FlagOf(flags: map<nat, string>, id: nat): (r: string)
    ensures id == 0 ==> r == ""
    ensures id != 0 && id in flags ==> r == flags[id]
    ensures id !in flags ==> r == ""
  {
    if id != 0 && id in flags then flags[id] else ""
  }

  /** The code resolves to a discount id whose flag is exactly "1". */
  predicate AppliesToFee(c: Catalog, flags: map<nat, string>, code: string)
  {
    IdOf(c, code) != 0 && FlagOf(flags, IdOf(c, code)) == FlagOn
  }

  /** The discount one item's signup fee gets under the given cap rule; an item without a fee gets none. */
  function ItemFeeDiscount(rule: CapRule, kind: string, amount: real, item: CartItem): real
  {
    match item.signupFee
    case None => 0.0
    case Some(fee) =>
      if rule == CapEveryType then CappedFeeDiscount(kind, amount, fee) else OrderFeeDiscount(kind, amount, fee)
  }

  /** The fee discounts of one discount over all items, summed in cart order. */
  function ItemsTotal(rule: CapRule, kind: string, amount: real, items: seq<CartItem>): real
  {
    if items == [] then 0.0
    else ItemsTotal(rule, kind, amount, items[..|items| - 1]) + ItemFeeDiscount(rule, kind, amount, items[|items| - 1])
  }

  /** What one discount code adds: nothing unless it resolves and its flag is "1". */
  function CodeTotal(rule: CapRule, c: Catalog, flags: map<nat, string>, code: string, items: seq<CartItem>): real
  {
    if AppliesToFee(c, flags, code) then
      ItemsTotal(rule, KindOf(c, IdOf(c, code)), AmountOf(c, IdOf(c, code)), items)
    else 0.0
  }

  /** The signup-fee discount of all codes over all items, summed in the order the loops visit them. */
  function FeeDiscountTotal(rule: CapRule, c: Catalog, flags: map<nat, string>, codes: seq<string>, items: seq<CartItem>): real
  {
    if codes == [] then 0.0
    else FeeDiscountTotal(rule, c, flags, codes[..|codes| - 1], items) + CodeTotal(rule, c, flags, codes[|codes| - 1], items)
  }

  /** The sum of the signup fees present in the cart. */
  function FeeSum(items: seq<CartItem>): real
  {
    if items == [] then 0.0
    else FeeSum(items[..|items| - 1]) + (match items[|items| - 1].signupFee case None => 0.0 case Some(fee) => fee)
  }

  /** The number of codes that resolve and are flagged. */
  function AppliedCount(c: Catalog, flags: map<nat, string>, codes: seq<string>): nat
  {
    if codes == [] then 0
    else AppliedCount(c, flags, codes[..|codes| - 1]) + (if AppliesToFee(c, flags, codes[|codes| - 1]) then 1 else 0)
  }

  /** The codes that resolve and are flagged, in their order. */
  function AppliedCodes(c: Catalog, flags: map<nat, string>, codes: seq<string>): (r: seq<string>)
    ensures forall k :: 0 <= k < |r| ==> AppliesToFee(c, flags, r[k])
    ensures forall x :: x in r <==> x in codes && AppliesToFee(c, flags, x)
    ensures |r| == AppliedCount(c, flags, codes)
  {
    if codes == [] then []
    else AppliedCodes(c, flags, codes[..|codes| - 1]) + (if AppliesToFee(c, flags, codes[|codes| - 1]) then [codes[|codes| - 1]] else [])
  }

  /** The number of items that carry a signup fee. */
  function FeeCount(items: seq<CartItem>): nat
  {
    if items == [] then 0
    else FeeCount(items[..|items| - 1]) + (if items[|items| - 1].signupFee.Some? then 1 else 0)
  }

  /** The items that carry a signup fee, in cart order. */
  function FeeItems(items: seq<CartItem>): (r: seq<CartItem>)
    ensures forall k :: 0 <= k < |r| ==> r[k].signupFee.Some?
    ensures forall x :: x in r <==> x in items && x.signupFee.Some?
    ensures |r| == FeeCount(items) <= |items|
  {
    if items == [] then []
    else FeeItems(items[..|items| - 1]) + (if items[|items| - 1].signupFee.Some? then [items[|items| - 1]] else [])
  }

  predicate NonNegativeFees(items: seq<CartItem>)
  {
    forall k :: 0 <= k < |items| ==> (items[k].signupFee.Some? ==> 0.0 <= items[k].signupFee.value)
  }

  predicate NonNegativeAmounts(c: Catalog)
  {
    forall id :: id in c.amounts ==> 0.0 <= c.amounts[id]
  }

  /** Every percentage discount in the catalogue is at most 100%. */
  predicate PercentsWithinHundred(c: Catalog)
  {
    forall id :: id in c.amounts && KindOf(c, id) == PercentType ==> c.amounts[id] <= 100.0
  }

  // ---------------------------------------------------------------------
  // The cart total (every per-item discount capped at its fee)
  // ---------------------------------------------------------------------

  /** Each item adds at most its own fee, so one discount adds at most the sum of the fees. */
  lemma {:induction false} ItemsTotalAtMostFees(kind: string, amount: real, items: seq<CartItem>)
    ensures ItemsTotal(CapEveryType, kind, amount, items) <= FeeSum(items)
  {
    if items != [] {
      ItemsTotalAtMostFees(kind, amount, items[..|items| - 1]);
    }
  }

  /** `n` copies of `f` added up. */
  function Copies(n: nat, f: real): (r: real)
    ensures r == n as real * f
  {
    if n == 0 then 0.0 else Copies(n - 1, f) + f
  }

  /** All codes together add at most the sum of the fees once per applied code. */
  lemma {:induction false} CartTotalAtMostFees(c: Catalog, flags: map<nat, string>, codes: seq<string>, items: seq<CartItem>)
    ensures FeeDiscountTotal(CapEveryType, c, flags, codes, items) <= Copies(AppliedCount(c, flags, codes), FeeSum(items))
  {
    if codes != [] {
      var init, last := codes[..|codes| - 1], codes[|codes| - 1];
      CartTotalAtMostFees(c, flags, init, items);
      if AppliesToFee(c, flags, last) {
        ItemsTotalAtMostFees(KindOf(c, IdOf(c, last)), AmountOf(c, IdOf(c, last)), items);
      }
    }
  }

  /** With non-negative amounts and fees no item takes anything back. */
  lemma {:induction false} ItemsTotalNonNegative(rule: CapRule, kind: string, amount: real, items: seq<CartItem>)
    requires 0.0 <= amount && NonNegativeFees(items)
    ensures 0.0 <= ItemsTotal(rule, kind, amount, items)
  {
    if items != [] {
      var init, last := items[..|items| - 1], items[|items| - 1];
      assert NonNegativeFees(init) by {
        forall k | 0 <= k < |init| ensures init[k] == items[k] { }
      }
      ItemsTotalNonNegative(rule, kind, amount, init);
      if last.signupFee.Some? {
        assert 0.0 <= last.signupFee.value by { assert last == items[|items| - 1]; }
        CartRuleWithinOrderRule(kind, amount, last.signupFee.value);
      }
    }
  }

  /** With non-negative amounts and fees the signup-fee discount total is non-negative, under either cap rule. */
  lemma {:induction false} FeeDiscountTotalNonNegative(rule: CapRule, c: Catalog, flags: map<nat, string>, codes: seq<string>, items: seq<CartItem>)
    requires NonNegativeAmounts(c) && NonNegativeFees(items)
    ensures 0.0 <= FeeDiscountTotal(rule, c, flags, codes, items)
  {
    if codes != [] {
      var init, last := codes[..|codes| - 1], codes[|codes| - 1];
      FeeDiscountTotalNonNegative(rule, c, flags, init, items);
      if AppliesToFee(c, flags, last) {
        ItemsTotalNonNegative(rule, KindOf(c, IdOf(c, last)), AmountOf(c, IdOf(c, last)), items);
      }
    }
  }

  /** Items without a signup fee contribute nothing: the total over the cart equals the total over its fee items. */
  lemma {:induction false} FeeItemsSuffice(rule: CapRule, kind: string, amount: real, items: seq<CartItem>)
    ensures ItemsTotal(rule, kind, amount, items) == ItemsTotal(rule, kind, amount, FeeItems(items))
  {
    if items != [] {
      var init, last := items[..|items| - 1], items[|items| - 1];
      FeeItemsSuffice(rule, kind, amount, init);
      var f := FeeItems(init);
      assert ItemsTotal(rule, kind, amount, items) == ItemsTotal(rule, kind, amount, f) + ItemFeeDiscount(rule, kind, amount, last);
      if last.signupFee.Some? {
        assert FeeItems(items) == f + [last] by {
          assert items[..|items| - 1] == init;
        }
        ItemsTotalAppend(rule, kind, amount, f, last);
      } else {
        assert FeeItems(items) == f by {
          assert items[..|items| - 1] == init;
          assert f + [] == f;
        }
      }
    }
  }

  lemma ItemsTotalAppend(rule: CapRule, kind: string, amount: real, s: seq<CartItem>, x: CartItem)
    ensures ItemsTotal(rule, kind, amount, s + [x]) == ItemsTotal(rule, kind, amount, s) + ItemFeeDiscount(rule, kind, amount, x)
  {
    assert (s + [x])[..|s|] == s;
  }

  lemma FeeDiscountTotalAppend(rule: CapRule, c: Catalog, flags: map<nat, string>, s: seq<string>, x: string, items: seq<CartItem>)
    ensures FeeDiscountTotal(rule, c, flags, s + [x], items) == FeeDiscountTotal(rule, c, flags, s, items) + CodeTotal(rule, c, flags, x, items)
  {
    assert (s + [x])[..|s|] == s;
  }

  /** Codes that do not resolve or are not flagged contribute nothing: the total equals the total over the applied codes. */
  lemma {:induction false} AppliedCodesSuffice(rule: CapRule, c: Catalog, flags: map<nat, string>, codes: seq<string>, items: seq<CartItem>)
    ensures FeeDiscountTotal(rule, c, flags, codes, items) == FeeDiscountTotal(rule, c, flags, AppliedCodes(c, flags, codes), items)
  {
    if codes != [] {
      var init, last := codes[..|codes| - 1], codes[|codes| - 1];
      AppliedCodesSuffice(rule, c, flags, init, items);
      var a := AppliedCodes(c, flags, init);
      if AppliesToFee(c, flags, last) {
        assert AppliedCodes(c, flags, codes) == a + [last];
        FeeDiscountTotalAppend(rule, c, flags, a, last, items);
      } else {
        assert AppliedCodes(c, flags, codes) == a + [] == a;
      }
    }
  }

  // ---------------------------------------------------------------------
  // Order total against cart total
  // ---------------------------------------------------------------------

  /** The order rule never takes less off than the cart rule, item by item, so also in total. */
  lemma {:induction false} OrderItemsAtLeastCart(kind: string, amount: real, items: seq<CartItem>)
    ensures ItemsTotal(CapEveryType, kind, amount, items) <= ItemsTotal(CapFlatOnly, kind, amount, items)
  {
    if items != [] {
      OrderItemsAtLeastCart(kind, amount, items[..|items| - 1]);
    }
  }

  lemma {:induction false} OrderAtLeastCart(c: Catalog, flags: map<nat, string>, codes: seq<string>, items: seq<CartItem>)
    ensures FeeDiscountTotal(CapEveryType, c, flags, codes, items) <= FeeDiscountTotal(CapFlatOnly, c, flags, codes, items)
  {
    if codes != [] {
      var init, last := codes[..|codes| - 1], codes[|codes| - 1];
      OrderAtLeastCart(c, flags, init, items);
      if AppliesToFee(c, flags, last) {
        OrderItemsAtLeastCart(KindOf(c, IdOf(c, last)), AmountOf(c, IdOf(c, last)), items);
      }
    }
  }

  lemma {:induction false} OrderItemsMatchCart(kind: string, amount: real, items: seq<CartItem>)
    requires NonNegativeFees(items)
    requires kind == PercentType ==> amount <= 100.0
    ensures ItemsTotal(CapEveryType, kind, amount, items) == ItemsTotal(CapFlatOnly, kind, amount, items)
  {
    if items != [] {
      var init, last := items[..|items| - 1], items[|items| - 1];
      assert NonNegativeFees(init) by {
        forall k | 0 <= k < |init| ensures init[k] == items[k] { }
      }
      OrderItemsMatchCart(kind, amount, init);
      if last.signupFee.Some? {
        assert 0.0 <= last.signupFee.value by { assert last == items[|items| - 1]; }
        OrderMatchesCartWithinHundred(kind, amount, last.signupFee.value);
      }
    }
  }

  /**
   * When every percentage discount is at most 100% (negative ones included)
   * and every fee is non-negative, the order total equals the cart total; only
   * a percentage above 100% makes them differ.
   */
  lemma {:induction false} OrderMatchesCart(c: Catalog, flags: map<nat, string>, codes: seq<string>, items: seq<CartItem>)
    requires PercentsWithinHundred(c) && NonNegativeFees(items)
    ensures FeeDiscountTotal(CapEveryType, c, flags, codes, items) == FeeDiscountTotal(CapFlatOnly, c, flags, codes, items)
  {
    if codes != [] {
      var init, last := codes[..|codes| - 1], codes[|codes| - 1];
      OrderMatchesCart(c, flags, init, items);
      if AppliesToFee(c, flags, last) {
        var id := IdOf(c, last);
        OrderItemsMatchCart(KindOf(c, id), AmountOf(c, id), items);
      }
    }
  }

  /** A concrete cart where the two totals differ: one 150% discount on a single signup fee of 100. */
  lemma OrderExceedsCartExample()
    ensures var c := Catalog(map["OVER100" := 7], map[7 := PercentType], map[7 := 150.0]);
            var items := [CartItem(0.0, Some(100.0))];
            FeeDiscountTotal(CapEveryType, c, map[7 := FlagOn], ["OVER100"], items) == 100.0 &&
            FeeDiscountTotal(CapFlatOnly, c, map[7 := FlagOn], ["OVER100"], items) == 150.0
  {
  }

  // ---------------------------------------------------------------------
  // The cart's discount line
  // ---------------------------------------------------------------------

  /** The recurring part shown for one item: the discount applied to a positive price, capped at that price. */
  function RecurringPart(kind: string, amount: real, price: real): (r: real)
    ensures 0.0 < price ==> r <= price && r <= Raw(kind, amount, price) && (r == price || r == Raw(kind, amount, price))
    ensures price <= 0.0 ==> r == 0.0
    ensures 0.0 < price && 0.0 <= amount ==> 0.0 <= r
  {
    if 0.0 < price then Min(Raw(kind, amount, price), price) else 0.0
  }

  /**
   * What one item adds to a discount's displayed total. The id is used even
   * when it is 0; its type and amount are then the host's answers for id 0,
   * and its flag reads as "".
   */
  function DisplayItem(c: Catalog, flags: map<nat, string>, id: nat, item: CartItem): real
  {
    var kind, amount := KindOf(c, id), AmountOf(c, id);
    RecurringPart(kind, amount, item.price) +
    (match item.signupFee
     case None => 0.0
     case Some(fee) => if FlagOf(flags, id) == FlagOn then CappedFeeDiscount(kind, amount, fee) else 0.0)
  }

  /** The total displayed next to one discount code. */
  function DisplayTotal(c: Catalog, flags: map<nat, string>, code: string, items: seq<CartItem>): real
  {
    if items == [] then 0.0
    else DisplayTotal(c, flags, code, items[..|items| - 1]) + DisplayItem(c, flags, IdOf(c, code), items[|items| - 1])
  }

  /** The recurring parts of one discount over all items. */
  function RecurringTotal(kind: string, amount: real, items: seq<CartItem>): real
  {
    if items == [] then 0.0
    else RecurringTotal(kind, amount, items[..|items| - 1]) + RecurringPart(kind, amount, items[|items| - 1].price)
  }

  /** The sum of the positive item prices. */
  function PositivePriceSum(items: seq<CartItem>): real
  {
    if items == [] then 0.0
    else PositivePriceSum(items[..|items| - 1]) + Max(0.0, items[|items| - 1].price)
  }

  /**
   * The displayed total splits into the recurring parts and, when the flag of
   * the code's id is "1", the same capped fee discounts the cart rule adds.
   */
  lemma {:induction false} DisplayTotalSplits(c: Catalog, flags: map<nat, string>, code: string, items: seq<CartItem>)
    ensures var id := IdOf(c, code);
            DisplayTotal(c, flags, code, items) ==
              RecurringTotal(KindOf(c, id), AmountOf(c, id), items) +
              (if FlagOf(flags, id) == FlagOn then ItemsTotal(CapEveryType, KindOf(c, id), AmountOf(c, id), items) else 0.0)
  {
    if items != [] {
      DisplayTotalSplits(c, flags, code, items[..|items| - 1]);
    }
  }

  /**
   * The fee part of the displayed total is exactly what the cart filter adds
   * for that code. For a code that does not resolve both are zero, since the
   * flag of id 0 reads as ""; only the recurring part is shown for it.
   */
  lemma DisplayFeePartMatchesCart(c: Catalog, flags: map<nat, string>, code: string, items: seq<CartItem>)
    ensures var id := IdOf(c, code);
            DisplayTotal(c, flags, code, items) ==
              RecurringTotal(KindOf(c, id), AmountOf(c, id), items) + CodeTotal(CapEveryType, c, flags, code, items)
    ensures IdOf(c, code) == 0 ==> CodeTotal(CapEveryType, c, flags, code, items) == 0.0
  {
    DisplayTotalSplits(c, flags, code, items);
  }

  /** Each recurring part is within its price and each fee part within its fee. */
  lemma {:induction false} DisplayTotalBounded(c: Catalog, flags: map<nat, string>, code: string, items: seq<CartItem>)
    requires NonNegativeFees(items)
    ensures DisplayTotal(c, flags, code, items) <= PositivePriceSum(items) + FeeSum(items)
  {
    if items != [] {
      var init, last := items[..|items| - 1], items[|items| - 1];
      assert NonNegativeFees(init) by {
        forall k | 0 <= k < |init| ensures init[k] == items[k] { }
      }
      DisplayTotalBounded(c, flags, code, init);
      if last.signupFee.Some? {
        assert 0.0 <= last.signupFee.value by { assert last == items[|items| - 1]; }
      }
    }
  }
}
