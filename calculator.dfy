/** The client-side mirror of the price calculation in the calculator page: the freight
    tiers, `calculate`, the discounted profit of a discount amount, the discount that
    achieves a profit reduction by percentage, and the quick-percentage buttons. Unlike the
    server, the client reports its maximum discount unclamped. The React state the page
    keeps (`result`, `discountAmount`) is the class `CalculatorForm`. */
module Calculator {
  import opened Wrappers
  import CalculateRoute

  const FeeRate: real := 0.006
  const NetRate: real := 0.994

  /** `calculateSupplierFreight`. */
  function SupplierFreight(quantity: int): real {
    if quantity == 1 then 3.0
    else if quantity == 2 then 5.0
    else 0.0
  }

  /** `calculateCustomerFreight`. */
  function CustomerFreight(quantity: int, single: real, multiple: real): real {
    if quantity == 1 then single else quantity as real * multiple
  }

  /** The form's five fields after `parseFloat`/`parseInt`: `None` where the text does not
      parse. */
  datatype FormValues = FormValues(
    supplierPrice: Option<real>,
    quantity: Option<int>,
    singleFreight: Option<real>,
    multipleFreight: Option<real>,
    shopPrice: Option<real>)

  /** `parseFloat(text) || 0`. */
  function OrZero(x: Option<real>): real {
    x.GetOr(0.0)
  }

  /** `parseInt(text) || 1`: a quantity that does not parse, or parses as 0, counts as 1. */
  function QuantityOrOne(x: Option<int>): (q: int)
    ensures q != 0
    ensures x.None? || x.value == 0 ==> q == 1
    ensures x.Some? && x.value != 0 ==> q == x.value
  {
    if x.Some? && x.value != 0 then x.value else 1
  }

  /** What `calculate` stores in `result`. */
  datatype CalcResult = CalcResult(
    totalCost: real,
    supplierFreight: real,
    customerFreight: real,
    customerPayment: real,
    fee: real,
    totalExpense: real,
    profit: real,
    maxDiscount: real)

  /** The arithmetic of `calculate` on parsed numbers. */
  function Quote(supplierPrice: real, quantity: int, singleFreight: real, multipleFreight: real, shopPrice: real): (r: CalcResult)
    ensures r.totalExpense == SupplierExpense(r) + r.fee
    ensures r.profit == r.customerPayment - SupplierExpense(r) - r.customerPayment * FeeRate
    ensures r.maxDiscount == r.profit / NetRate
    ensures Consistent(r)
  {
    var totalCost := supplierPrice * quantity as real;
    var supplierFreight := SupplierFreight(quantity);
    var customerFreight := CustomerFreight(quantity, singleFreight, multipleFreight);
    var customerPayment := shopPrice * quantity as real + customerFreight;
    var fee := customerPayment * FeeRate;
    var supplierExpense := totalCost + supplierFreight;
    var totalExpense := supplierExpense + fee;
    var profit := customerPayment - totalExpense;
    var maxDiscount := customerPayment - supplierExpense / NetRate;
    CalcResult(totalCost, supplierFreight, customerFreight, customerPayment, fee, totalExpense, profit, maxDiscount)
  }

  /** `calculate`: read the form, then compute. */
  function CalculateResult(form: FormValues): CalcResult {
    Quote(OrZero(form.supplierPrice), QuantityOrOne(form.quantity), OrZero(form.singleFreight),
          OrZero(form.multipleFreight), OrZero(form.shopPrice))
  }

  /** The relations between the fields that the break-even derivation rests on: the profit
      is what is kept of the payment after the fee, less the supplier expense, and the
      maximum discount is the payment less the supplier expense grossed up by the fee. */
  predicate Consistent(r: CalcResult) {
    && r.profit == r.customerPayment * NetRate - SupplierExpense(r)
    && r.maxDiscount == r.customerPayment - SupplierExpense(r) / NetRate
  }

  /** What is owed to the supply side: goods plus supplier freight. */
  function SupplierExpense(r: CalcResult): real {
    r.totalCost + r.supplierFreight
  }

  /** The profit if the customer is given discount `d`: the discounted payment minus its fee
      minus the supplier expense (`getDiscountedProfit`). */
  function DiscountedProfit(r: CalcResult, d: real): (p: real)
    ensures p == (r.customerPayment - d) * NetRate - SupplierExpense(r)
  {
    var discountedPayment := r.customerPayment - d;
    var discountedFee := discountedPayment * FeeRate;
    discountedPayment - discountedFee - SupplierExpense(r)
  }

  /** The discount that lowers profit by `percentage` percent (`applyDiscountPercentage` and
      the quick buttons, before rounding to cents). */
  function NeededDiscount(r: CalcResult, percentage: real): real {
    r.customerPayment - (SupplierExpense(r) + ExpectedProfit(r, percentage)) / NetRate
  }

  /** The profit aimed at: the profit less `percentage` percent of it. */
  function ExpectedProfit(r: CalcResult, percentage: real): (p: real)
    ensures p == r.profit * (1.0 - percentage / 100.0)
  {
    var expectedDecrease := r.profit * (percentage / 100.0);
    r.profit - expectedDecrease
  }

  /** A quick-percentage button is disabled when its discount exceeds the maximum. */
  predicate IsOverLimit(r: CalcResult, percentage: real) {
    NeededDiscount(r, percentage) > r.maxDiscount
  }

  /** The percentages offered as quick buttons. */
  const QuickPercentages: seq<real> := [5.0, 10.0, 15.0, 20.0, 25.0, 30.0]

  /** The maximum discount is displayed only when positive. */
  predicate ShowsMaxDiscount(r: CalcResult) {
    r.maxDiscount > 0.0
  }

  /** With no discount the discounted profit is the profit. */
  lemma NoDiscountKeepsProfit(r: CalcResult)
    requires Consistent(r)
    ensures DiscountedProfit(r, 0.0) == r.profit
  {
  }

  /** A larger discount always means strictly less profit. */
  lemma DiscountedProfitDecreasing(r: CalcResult, d1: real, d2: real)
    requires d1 < d2
    ensures DiscountedProfit(r, d2) < DiscountedProfit(r, d1)
  {
  }

  /** Giving exactly the maximum discount leaves zero profit. */
  lemma MaxDiscountBreaksEven(r: CalcResult)
    requires Consistent(r)
    ensures DiscountedProfit(r, r.maxDiscount) == 0.0
  {
  }

  /** A discount makes a loss exactly when it is larger than the maximum discount. */
  lemma LossIffBeyondMaxDiscount(r: CalcResult, d: real)
    requires Consistent(r)
    ensures DiscountedProfit(r, d) < 0.0 <==> d > r.maxDiscount
  {
  }

  /** The discount computed for `percentage` reduces the profit by exactly that percentage. */
  lemma PercentageRoundTrip(r: CalcResult, percentage: real)
    ensures DiscountedProfit(r, NeededDiscount(r, percentage)) == r.profit * (1.0 - percentage / 100.0)
  {
    var target := ExpectedProfit(r, percentage);
    calc {
      DiscountedProfit(r, NeededDiscount(r, percentage));
      (r.customerPayment - NeededDiscount(r, percentage)) * NetRate - SupplierExpense(r);
      ((SupplierExpense(r) + target) / NetRate) * NetRate - SupplierExpense(r);
      target;
    }
  }

  /** A quick button is disabled exactly when the profit left after the reduction is negative. */
  lemma OverLimitIffNegativeShare(r: CalcResult, percentage: real)
    requires Consistent(r)
    ensures IsOverLimit(r, percentage) <==> ExpectedProfit(r, percentage) < 0.0
  {
    var share := ExpectedProfit(r, percentage);
    assert NeededDiscount(r, percentage) - r.maxDiscount == -share / NetRate;
    assert -share / NetRate > 0.0 <==> share < 0.0;
  }

  /** For any percentage below 100, a quick button is disabled exactly when the order already
      runs at a loss. */
  lemma OverLimitIffLoss(r: CalcResult, percentage: real)
    requires Consistent(r) && percentage < 100.0
    ensures IsOverLimit(r, percentage) <==> r.profit < 0.0
  {
    OverLimitIffNegativeShare(r, percentage);
    var f := 1.0 - percentage / 100.0;
    assert ExpectedProfit(r, percentage) == r.profit * f;
    if r.profit < 0.0 {
      assert r.profit * f < 0.0;
    } else {
      assert r.profit * f >= 0.0;
    }
  }

  /** All six quick buttons are disabled exactly when the order runs at a loss. */
  lemma QuickButtonsDisabledIffLoss(r: CalcResult)
    requires Consistent(r)
    ensures forall k :: 0 <= k < |QuickPercentages| ==> (IsOverLimit(r, QuickPercentages[k]) <==> r.profit < 0.0)
  {
    forall k | 0 <= k < |QuickPercentages|
      ensures IsOverLimit(r, QuickPercentages[k]) <==> r.profit < 0.0
    {
      OverLimitIffLoss(r, QuickPercentages[k]);
    }
  }

  /** A loss-making order: the client reports a negative maximum discount and so does not
      display it (the server reports 0 for the same order). */
  lemma UnclampedMaxDiscountExample()
    ensures var r := Quote(100.0, 1, 5.0, 5.0, 1.0);
      r.maxDiscount < 0.0 && !ShowsMaxDiscount(r)
    ensures CalculateRoute.Compute(CalculateRoute.PricingInput(100.0, 1, 5.0, 5.0, 1.0)).maxDiscount == 0.0
  {
  }

  /** On the same valid numbers the client computes what the server computes, field by field,
      except that the server clamps the maximum discount at zero. */
  lemma ClientMatchesServer(input: CalculateRoute.PricingInput)
    requires CalculateRoute.ValidInput(input)
    ensures var q := CalculateRoute.Compute(input);
      var r := CalculateResult(FormValues(Some(input.supplyPrice), Some(input.quantity), Some(input.singleShipping),
                                    Some(input.multiShipping), Some(input.shopPrice)));
      && r.totalCost == q.goodsCost
      && r.supplierFreight == q.supplierShipping
      && r.customerFreight == q.customerShipping
      && r.customerPayment == q.customerTotal
      && r.fee == q.fee
      && r.totalExpense == q.totalExpense
      && r.profit == q.profit
      && q.maxDiscount == CalculateRoute.Max(0.0, r.maxDiscount)
  {
  }

  /** The page's calculator state: the last result and the parsed discount field. */
  class CalculatorForm {
    var result: Option<CalcResult>
    /** `parseFloat(discountAmount)`; `None` when the field is empty or does not parse. */
    var discountAmount: Option<real>

    constructor ()
      ensures result == None && discountAmount == None
    {
      result := None;
      discountAmount := None;
    }

    /** `calculate`: replaces the result, leaves the discount field alone. */
    method Calculate(form: FormValues)
      modifies this
      ensures result == Some(CalculateResult(form))
      ensures discountAmount == old(discountAmount)
    {
      result := Some(CalculateResult(form));
    }

    /** Typing into the discount field. */
    method SetDiscountAmount(d: Option<real>)
      modifies this
      ensures discountAmount == d && result == old(result)
    {
      discountAmount := d;
    }

    /** `getDiscountedProfit`: nothing before a calculation; otherwise the profit left after the
        discount in the field (an empty field counts as no discount). */
    function GetDiscountedProfit(): (p: Option<real>)
      reads this
      ensures p.None? <==> result.None?
      ensures p.Some? ==> p.value == (result.value.customerPayment - OrZero(discountAmount)) * NetRate - SupplierExpense(result.value)
    {
      match result
      case None => None
      case Some(r) => Some(DiscountedProfit(r, OrZero(discountAmount)))
    }

    /** `applyDiscountPercentage`: puts the discount for `percentage` into the field, so that the
        displayed discounted profit is the profit reduced by that percentage. Nothing happens
        before a calculation. */
    method ApplyDiscountPercentage(percentage: real)
      modifies this
      ensures result == old(result)
      ensures old(result).None? ==> discountAmount == old(discountAmount)
      ensures old(result).Some? ==> discountAmount == Some(NeededDiscount(old(result).value, percentage))
      ensures old(result).Some? ==> GetDiscountedProfit() == Some(old(result).value.profit * (1.0 - percentage / 100.0))
    {
      if result.Some? {
        var r := result.value;
        discountAmount := Some(NeededDiscount(r, percentage));
        PercentageRoundTrip(r, percentage);
      }
    }
  }
}
