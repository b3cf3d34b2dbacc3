/** The server-side price calculation: request validation (`calculateSchema`) and the
    arithmetic of `POST /api/calculate`, from goods cost to the clamped maximum discount.
    Money is exact `real`; the 2-decimal `toFixed` formatting of the response is not part
    of this model. */
module CalculateRoute {
  import opened Wrappers
  import opened Json

  /** The payment processor's cut of what the customer pays: 0.6 %. */
  const FeeRate: real := 0.006
  /** What the seller keeps of each unit the customer pays: 1 − 0.006. */
  const NetRate: real := 0.994

  /** Default for a shipping fee the request leaves out. */
  const DefaultShipping: real := 5.0

  /** A request that passed validation. */
  datatype PricingInput = PricingInput(
    supplyPrice: real,
    quantity: int,
    singleShipping: real,
    multiShipping: real,
    shopPrice: real)

  predicate ValidInput(input: PricingInput) {
    && input.supplyPrice > 0.0
    && input.quantity > 0
    && input.singleShipping >= 0.0
    && input.multiShipping >= 0.0
    && input.shopPrice > 0.0
  }

  /** The first problem validation reports. Field order is the schema's. */
  datatype CalcError =
    | BodyNotObject                  // the body is not a JSON object
    | NotANumber(field: string)      // a required field is missing, or a field is not a number
    | SupplyPriceNotPositive
    | QuantityNotInteger
    | QuantityNotPositive
    | SingleShippingNegative
    | MultiShippingNegative
    | ShopPriceNotPositive

  predicate IsInteger(x: real) {
    x.Floor as real == x
  }

  // Per-field checks, each in the order zod runs them.

  function CheckPositive(v: JsValue, field: string, notPositive: CalcError): Result<real, CalcError> {
    if !v.Num? then Err(NotANumber(field))
    else if v.n > 0.0 then Ok(v.n)
    else Err(notPositive)
  }

  function CheckQuantity(v: JsValue): Result<int, CalcError> {
    if !v.Num? then Err(NotANumber("quantity"))
    else if !IsInteger(v.n) then Err(QuantityNotInteger)
    else if v.n <= 0.0 then Err(QuantityNotPositive)
    else Ok(v.n.Floor)
  }

  function CheckShipping(v: JsValue, field: string, negative: CalcError): Result<real, CalcError> {
    if v.Undefined? then Ok(DefaultShipping)
    else if !v.Num? then Err(NotANumber(field))
    else if v.n >= 0.0 then Ok(v.n)
    else Err(negative)
  }

  // What each field must be, stated on the JSON value itself.

  predicate PositiveNumber(v: JsValue) {
    v.Num? && v.n > 0.0
  }

  predicate PositiveInteger(v: JsValue) {
    v.Num? && v.n > 0.0 && IsInteger(v.n)
  }

  predicate ShippingFee(v: JsValue) {
    v.Undefined? || (v.Num? && v.n >= 0.0)
  }

  /** The shipping fee a valid field stands for. */
  function ShippingValue(v: JsValue): real
    requires ShippingFee(v)
  {
    if v.Undefined? then DefaultShipping else v.n
  }

  /** `calculateSchema.parse(body)`, reporting only the first issue. */
  function Validate(body: JsValue): (r: Result<PricingInput, CalcError>)
    ensures r.Ok? <==>
      && body.Obj?
      && PositiveNumber(Field(body, "supplyPrice"))
      && PositiveInteger(Field(body, "quantity"))
      && ShippingFee(Field(body, "singleShipping"))
      && ShippingFee(Field(body, "multiShipping"))
      && PositiveNumber(Field(body, "shopPrice"))
    ensures r.Ok? ==>
      && ValidInput(r.value)
      && r.value.supplyPrice == Field(body, "supplyPrice").n
      && r.value.quantity as real == Field(body, "quantity").n
      && r.value.singleShipping == ShippingValue(Field(body, "singleShipping"))
      && r.value.multiShipping == ShippingValue(Field(body, "multiShipping"))
      && r.value.shopPrice == Field(body, "shopPrice").n
    ensures r.Err? && !body.Obj? ==> r.error == BodyNotObject
  {
    if !body.Obj? then Err(BodyNotObject)
    else
      var supply := CheckPositive(Field(body, "supplyPrice"), "supplyPrice", SupplyPriceNotPositive);
      var quantity := CheckQuantity(Field(body, "quantity"));
      var single := CheckShipping(Field(body, "singleShipping"), "singleShipping", SingleShippingNegative);
      var multi := CheckShipping(Field(body, "multiShipping"), "multiShipping", MultiShippingNegative);
      var shop := CheckPositive(Field(body, "shopPrice"), "shopPrice", ShopPriceNotPositive);
      if supply.Err? then Err(supply.error)
      else if quantity.Err? then Err(quantity.error)
      else if single.Err? then Err(single.error)
      else if multi.Err? then Err(multi.error)
      else if shop.Err? then Err(shop.error)
      else Ok(PricingInput(supply.value, quantity.value, single.value, multi.value, shop.value))
  }

  /** The field an error is about, as a position in the schema's field order. */
  function ErrorField(e: CalcError): nat {
    match e
    case BodyNotObject => 0
    case NotANumber(f) =>
      if f == "supplyPrice" then 0 else if f == "quantity" then 1
      else if f == "singleShipping" then 2 else if f == "multiShipping" then 3 else 4
    case SupplyPriceNotPositive => 0
    case QuantityNotInteger | QuantityNotPositive => 1
    case SingleShippingNegative => 2
    case MultiShippingNegative => 3
    case ShopPriceNotPositive => 4
  }

  /** Whether field number `k` of an object body is acceptable. */
  predicate FieldValid(body: JsValue, k: nat)
    requires body.Obj?
  {
    if k == 0 then PositiveNumber(Field(body, "supplyPrice"))
    else if k == 1 then PositiveInteger(Field(body, "quantity"))
    else if k == 2 then ShippingFee(Field(body, "singleShipping"))
    else if k == 3 then ShippingFee(Field(body, "multiShipping"))
    else PositiveNumber(Field(body, "shopPrice"))
  }

  /** The reported error is about the first invalid field: that field is invalid and every
      field before it is valid. */
  lemma ErrorIsFirstInvalidField(body: JsValue)
    requires body.Obj? && Validate(body).Err?
    ensures !FieldValid(body, ErrorField(Validate(body).error))
    ensures forall k :: 0 <= k < ErrorField(Validate(body).error) ==> FieldValid(body, k)
  {
  }

  // The arithmetic of the handler.

  /** Supplier shipping: 3 for one unit, 5 for two, nothing from three on. */
  function SupplierShipping(quantity: int): real {
    if quantity == 1 then 3.0
    else if quantity == 2 then 5.0
    else 0.0
  }

  /** Customer shipping: the single fee for one unit, otherwise the per-unit fee times the quantity. */
  function CustomerShipping(quantity: int, singleShipping: real, multiShipping: real): real {
    if quantity == 1 then singleShipping else multiShipping * quantity as real
  }

  /** The numbers the handler reports (before formatting). */
  datatype Quote = Quote(
    quantity: int,
    goodsCost: real,
    supplierShipping: real,
    customerShipping: real,
    customerTotal: real,
    fee: real,
    totalExpense: real,
    profit: real,
    maxDiscount: real)

  function Max(a: real, b: real): real {
    if a >= b then a else b
  }

  /** The handler body from goods cost to the clamped maximum discount. */
  function Compute(input: PricingInput): (q: Quote)
    ensures q.quantity == input.quantity
    ensures q.profit == q.customerTotal - q.totalExpense
    ensures q.profit == NetRate * q.customerTotal - (q.goodsCost + q.supplierShipping)
    ensures q.maxDiscount >= 0.0
    ensures q.maxDiscount == Max(0.0, q.profit / NetRate)
    ensures q.maxDiscount > 0.0 <==> q.profit > 0.0
  {
    var goodsCost := input.supplyPrice * input.quantity as real;
    var supplierShipping := SupplierShipping(input.quantity);
    var customerShipping := CustomerShipping(input.quantity, input.singleShipping, input.multiShipping);
    var customerTotal := input.shopPrice * input.quantity as real + customerShipping;
    var fee := customerTotal * FeeRate;
    var totalExpense := goodsCost + supplierShipping + fee;
    var profit := customerTotal - totalExpense;
    var maxDiscount := customerTotal - (goodsCost + supplierShipping) / NetRate;
    Quote(input.quantity, goodsCost, supplierShipping, customerShipping, customerTotal,
          fee, totalExpense, profit, Max(0.0, maxDiscount))
  }

  /** The outcome of `POST /api/calculate` on a body that parsed as JSON. */
  datatype CalcResponse =
    | Quoted(quote: Quote)
    | Rejected(status: int, error: CalcError)

  function Post(body: JsValue): (r: CalcResponse)
    ensures r.Quoted? <==> Validate(body).Ok?
    ensures r.Quoted? ==> r.quote == Compute(Validate(body).value)
    ensures r.Rejected? ==> r.status == 400 && r.error == Validate(body).error
  {
    match Validate(body)
    case Ok(input) => Quoted(Compute(input))
    case Err(e) => Rejected(400, e)
  }

  /** The supplier tiers depend only on the quantity, and the fee falls from two units to three. */
  lemma SupplierShippingTiers(q: int)
    ensures SupplierShipping(1) == 3.0 && SupplierShipping(2) == 5.0
    ensures q >= 3 ==> SupplierShipping(q) == 0.0
    ensures SupplierShipping(3) < SupplierShipping(2)
  {
  }

  /** One unit pays the single fee whatever the per-unit fee is; more units pay the per-unit
      fee times the quantity whatever the single fee is. */
  lemma CustomerShippingSwitch(single: real, single': real, multi: real, multi': real, q: int)
    ensures CustomerShipping(1, single, multi) == CustomerShipping(1, single, multi') == single
    ensures q >= 2 ==> CustomerShipping(q, single, multi) == CustomerShipping(q, single', multi) == multi * q as real
  {
  }

  /** Every component of the quote, stated against the input. */
  lemma QuoteBreakdown(input: PricingInput)
    ensures var q := Compute(input);
      && q.goodsCost == input.supplyPrice * input.quantity as real
      && q.supplierShipping == SupplierShipping(input.quantity)
      && q.customerShipping == CustomerShipping(input.quantity, input.singleShipping, input.multiShipping)
      && q.customerTotal == input.shopPrice * input.quantity as real + q.customerShipping
      && q.fee == q.customerTotal * FeeRate
      && q.totalExpense == q.goodsCost + q.supplierShipping + q.fee
  {
  }

  /** Offering the reported maximum discount, whenever it is positive, leaves exactly zero
      profit: (customerTotal − maxDiscount) × 0.994 − (goodsCost + supplierShipping) = 0. */
  lemma MaxDiscountBreaksEven(input: PricingInput)
    requires Compute(input).profit > 0.0
    ensures var q := Compute(input);
      (q.customerTotal - q.maxDiscount) * NetRate - (q.goodsCost + q.supplierShipping) == 0.0
  {
  }

  /** A single-unit order: supply 10, shipping 5/5, shop price 20. */
  lemma SingleUnitExample()
    ensures var q := Compute(PricingInput(10.0, 1, 5.0, 5.0, 20.0));
      && q.goodsCost == 10.0 && q.supplierShipping == 3.0 && q.customerShipping == 5.0
      && q.customerTotal == 25.0 && q.fee == 0.15 && q.totalExpense == 13.15 && q.profit == 11.85
      && q.maxDiscount == 11.85 / 0.994
      && 11.92 < q.maxDiscount < 11.925
  {
  }

  /** Three units of the same product: no supplier shipping, per-unit customer shipping. */
  lemma ThreeUnitExample()
    ensures var q := Compute(PricingInput(10.0, 3, 5.0, 5.0, 20.0));
      && q.goodsCost == 30.0 && q.supplierShipping == 0.0 && q.customerShipping == 15.0
      && q.customerTotal == 75.0 && q.fee == 0.45 && q.totalExpense == 30.45 && q.profit == 44.55
  {
  }

  /** A body that leaves out both shipping fees is priced with 5 for each. */
  lemma MissingShippingDefaultsToFive(supply: real, quantity: nat, shop: real)
    requires supply > 0.0 && quantity > 0 && shop > 0.0
    ensures var body := Obj(map["supplyPrice" := Num(supply), "quantity" := Num(quantity as real),
                                "shopPrice" := Num(shop)]);
      Validate(body) == Ok(PricingInput(supply, quantity, 5.0, 5.0, shop))
  {
    var body := Obj(map["supplyPrice" := Num(supply), "quantity" := Num(quantity as real),
                        "shopPrice" := Num(shop)]);
    assert "singleShipping" !in body.fields && "multiShipping" !in body.fields;
    assert (quantity as real).Floor == quantity;
  }
}
