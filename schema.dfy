/** The product table's row type and the two validation schemas for inserting and updating
    products, with the price format they share: a decimal string with at most two decimals,
    or a number formatted with two decimals. */
module ProductSchema {
  import opened Wrappers
  import opened Json
  import opened TextRules

  // ---------------------------------------------------------------------------------------
  // The price format

  /** The test `/^\d+(\.\d{1,2})?$/`: a digit run, then nothing or a dot and one or two
      digits. */
  predicate IsPriceText(s: string) {
    var e := RunEnd(s, 0, Digits);
    && e >= 1
    && (e == |s| || (s[e] == '.' && 2 <= |s| - e <= 3 && AllDigits(s[e + 1..])))
  }

  /** `s` is a digit run of length `d`, a dot, and one or two digits. */
  predicate DigitsDotDigits(s: string, d: nat) {
    1 <= d && d + 2 <= |s| <= d + 3 && AllDigits(s[..d]) && s[d] == '.' && AllDigits(s[d + 1..])
  }

  /** The accepted prices are exactly "digits" and "digits.d" / "digits.dd". */
  lemma PriceTextShape(s: string)
    ensures IsPriceText(s) <==> AllDigits(s) || exists d :: DigitsDotDigits(s, d)
  {
    if IsPriceText(s) {
      PriceTextSplit(s);
    }
    if AllDigits(s) {
      assert RunEnd(s, 0, Digits) == |s|;
    }
    if d :| DigitsDotDigits(s, d) {
      DigitsDotDigitsIsPriceText(s, d);
    }
  }

  lemma PriceTextSplit(s: string)
    requires IsPriceText(s)
    ensures AllDigits(s) || DigitsDotDigits(s, RunEnd(s, 0, Digits))
  {
    var e := RunEnd(s, 0, Digits);
    if e < |s| {
      assert AllDigits(s[..e]);
    }
  }

  lemma DigitsDotDigitsIsPriceText(s: string, d: nat)
    requires DigitsDotDigits(s, d)
    ensures IsPriceText(s)
  {
    forall t | 0 <= t < d ensures IsDigit(s[t]) {
      assert s[..d][t] == s[t];
    }
    assert RunEnd(s, 0, Digits) == d;
  }

  /** An accepted price starts with a digit and has at most one dot. */
  lemma PriceTextIsDecimal(s: string)
    requires IsPriceText(s)
    ensures IsDecimalText(s)
  {
    var e := RunEnd(s, 0, Digits);
    if e < |s| {
      forall t | e + 1 <= t < |s| ensures IsDigit(s[t]) {
        assert s[e + 1..][t - e - 1] == s[t];
      }
    }
  }

  lemma PriceTextExamples()
    ensures IsPriceText("12") && IsPriceText("12.5") && IsPriceText("12.50")
    ensures !IsPriceText("12.") && !IsPriceText(".5") && !IsPriceText("1.234") && !IsPriceText("-1")
  {
    assert RunEnd("12", 0, Digits) == 2;
    assert RunEnd("12.5", 0, Digits) == 2;
    assert "12.5"[3..] == "5";
    assert RunEnd("12.50", 0, Digits) == 2;
    assert "12.50"[3..] == "50";
    assert RunEnd("12.", 0, Digits) == 2;
    assert RunEnd(".5", 0, Digits) == 0;
    assert RunEnd("1.234", 0, Digits) == 1;
    assert RunEnd("-1", 0, Digits) == 0;
  }

  // ---------------------------------------------------------------------------------------
  // Number formatting

  /** The number a string of decimal digits spells, most significant digit first. */
  function DigitsValue(s: string): nat
    requires AllInClass(s, Digits)
  {
    if s == [] then 0
    else
      assert forall t :: 0 <= t < |s| - 1 ==> s[..|s| - 1][t] == s[t];
      DigitsValue(s[..|s| - 1]) * 10 + ((s[|s| - 1] as int) - ('0' as int))
  }

  /** The decimal digits of `n`: they spell `n`, with no leading zero unless `n` is 0. */
  function DecimalDigits(n: nat): (r: string)
    ensures AllDigits(r)
    ensures DigitsValue(r) == n
    ensures r[0] == '0' ==> n == 0
  {
    var d := ['0' + (n % 10) as char];
    if n < 10 then d
    else
      var m := DecimalDigits(n / 10);
      assert (m + d)[..|m + d| - 1] == m;
      m + d
  }

  /** `x.toFixed(2)` on an exact value: the nearest multiple of 0.01 (ties away from zero),
      written with two decimals and a leading `-` when `x` is negative. */
  function FixedTwo(x: real): string {
    if x < 0.0 then "-" + FixedTwoOfNonNegative(-x) else FixedTwoOfNonNegative(x)
  }

  function FixedTwoOfNonNegative(x: real): (r: string)
    requires x >= 0.0
  {
    var n := (x * 100.0 + 0.5).Floor;
    var m := DecimalDigits(n as nat);
    var padded := if |m| < 3 then seq(3 - |m|, _ => '0') + m else m;
    padded[..|padded| - 2] + "." + padded[|padded| - 2..]
  }

  /** `toFixed(2)` of a non-negative number is an accepted price with exactly two decimals. */
  lemma FixedTwoIsPriceText(x: real)
    requires x >= 0.0
    ensures IsPriceText(FixedTwo(x))
    ensures var r := FixedTwo(x); |r| >= 4 && r[|r| - 3] == '.'
  {
    var n := (x * 100.0 + 0.5).Floor;
    var m := DecimalDigits(n as nat);
    var padded := if |m| < 3 then seq(3 - |m|, _ => '0') + m else m;
    assert AllDigits(padded) by {
      forall t | 0 <= t < |padded| ensures IsDigit(padded[t]) {
        if |m| < 3 && t >= 3 - |m| {
          assert padded[t] == m[t - (3 - |m|)];
        }
      }
    }
    var r := FixedTwo(x);
    var k := |padded| - 2;
    assert r == padded[..k] + "." + padded[k..];
    forall t | 0 <= t < k ensures IsDigit(r[t]) {
      assert r[t] == padded[t];
    }
    assert RunEnd(r, 0, Digits) == k by {
      assert r[k] == '.';
    }
    assert r[k + 1..] == padded[k..];
  }

  // ---------------------------------------------------------------------------------------
  // Schemas

  /** What zod reports for one failing field. */
  datatype IssueCode =
    | InvalidType   // not the expected kind of value
    | TooShort      // a name of length 0: 产品名称不能为空
    | TooLong       // a name over 255 characters: 产品名称不能超过255个字符
    | InvalidPrice  // neither a price string (必须是有效的数字格式（最多2位小数）) nor a number
  datatype Issue = Issue(path: string, code: IssueCode)

  /** `numericSchema`: a price string passes unchanged, a number is formatted by `toFixed(2)`. */
  function NumericText(v: JsValue): (r: Result<string, IssueCode>)
    ensures v.Str? ==> (r.Ok? <==> IsPriceText(v.s))
    ensures v.Str? && r.Ok? ==> r.value == v.s
    ensures !v.Str? && !v.Num? ==> r == Err(InvalidPrice)
  {
    match v
    case Str(s) => if IsPriceText(s) then Ok(s) else Err(InvalidPrice)
    case Num(n) => Ok(FixedTwo(n))
    case _ => Err(InvalidPrice)
  }

  /** The longest product name the schemas accept. */
  const MaxNameLength: nat := 255

  /** The name rule: a string of length 1 to 255. */
  function NameText(v: JsValue): (r: Result<string, IssueCode>)
    ensures r.Ok? <==> v.Str? && 1 <= |v.s| <= MaxNameLength
    ensures r.Ok? ==> r.value == v.s
  {
    if !v.Str? then Err(InvalidType)
    else if |v.s| < 1 then Err(TooShort)
    else if |v.s| > MaxNameLength then Err(TooLong)
    else Ok(v.s)
  }

  /** A shop price after validation: left out (`undefined`), `null`, or a price text. */
  datatype OptionalText = Absent | NullText | Text(s: string)

  /** The shop price rule: a price, the empty string (which becomes `undefined`),
      `undefined`, or `null`, tried in that order. */
  function ShopPriceText(v: JsValue): (r: Result<OptionalText, IssueCode>)
    ensures r.Ok? <==> v.Undefined? || v.Null? || v.Num? || (v.Str? && (v.s == "" || IsPriceText(v.s)))
    ensures v.Str? && v.s == "" ==> r == Ok(Absent)
    ensures v.Null? ==> r == Ok(NullText)
    ensures v.Str? && r.Ok? && v.s != "" ==> r == Ok(Text(v.s))
    ensures v.Undefined? ==> r == Ok(Absent)
    ensures v.Num? ==> r == Ok(Text(FixedTwo(v.n)))
  {
    match NumericText(v)
    case Ok(s) => Ok(Text(s))
    case Err(_) =>
      if v.Str? && v.s == "" then Ok(Absent)
      else if v.Undefined? then Ok(Absent)
      else if v.Null? then Ok(NullText)
      else Err(InvalidPrice)
  }

  /** A validated insert. */
  datatype InsertProduct = InsertProduct(name: string, supplierPrice: string, shopPrice: OptionalText)

  /** A validated update: `None` for a field that was not given. */
  datatype UpdateProduct = UpdateProduct(name: Option<string>, supplierPrice: Option<string>, shopPrice: OptionalText)

  /** The issues of field `key`, if its rule rejects it. */
  function IssuesOf<T>(key: string, r: Result<T, IssueCode>): seq<Issue> {
    if r.Err? then [Issue(key, r.error)] else []
  }

  /** `insertProductSchema.safeParse(v)`: an object whose three fields all pass, or every
      failing field's issue in field order. */
  function ParseInsert(v: JsValue): (r: Result<InsertProduct, seq<Issue>>)
    ensures !v.Obj? ==> r == Err([Issue("", InvalidType)])
    ensures r.Ok? <==>
      v.Obj? && NameText(Field(v, "name")).Ok? && NumericText(Field(v, "supplierPrice")).Ok?
      && ShopPriceText(Field(v, "shopPrice")).Ok?
    ensures r.Ok? ==>
      r.value.name == Field(v, "name").s
      && r.value.supplierPrice == NumericText(Field(v, "supplierPrice")).value
      && r.value.shopPrice == ShopPriceText(Field(v, "shopPrice")).value
    ensures r.Err? ==> |r.error| > 0
  {
    if !v.Obj? then Err([Issue("", InvalidType)])
    else
      var name := NameText(Field(v, "name"));
      var supplierPrice := NumericText(Field(v, "supplierPrice"));
      var shopPrice := ShopPriceText(Field(v, "shopPrice"));
      var issues := IssuesOf("name", name) + IssuesOf("supplierPrice", supplierPrice) + IssuesOf("shopPrice", shopPrice);
      if issues == [] then Ok(InsertProduct(name.value, supplierPrice.value, shopPrice.value))
      else Err(issues)
  }

  /** `updateProductSchema.safeParse(v)`: every field optional, a given field checked by the
      same rule as on insert. */
  function ParseUpdate(v: JsValue): (r: Result<UpdateProduct, seq<Issue>>)
    ensures !v.Obj? ==> r == Err([Issue("", InvalidType)])
    ensures r.Ok? <==>
      v.Obj?
      && (Field(v, "name").Undefined? || NameText(Field(v, "name")).Ok?)
      && (Field(v, "supplierPrice").Undefined? || NumericText(Field(v, "supplierPrice")).Ok?)
      && ShopPriceText(Field(v, "shopPrice")).Ok?
    ensures r.Ok? ==>
      (r.value.name.None? <==> Field(v, "name").Undefined?)
      && (r.value.supplierPrice.None? <==> Field(v, "supplierPrice").Undefined?)
      && (r.value.name.Some? ==> r.value.name.value == Field(v, "name").s)
      && (r.value.supplierPrice.Some? ==> r.value.supplierPrice == Some(NumericText(Field(v, "supplierPrice")).value))
      && r.value.shopPrice == ShopPriceText(Field(v, "shopPrice")).value
    ensures r.Err? ==> |r.error| > 0
  {
    if !v.Obj? then Err([Issue("", InvalidType)])
    else
      var nameIn := Field(v, "name");
      var priceIn := Field(v, "supplierPrice");
      var name: Result<Option<string>, IssueCode> :=
        if nameIn.Undefined? then Ok(None)
        else match NameText(nameIn) case Ok(s) => Ok(Some(s)) case Err(e) => Err(e);
      var supplierPrice: Result<Option<string>, IssueCode> :=
        if priceIn.Undefined? then Ok(None)
        else match NumericText(priceIn) case Ok(s) => Ok(Some(s)) case Err(e) => Err(e);
      var shopPrice := ShopPriceText(Field(v, "shopPrice"));
      var issues := IssuesOf("name", name) + IssuesOf("supplierPrice", supplierPrice) + IssuesOf("shopPrice", shopPrice);
      if issues == [] then Ok(UpdateProduct(name.value, supplierPrice.value, shopPrice.value))
      else Err(issues)
  }

  /** Anything the insert schema accepts, the update schema accepts too, with every field
      given. */
  lemma InsertImpliesUpdate(v: JsValue)
    requires ParseInsert(v).Ok?
    ensures ParseUpdate(v).Ok?
    ensures var i := ParseInsert(v).value; var u := ParseUpdate(v).value;
      u.name == Some(i.name) && u.supplierPrice == Some(i.supplierPrice) && u.shopPrice == i.shopPrice
  {
  }

  /** The two branches of the price rule disagree on negative values: the string "-1" is
      rejected while the number -1 is accepted and stored as "-1.00". */
  lemma NegativeNumberAccepted()
    ensures NumericText(Str("-1")).Err?
    ensures NumericText(Num(-1.0)) == Ok("-1.00")
  {
    assert RunEnd("-1", 0, Digits) == 0;
    assert (1.0 * 100.0 + 0.5).Floor == 100;
    assert DecimalDigits(1) == "1";
    assert DecimalDigits(10) == "10";
    assert DecimalDigits(100) == "100";
    var m := "100";
    assert m[..1] + "." + m[1..] == "1.00";
    assert FixedTwoOfNonNegative(1.0) == "1.00";
    assert FixedTwo(-1.0) == "-1.00";
  }

  /** A row of the products table. */
  datatype Product = Product(
    id: string, name: string, supplierPrice: string, shopPrice: Option<string>,
    createdAt: string, updatedAt: Option<string>)
}
