/** The product import route: it takes an uploaded JSON file holding an array of products,
    keeps the items that look like products, and inserts them one by one, counting the
    inserts that succeed and those that fail. */
module ProductImport {
  import opened Wrappers
  import opened Json
  import opened TextRules
  import opened ProductSchema

  /** `validateProduct`: a truthy item whose `name` and `supplierPrice` are strings that are
      not blank. */
  predicate ValidProduct(v: JsValue) {
    && Truthy(v)
    && Field(v, "name").Str?
    && Field(v, "supplierPrice").Str?
    && Trim(Field(v, "name").s) != ""
    && Trim(Field(v, "supplierPrice").s) != ""
  }

  /** Only objects pass: `name` cannot be read from anything else. */
  lemma ValidProductIsObject(v: JsValue)
    requires ValidProduct(v)
    ensures v.Obj? && "name" in v.fields && "supplierPrice" in v.fields
  {
  }

  /** `items.filter(validateProduct)`. */
  function ValidItems(items: seq<JsValue>): (r: seq<JsValue>)
    ensures |r| <= |items|
    ensures forall k :: 0 <= k < |r| ==> ValidProduct(r[k])
    ensures forall v :: v in r <==> v in items && ValidProduct(v)
  {
    if items == [] then []
    else ValidItems(items[..|items| - 1]) + (if ValidProduct(items[|items| - 1]) then [items[|items| - 1]] else [])
  }

  /** Filtering keeps the order of the items: it distributes over concatenation. */
  lemma {:induction false} ValidItemsAppend(a: seq<JsValue>, b: seq<JsValue>)
    ensures ValidItems(a + b) == ValidItems(a) + ValidItems(b)
    decreases |b|
  {
    if b == [] {
      assert a + b == a;
    } else {
      var c := b[..|b| - 1];
      assert (a + b)[..|a + b| - 1] == a + c;
      assert (a + b)[|a + b| - 1] == b[|b| - 1];
      ValidItemsAppend(a, c);
    }
  }

  /** Why one insert failed. */
  datatype FailReason =
    | ShopPriceNotString   // a truthy `shopPrice` that is not a string has no `trim`
    | StorageFailed        // the storage call threw

  datatype Failure = Failure(product: JsValue, reason: FailReason)

  /** The data handed to the storage for a valid item: the trimmed name and supplier price,
      and the trimmed shop price when it is truthy. */
  function InsertData(v: JsValue): (r: Result<InsertProduct, FailReason>)
    requires ValidProduct(v)
    ensures r.Err? <==> Truthy(Field(v, "shopPrice")) && !Field(v, "shopPrice").Str?
    ensures r.Ok? ==> r.value.name == Trim(Field(v, "name").s) && r.value.supplierPrice == Trim(Field(v, "supplierPrice").s)
    ensures r.Ok? ==> (r.value.shopPrice.Absent? <==> !Truthy(Field(v, "shopPrice")))
    ensures r.Ok? && !r.value.shopPrice.Absent? ==> r.value.shopPrice == Text(Trim(Field(v, "shopPrice").s))
  {
    var shopPrice := Field(v, "shopPrice");
    if Truthy(shopPrice) && !shopPrice.Str? then Err(ShopPriceNotString)
    else
      Ok(InsertProduct(
        Trim(Field(v, "name").s),
        Trim(Field(v, "supplierPrice").s),
        if Truthy(shopPrice) then Text(Trim(shopPrice.s)) else Absent))
  }

  /** The two lists the insert loop builds. */
  datatype Outcome = Outcome(imported: seq<InsertProduct>, failed: seq<Failure>)

  /** One turn of the insert loop on the valid item `v`, the `k`-th attempted;
      `insertOk(k, d)` is whether the storage accepts `d` then. */
  function Step(acc: Outcome, v: JsValue, k: nat, insertOk: (nat, InsertProduct) -> bool): (r: Outcome)
    requires ValidProduct(v)
    ensures |r.imported| + |r.failed| == |acc.imported| + |acc.failed| + 1
    ensures forall f :: f in r.failed ==> f in acc.failed || f.product == v
    ensures forall d :: d in r.imported ==> d in acc.imported || (InsertData(v).Ok? && d == InsertData(v).value)
  {
    match InsertData(v)
    case Err(reason) => Outcome(acc.imported, acc.failed + [Failure(v, reason)])
    case Ok(d) =>
      if insertOk(k, d) then Outcome(acc.imported + [d], acc.failed)
      else Outcome(acc.imported, acc.failed + [Failure(v, StorageFailed)])
  }

  /** What attempting the valid items in order yields. */
  function Attempted(valid: seq<JsValue>, insertOk: (nat, InsertProduct) -> bool): (r: Outcome)
    requires forall k :: 0 <= k < |valid| ==> ValidProduct(valid[k])
    ensures |r.imported| + |r.failed| == |valid|
    ensures forall f :: f in r.failed ==> f.product in valid
  {
    if valid == [] then Outcome([], [])
    else
      var n := |valid| - 1;
      Step(Attempted(valid[..n], insertOk), valid[n], n, insertOk)
  }

  /** Attempting one more item is one more step of the loop. */
  lemma AttemptedSnoc(valid: seq<JsValue>, i: nat, insertOk: (nat, InsertProduct) -> bool)
    requires forall k :: 0 <= k < |valid| ==> ValidProduct(valid[k])
    requires i < |valid|
    ensures Attempted(valid[..i + 1], insertOk) == Step(Attempted(valid[..i], insertOk), valid[i], i, insertOk)
  {
    assert valid[..i + 1][..i] == valid[..i];
  }

  /** A name and a supplier price that are trimmed and not empty. */
  predicate TrimmedData(d: InsertProduct) {
    d.name != "" && IsTrimmed(d.name) && d.supplierPrice != "" && IsTrimmed(d.supplierPrice)
  }

  /** Every inserted name and supplier price is trimmed and not empty. */
  lemma {:induction false} ImportedAreTrimmed(valid: seq<JsValue>, insertOk: (nat, InsertProduct) -> bool)
    requires forall k :: 0 <= k < |valid| ==> ValidProduct(valid[k])
    ensures forall d :: d in Attempted(valid, insertOk).imported ==> TrimmedData(d)
  {
    if valid != [] {
      var n := |valid| - 1;
      ImportedAreTrimmed(valid[..n], insertOk);
      InsertDataIsTrimmed(valid[n]);
    }
  }

  /** The data built for one valid item has a trimmed, non-empty name and supplier price. */
  lemma InsertDataIsTrimmed(v: JsValue)
    requires ValidProduct(v)
    ensures InsertData(v).Ok? ==> TrimmedData(InsertData(v).value)
  {
  }

  /** When the storage accepts everything and every item's data can be built (no truthy
      shop price that is not a string), nothing fails and every valid item is inserted. */
  lemma {:induction false} AllAccepted(valid: seq<JsValue>, insertOk: (nat, InsertProduct) -> bool)
    requires forall k :: 0 <= k < |valid| ==> ValidProduct(valid[k])
    requires forall k, d :: insertOk(k, d)
    requires forall k :: 0 <= k < |valid| ==> InsertData(valid[k]).Ok?
    ensures Attempted(valid, insertOk).failed == []
    ensures |Attempted(valid, insertOk).imported| == |valid|
  {
    if valid != [] {
      AllAccepted(valid[..|valid| - 1], insertOk);
    }
  }

  /** A file as the form delivers it; `parsed` is `None` when its text is not JSON. */
  datatype UploadedFile = UploadedFile(name: string, mimeType: string, parsed: Option<JsValue>)

  /** Why the whole request is refused; every refusal has status 400. */
  datatype ImportError =
    | NoFile           // 请上传 JSON 文件
    | NotJsonFile      // 请上传 JSON 格式的文件
    | UnparsableJson   // 文件格式不正确，无法解析 JSON
    | NotAnArray       // 数据格式不正确，必须是产品数组
    | NoValidProducts  // 文件中没有有效的产品数据

  datatype ImportResponse =
    | Done(message: string, imported: nat, failed: nat, failedDetails: Option<seq<Failure>>)
    | Refused(status: int, error: ImportError)

  /** The file is taken as JSON when its type mentions `json` or its name ends in `.json`. */
  predicate LooksLikeJson(f: UploadedFile) {
    Includes(f.mimeType, "json") || EndsWith(f.name, ".json")
  }

  /** The summary message: how many were imported and, when some failed, how many. */
  function SummaryMessage(imported: nat, failed: nat): string {
    "成功导入 " + DecimalDigits(imported) + " 条产品数据"
      + (if failed > 0 then "，失败 " + DecimalDigits(failed) + " 条" else "")
  }

  /** `POST`: check the file, parse it, keep the valid items, then insert them one by one;
      a failing insert is recorded and the loop goes on. */
  method Post(file: Option<UploadedFile>, insertOk: (nat, InsertProduct) -> bool) returns (r: ImportResponse)
    ensures file.None? <==> r == Refused(400, NoFile)
    ensures file.Some? && !LooksLikeJson(file.value) ==> r == Refused(400, NotJsonFile)
    ensures file.Some? && LooksLikeJson(file.value) && file.value.parsed.None? ==> r == Refused(400, UnparsableJson)
    ensures file.Some? && LooksLikeJson(file.value) && file.value.parsed.Some? && !file.value.parsed.value.Arr? ==>
      r == Refused(400, NotAnArray)
    ensures (file.Some? && LooksLikeJson(file.value) && file.value.parsed.Some? && file.value.parsed.value.Arr?
      && ValidItems(file.value.parsed.value.items) == []) ==> r == Refused(400, NoValidProducts)
    ensures r.Refused? ==> r.status == 400
    ensures r.Done? <==>
      file.Some? && LooksLikeJson(file.value) && file.value.parsed.Some? && file.value.parsed.value.Arr?
      && ValidItems(file.value.parsed.value.items) != []
    ensures r.Done? ==>
      var outcome := Attempted(ValidItems(file.value.parsed.value.items), insertOk);
      && r.imported == |outcome.imported| && r.failed == |outcome.failed|
      && r.imported + r.failed == |ValidItems(file.value.parsed.value.items)|
      && (r.failedDetails.Some? <==> r.failed > 0)
      && (r.failedDetails.Some? ==> r.failedDetails.value == outcome.failed)
      && r.message == SummaryMessage(r.imported, r.failed)
  {
    if file.None? {
      return Refused(400, NoFile);
    }
    var f := file.value;
    if !Includes(f.mimeType, "json") && !EndsWith(f.name, ".json") {
      return Refused(400, NotJsonFile);
    }
    if f.parsed.None? {
      return Refused(400, UnparsableJson);
    }
    var importedProducts := f.parsed.value;
    if !importedProducts.Arr? {
      return Refused(400, NotAnArray);
    }
    var validProducts := ValidItems(importedProducts.items);
    if |validProducts| == 0 {
      return Refused(400, NoValidProducts);
    }
    var imported, failed := InsertAll(validProducts, insertOk);
    r := Done(
      SummaryMessage(|imported|, |failed|),
      |imported|, |failed|,
      if |failed| > 0 then Some(failed) else None);
  }

  /** The insert loop: each valid item in turn, a failure recorded and the loop going on. */
  method InsertAll(validProducts: seq<JsValue>, insertOk: (nat, InsertProduct) -> bool)
    returns (imported: seq<InsertProduct>, failed: seq<Failure>)
    requires forall k :: 0 <= k < |validProducts| ==> ValidProduct(validProducts[k])
    ensures Outcome(imported, failed) == Attempted(validProducts, insertOk)
  {
    imported := [];
    failed := [];
    for i := 0 to |validProducts|
      invariant Outcome(imported, failed) == Attempted(validProducts[..i], insertOk)
    {
      var product := validProducts[i];
      AttemptedSnoc(validProducts, i, insertOk);
      match InsertData(product)
      case Err(reason) =>
        failed := failed + [Failure(product, reason)];
      case Ok(insertData) =>
        if insertOk(i, insertData) {
          imported := imported + [insertData];
        } else {
          failed := failed + [Failure(product, StorageFailed)];
        }
    }
    assert validProducts[..|validProducts|] == validProducts;
  }
}
