/** The file-storage branch of the product storage adapter: a list of product records that
    is appended to, searched and paged, looked up by id, updated in place and spliced. */
module ProductStorage {
  import opened Wrappers
  import opened TextRules
  import opened ProductSchema

  /** A record as the product file keeps it; `None` is an absent property. */
  datatype FileProduct = FileProduct(
    id: string, name: string, supplierPrice: string, shopPrice: Option<string>,
    createdAt: string, updatedAt: Option<string>)

  // ---------------------------------------------------------------------------------------
  // Conversions

  /** `toFileProduct`: the fields are copied, and an empty `updatedAt` is dropped. */
  function ToFileProduct(p: Product): (f: FileProduct)
    ensures f.id == p.id && f.name == p.name && f.supplierPrice == p.supplierPrice
    ensures f.shopPrice == p.shopPrice && f.createdAt == p.createdAt
    ensures f.updatedAt.None? <==> p.updatedAt.None? || p.updatedAt == Some("")
  {
    FileProduct(p.id, p.name, p.supplierPrice, p.shopPrice, p.createdAt,
      if p.updatedAt == Some("") then None else p.updatedAt)
  }

  /** `toDbProduct`: the fields are copied unchanged. */
  function ToDbProduct(f: FileProduct): (p: Product)
    ensures p.id == f.id && p.name == f.name && p.supplierPrice == f.supplierPrice
    ensures p.shopPrice == f.shopPrice && p.createdAt == f.createdAt && p.updatedAt == f.updatedAt
  {
    Product(f.id, f.name, f.supplierPrice, f.shopPrice, f.createdAt, f.updatedAt)
  }

  /** A file record survives the trip to a table row and back unless its `updatedAt` is "". */
  lemma FileRoundTrip(f: FileProduct)
    ensures ToFileProduct(ToDbProduct(f)) == f <==> f.updatedAt != Some("")
  {
  }

  /** A table row survives the trip to a file record and back unless its `updatedAt` is "". */
  lemma DbRoundTrip(p: Product)
    ensures ToDbProduct(ToFileProduct(p)) == p <==> p.updatedAt != Some("")
  {
  }

  // ---------------------------------------------------------------------------------------
  // Searching and paging

  /** ASCII `toLowerCase` on one character. */
  function LowerChar(c: char): char {
    if 'A' <= c <= 'Z' then (c as int + 32) as char else c
  }

  /** `toLowerCase`, on ASCII letters. */
  function Lower(s: string): (r: string)
    ensures |r| == |s|
    ensures forall k :: 0 <= k < |s| ==> r[k] == LowerChar(s[k])
  {
    seq(|s|, k requires 0 <= k < |s| => LowerChar(s[k]))
  }

  /** Lower-casing twice is lower-casing once. */
  lemma LowerIdempotent(s: string)
    ensures Lower(Lower(s)) == Lower(s)
  {
  }

  /** The search a request asks for, if it is non-blank: `search.toLowerCase().trim()`. */
  function SearchTerm(search: Option<string>): (r: Option<string>)
    ensures r.Some? <==> search.Some? && Trim(search.value) != ""
    ensures r.Some? ==> r.value == Trim(Lower(search.value))
  {
    if search.Some? && search.value != "" && Trim(search.value) != "" then Some(Trim(Lower(search.value)))
    else None
  }

  /** A record matches a lower-cased search when its lower-cased name contains it. */
  predicate NameMatches(f: FileProduct, term: string) {
    Includes(Lower(f.name), term)
  }

  /** `products.filter(p => p.name.toLowerCase().includes(term))`. */
  function FilterByName(products: seq<FileProduct>, term: string): (r: seq<FileProduct>)
    ensures |r| <= |products|
    ensures forall f :: f in r <==> f in products && NameMatches(f, term)
  {
    if products == [] then []
    else (if NameMatches(products[0], term) then [products[0]] else []) + FilterByName(products[1..], term)
  }

  /** Filtering keeps the original order: it distributes over concatenation. */
  lemma {:induction false} FilterAppend(a: seq<FileProduct>, b: seq<FileProduct>, term: string)
    ensures FilterByName(a + b, term) == FilterByName(a, term) + FilterByName(b, term)
  {
    if a == [] {
      assert a + b == b;
    } else {
      assert (a + b)[1..] == a[1..] + b;
      FilterAppend(a[1..], b, term);
    }
  }

  /** Where `slice` starts or ends for an index argument `x` on a list of length `len`. */
  function SliceIndex(x: int, len: nat): (r: nat)
    ensures r <= len
    ensures 0 <= x <= len ==> r == x
  {
    if x < 0 then (if len + x < 0 then 0 else len + x) else if x > len then len else x
  }

  /** `s.slice(start, end)`. */
  function Slice<T>(s: seq<T>, start: int, end: int): (r: seq<T>)
    ensures |r| <= |s|
    ensures 0 <= start && start <= end ==> |r| <= end - start
    ensures SliceIndex(start, |s|) + |r| <= |s|
    ensures var a := SliceIndex(start, |s|); var b := SliceIndex(end, |s|);
      |r| == (if a < b then b - a else 0)
    ensures forall k :: 0 <= k < |r| ==> r[k] == s[SliceIndex(start, |s|) + k]
  {
    var a := SliceIndex(start, |s|);
    var b := SliceIndex(end, |s|);
    if a < b then s[a..b] else []
  }

  /** A page inside the list holds exactly the requested records. */
  lemma SliceInRange<T>(s: seq<T>, skip: nat, limit: nat)
    requires skip + limit <= |s|
    ensures Slice(s, skip, skip + limit) == s[skip..skip + limit]
  {
  }

  /** The last page, which runs past the end of the list, holds the records from `skip` on. */
  lemma SliceLastPage<T>(s: seq<T>, skip: nat, limit: nat)
    requires skip <= |s| < skip + limit
    ensures Slice(s, skip, skip + limit) == s[skip..]
  {
  }

  /** A page starting at or after the end of the list is empty. */
  lemma SlicePastEnd<T>(s: seq<T>, skip: nat, limit: nat)
    requires |s| <= skip
    ensures Slice(s, skip, skip + limit) == []
  {
  }

  /** The query options of `getProducts`; `None` is an option left out. */
  datatype ListOptions = ListOptions(skip: Option<int>, limit: Option<int>, search: Option<string>)

  const DefaultSkip: int := 0
  const DefaultLimit: int := 100

  // ---------------------------------------------------------------------------------------
  // The adapter

  /** The index of the first record with `id`, or -1 (`findIndex`). */
  function FindIndex(products: seq<FileProduct>, id: string): (r: int)
    ensures -1 <= r < |products|
    ensures r == -1 <==> forall k :: 0 <= k < |products| ==> products[k].id != id
    ensures r >= 0 ==> products[r].id == id && forall k :: 0 <= k < r ==> products[k].id != id
  {
    if products == [] then -1
    else if products[0].id == id then 0
    else
      var r := FindIndex(products[1..], id);
      if r == -1 then -1 else r + 1
  }

  /** The record `createProduct` appends: a falsy shop price is left out, and the record has
      no `updatedAt`. */
  function NewRecord(data: InsertProduct, id: string, now: string): (f: FileProduct)
    ensures f.id == id && f.name == data.name && f.supplierPrice == data.supplierPrice && f.createdAt == now
    ensures f.shopPrice.Some? <==> data.shopPrice.Text? && data.shopPrice.s != ""
    ensures f.shopPrice.Some? ==> f.shopPrice.value == data.shopPrice.s
    ensures f.updatedAt.None?
  {
    var shopPrice := if data.shopPrice.Text? && data.shopPrice.s != "" then Some(data.shopPrice.s) else None;
    FileProduct(id, data.name, data.supplierPrice, shopPrice, now, None)
  }

  /** The record after `updateProduct` assigns the given fields and the time. */
  function Updated(f: FileProduct, data: UpdateProduct, now: string): (g: FileProduct)
    ensures g.id == f.id && g.createdAt == f.createdAt && g.updatedAt == Some(now)
    ensures g.name == data.name.GetOr(f.name)
    ensures g.supplierPrice == data.supplierPrice.GetOr(f.supplierPrice)
    ensures data.shopPrice.Absent? ==> g.shopPrice == f.shopPrice
    ensures data.shopPrice.NullText? || data.shopPrice == Text("") ==> g.shopPrice.None?
    ensures data.shopPrice.Text? && data.shopPrice.s != "" ==> g.shopPrice == Some(data.shopPrice.s)
  {
    var g := if data.name.Some? then f.(name := data.name.value) else f;
    var g := if data.supplierPrice.Some? then g.(supplierPrice := data.supplierPrice.value) else g;
    var g := if data.shopPrice.Absent? then g
      else g.(shopPrice := if data.shopPrice.Text? && data.shopPrice.s != "" then Some(data.shopPrice.s) else None);
    g.(updatedAt := Some(now))
  }

  /** An update that gives no field only stamps the time. */
  lemma EmptyUpdateStampsOnly(f: FileProduct, now: string)
    ensures Updated(f, UpdateProduct(None, None, Absent), now) == f.(updatedAt := Some(now))
  {
  }

  /** The file-storage side of the adapter, holding the product list it reads and writes. */
  class ProductStorageAdapter {
    var products: seq<FileProduct>

    constructor(initial: seq<FileProduct>)
      ensures products == initial
    {
      products := initial;
    }

    /** `createProduct`: append the new record and return it as a table row; `id` and `now`
        stand for the generated id and the current time. */
    method CreateProduct(data: InsertProduct, id: string, now: string) returns (p: Product)
      modifies this
      ensures products == old(products) + [NewRecord(data, id, now)]
      ensures p == ToDbProduct(NewRecord(data, id, now))
    {
      var newProduct := NewRecord(data, id, now);
      products := products + [newProduct];
      p := ToDbProduct(newProduct);
    }

    /** The records a search keeps, in list order. */
    function Filtered(search: Option<string>): (r: seq<FileProduct>)
      reads this
      ensures SearchTerm(search).Some? ==>
        forall f :: f in r <==> f in products && NameMatches(f, SearchTerm(search).value)
      ensures SearchTerm(search).None? ==> r == products
    {
      match SearchTerm(search)
      case Some(term) => FilterByName(products, term)
      case None => products
    }

    /** `getProducts`: the searched records from `skip` (default 0), at most `limit`
        (default 100) of them, as table rows. */
    function GetProducts(options: ListOptions): (r: seq<Product>)
      reads this
      ensures var skip := options.skip.GetOr(DefaultSkip); var limit := options.limit.GetOr(DefaultLimit);
        var filtered := Filtered(options.search);
        && |r| <= |filtered|
        && (0 <= skip && 0 <= limit ==> |r| <= limit)
        && SliceIndex(skip, |filtered|) + |r| <= |filtered|
        && (var a := SliceIndex(skip, |filtered|); var b := SliceIndex(skip + limit, |filtered|);
            |r| == (if a < b then b - a else 0))
        && forall k :: 0 <= k < |r| ==> r[k] == ToDbProduct(filtered[SliceIndex(skip, |filtered|) + k])
    {
      var skip := options.skip.GetOr(DefaultSkip);
      var limit := options.limit.GetOr(DefaultLimit);
      var page := Slice(Filtered(options.search), skip, skip + limit);
      seq(|page|, k requires 0 <= k < |page| => ToDbProduct(page[k]))
    }

    /** `getProductById`: the first record with `id`, or `null`. */
    function GetProductById(id: string): (r: Option<Product>)
      reads this
      ensures r.None? <==> forall k :: 0 <= k < |products| ==> products[k].id != id
      ensures r.Some? ==>
        exists k :: (0 <= k < |products| && r.value == ToDbProduct(products[k])
          && products[k].id == id && forall j :: 0 <= j < k ==> products[j].id != id)
    {
      var index := FindIndex(products, id);
      if index == -1 then None else Some(ToDbProduct(products[index]))
    }

    /** `updateProduct`: `null` and no change for an unknown id; otherwise the first record
        with `id` gets the given fields and the time `now`, and nothing else changes. */
    method UpdateProduct(id: string, data: UpdateProduct, now: string) returns (r: Option<Product>)
      modifies this
      ensures var index := FindIndex(old(products), id);
        && (index == -1 ==> r.None? && products == old(products))
        && (index >= 0 ==>
          && products == old(products)[index := Updated(old(products)[index], data, now)]
          && r == Some(ToDbProduct(products[index])))
    {
      var index := FindIndex(products, id);
      if index == -1 {
        return None;
      }
      var record := products[index];
      if data.name.Some? {
        record := record.(name := data.name.value);
      }
      if data.supplierPrice.Some? {
        record := record.(supplierPrice := data.supplierPrice.value);
      }
      if !data.shopPrice.Absent? {
        record := record.(shopPrice := if data.shopPrice.Text? && data.shopPrice.s != "" then Some(data.shopPrice.s) else None);
      }
      record := record.(updatedAt := Some(now));
      products := products[index := record];
      r := Some(ToDbProduct(products[index]));
    }

    /** `deleteProduct`: remove the first record with `id` and answer true, or answer false
        and change nothing. */
    method DeleteProduct(id: string) returns (deleted: bool)
      modifies this
      ensures deleted <==> exists k :: 0 <= k < |old(products)| && old(products)[k].id == id
      ensures var index := FindIndex(old(products), id);
        && (index == -1 ==> products == old(products))
        && (index >= 0 ==> products == old(products)[..index] + old(products)[index + 1..])
    {
      var index := FindIndex(products, id);
      if index == -1 {
        return false;
      }
      products := products[..index] + products[index + 1..];
      deleted := true;
    }
  }

  /** Deleting the first record with an id shortens the list by one and keeps every other
      record in order. */
  lemma DeleteKeepsOthers(products: seq<FileProduct>, index: nat)
    requires index < |products|
    ensures var rest := products[..index] + products[index + 1..];
      |rest| == |products| - 1
      && (forall k :: 0 <= k < index ==> rest[k] == products[k])
      && (forall k :: index <= k < |rest| ==> rest[k] == products[k + 1])
  {
  }

  /** After an update, the record at the index still carries the id, so a lookup by that id
      finds the updated record. */
  lemma UpdateThenFind(products: seq<FileProduct>, id: string, data: UpdateProduct, now: string)
    requires FindIndex(products, id) >= 0
    ensures var index := FindIndex(products, id);
      FindIndex(products[index := Updated(products[index], data, now)], id) == index
  {
    var index := FindIndex(products, id);
    var after := products[index := Updated(products[index], data, now)];
    assert forall k :: 0 <= k < |after| ==> after[k].id == products[k].id;
    assert after[index].id == id;
  }
}
