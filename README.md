# A verified model of the pricing and product core of 利合 (lihe)

lihe is a small web tool for resellers. Given a supply price, a quantity, shipping fees and a
shop price, it computes the seller's profit after the payment processor's 0.6 % fee, and the
largest discount that still breaks even. It extracts a product title, price and spec from
pasted or OCR-recognised text. It keeps a product catalogue, either in a database or in a JSON
file, and imports products from an uploaded JSON file.

This project models that core in Dafny and proves properties of the model.

- `wrappers.dfy` (`Wrappers`): `Option` and `Result`.
- `json.dfy` (`Json`): the values a request body can hold, JavaScript truthiness and
  property reads.
- `calculate_route.dfy` (`CalculateRoute`): the `/api/calculate` handler. It covers
  validation, with the field defaults, and the arithmetic up to the clamped maximum discount.
- `calculator.dfy` (`Calculator`): the same arithmetic as the page runs it in the browser.
  It also covers the discounted profit, the percentage-to-discount inversion and the
  quick-button test. The page's React state (`result`, `discountAmount`) is the class
  `CalculatorForm`.
- `text_rules.dfy` (`TextRules`): the shared string machinery.
  - `split('\n')`, `trim` and the filter of empty lines.
  - The character classes.
  - Nine of the extractors' regular expressions as patterns, each with a match-at-a-position
    function and a leftmost search. The four plain tests (`/^\d+$/`, `/[\u4e00-\u9fa5]/`,
    `/\*/` and `/g/`) are predicates.
  - The per-line rules the extractors scan for, with first-match functions.
- `line_scan.dfy` (`LineScan`): the title loop, the price loop and the first-matching-line
  loop, each as a `for` loop with `continue`/`break`. Each is proved to end with the
  first-match function's value.
- `page_extract.dfy` (`PageExtract`), `text_recognize.dfy` (`TextRecognize`) and `ocr.dfy`
  (`OcrText`): the three extractors. These are the page's `extractProductInfo`, the
  `/api/text-recognize` route and `parseOcrText`.
- `schema.dfy` (`ProductSchema`): the table row type and the insert and update schemas,
  with the two-decimal price format.
- `storage.dfy` (`ProductStorage`): the file branch of the storage adapter. It is a class
  holding the product list, which it appends to, filters and pages, searches, updates in place
  and splices.
- `product_import.dfy` (`ProductImport`): the product import route.

Money is Dafny's exact `real`, so 0.006 and 0.994 are exact and the accounting identities hold
exactly. The route clamps the maximum discount at 0; the page does not, and only displays it
when it is positive. `Calculator.UnclampedMaxDiscountExample` shows both on one loss-making order.

For supply price 10, one unit, shipping 5/5 and shop price 20, the handler's formula gives a
maximum discount of 25 − 13/0.994 ≈ 11.92; `CalculateRoute.SingleUnitExample` states it.

## Model

| member | source | states |
|---|---|---|
| `CalculateRoute.Validate` | src/app/api/calculate/route.ts:11-17 | a body is accepted iff it is an object with a positive supply price, a positive integer quantity, non-negative shipping fees (5 when left out) and a positive shop price; the accepted input carries exactly those values; a non-object is refused |
| `CalculateRoute.ErrorIsFirstInvalidField` | src/app/api/calculate/route.ts:94-99 | the reported error is about the first invalid field in schema order |
| `CalculateRoute.Compute` | src/app/api/calculate/route.ts:40-81 | profit is customer total minus total expense and equals 0.994·total − (goods + supplier shipping); the reported maximum discount is max(0, profit/0.994), never negative, positive exactly when profit is |
| `CalculateRoute.Post` | src/app/api/calculate/route.ts:32-100 | a quote is returned iff validation passes, and it is the computed quote; otherwise status 400 with the validation error |
| `CalculateRoute.SupplierShipping` | src/app/api/calculate/route.ts:43-50 | definition: 3 for one unit, 5 for two, 0 otherwise (its properties are in `SupplierShippingTiers`) |
| `CalculateRoute.CustomerShipping` | src/app/api/calculate/route.ts:53-55 | definition: the single fee for one unit, otherwise the per-unit fee times the quantity (see `CustomerShippingSwitch`) |
| `CalculateRoute.SupplierShippingTiers` | src/app/api/calculate/route.ts:43-50 | supplier shipping is 3 for one unit, 5 for two, 0 from three on, so it falls from two units to three |
| `CalculateRoute.CustomerShippingSwitch` | src/app/api/calculate/route.ts:53-55 | one unit pays the single fee whatever the per-unit fee; two or more pay per-unit fee × quantity whatever the single fee |
| `CalculateRoute.QuoteBreakdown` | src/app/api/calculate/route.ts:40-67 | each quote field against the input: goods cost, the supplier and customer shipping of the quantity's tier, customer total = shop price × q + customer shipping, fee = 0.6 % of it, total expense |
| `CalculateRoute.MaxDiscountBreaksEven` | src/app/api/calculate/route.ts:69-70 | when profit is positive, a discount of the reported maximum leaves exactly zero profit |
| `CalculateRoute.SingleUnitExample` | src/app/api/calculate/route.ts:22-31 | supply 10, one unit, shipping 5/5, shop 20: total 25, fee 0.15, expense 13.15, profit 11.85, maximum discount 11.85/0.994 (between 11.92 and 11.925) |
| `CalculateRoute.ThreeUnitExample` | src/app/api/calculate/route.ts:43-67 | three units: no supplier shipping, per-unit customer shipping, and the resulting profit |
| `CalculateRoute.MissingShippingDefaultsToFive` | src/app/api/calculate/route.ts:14-15 | a body without shipping fees is priced with 5 for each |
| `Calculator.QuantityOrOne` | src/app/page.tsx:607 | a quantity that does not parse or parses as 0 counts as 1; any other parsed value is kept |
| `Calculator.SupplierFreight` | src/app/page.tsx:594-598 | definition: 3 for one unit, 5 for two, 0 otherwise; equal to the route's tier by `ClientMatchesServer` |
| `Calculator.CustomerFreight` | src/app/page.tsx:600-603 | definition: the single fee for one unit, otherwise quantity × per-unit fee; equal to the route's by `ClientMatchesServer` |
| `Calculator.Quote` | src/app/page.tsx:612-629 | total expense is supplier expense plus fee; profit is payment − supplier expense − 0.6 % of payment; maximum discount is profit/0.994, unclamped |
| `Calculator.DiscountedProfit` | src/app/page.tsx:647-659 | the profit after discount d is (payment − d)·0.994 − supplier expense |
| `Calculator.ExpectedProfit` | src/app/page.tsx:664-666 | the profit aimed at for a percentage p is profit·(1 − p/100) |
| `Calculator.NeededDiscount` | src/app/page.tsx:672-673 | definition: payment − (supplier expense + expected profit)/0.994; `PercentageRoundTrip` proves it reaches the expected profit |
| `Calculator.IsOverLimit` | src/app/page.tsx:1258-1264 | definition: the needed discount for the percentage exceeds the maximum discount; characterised by `OverLimitIffNegativeShare` and `OverLimitIffLoss` |
| `Calculator.NoDiscountKeepsProfit` | src/app/page.tsx:649-658 | with no discount the discounted profit is the profit |
| `Calculator.DiscountedProfitDecreasing` | src/app/page.tsx:654-657 | a larger discount always gives strictly less profit |
| `Calculator.MaxDiscountBreaksEven` | src/app/page.tsx:621-629 | a discount of exactly the maximum discount leaves zero profit |
| `Calculator.LossIffBeyondMaxDiscount` | src/app/page.tsx:621-629 | a discount makes a loss iff it exceeds the maximum discount |
| `Calculator.PercentageRoundTrip` | src/app/page.tsx:661-676 | the discount computed for percentage p brings the discounted profit to exactly profit·(1 − p/100) |
| `Calculator.OverLimitIffNegativeShare` | src/app/page.tsx:1256-1264 | a quick button is disabled iff the profit aimed at is negative |
| `Calculator.OverLimitIffLoss` | src/app/page.tsx:1256-1269 | for any percentage under 100, a quick button is disabled iff the order already makes a loss |
| `Calculator.QuickButtonsDisabledIffLoss` | src/app/page.tsx:1256-1269 | each of the buttons 5 % … 30 % is disabled iff profit is negative |
| `Calculator.UnclampedMaxDiscountExample` | src/app/page.tsx:629 | for supply 100, one unit, shop price 1 the page's maximum discount is negative (so hidden) while the route reports 0 |
| `Calculator.ClientMatchesServer` | src/app/page.tsx:594-619 | on valid numbers the page's freight tiers, payment, fee, expense and profit equal the route's, and the route's maximum discount is the page's clamped at 0 |
| `Calculator.CalculatorForm.constructor` | src/app/page.tsx:605-641 | the form starts with no result and no discount |
| `Calculator.CalculatorForm.Calculate` | src/app/page.tsx:605-641 | `calculate` stores the result of the form's numbers and leaves the discount field alone |
| `Calculator.CalculatorForm.SetDiscountAmount` | src/app/page.tsx:675 | sets the discount field and keeps the result |
| `Calculator.CalculatorForm.GetDiscountedProfit` | src/app/page.tsx:647-659 | null without a result; otherwise the profit after the parsed discount (0 when blank) |
| `Calculator.CalculatorForm.ApplyDiscountPercentage` | src/app/page.tsx:661-676 | without a result nothing changes; otherwise the discount field becomes the needed discount, and the discounted profit then reads profit·(1 − p/100) |
| `Json.Field` | src/app/api/text-recognize/route.ts:84 | reading a property of an object gives the field's value when the key is present; a non-object, or a missing key, gives undefined |
| `Json.TruthyIsReadable` | src/app/api/products/import/route.ts:8-10 | a truthy value can have its properties read |
| `TextRules.Split` | src/app/api/text-recognize/route.ts:5 | `split('\n')` gives at least one piece and no piece holds a line break |
| `TextRules.JoinSplit` | src/app/api/text-recognize/route.ts:5 | joining the pieces of a split with the separator gives the text back |
| `TextRules.SplitJoin` | src/app/api/text-recognize/route.ts:5 | splitting a join of separator-free pieces gives the pieces back |
| `TextRules.Trim` | src/app/api/text-recognize/route.ts:5 | `trim` keeps a contiguous slice, drops only white space from both ends, and leaves nothing white at either end |
| `TextRules.TrimmedNonEmpty` | src/app/api/text-recognize/route.ts:5 | the trimmed, non-empty lines are no more than the pieces and each is non-empty and trimmed |
| `TextRules.TrimmedNonEmptyAppend` | src/app/api/text-recognize/route.ts:5 | trimming and filtering works piece by piece: it distributes over concatenation, so the order is kept |
| `TextRules.TrimmedNonEmptySingle` | src/app/api/text-recognize/route.ts:5 | one piece gives its trimmed text, or nothing when that is empty |
| `TextRules.LinesAreLines` | src/lib/ocr.ts:57-59 | every line an extractor sees is non-empty, trimmed and free of line breaks |
| `TextRules.TrimmedNonEmptyKeepsSep` | src/lib/ocr.ts:57-59 | trimming and filtering never introduce a line break |
| `TextRules.TrimTrimmed` | src/lib/ocr.ts:58 | trimming a trimmed string changes nothing |
| `TextRules.TrimmedNonEmptyOfLines` | src/lib/ocr.ts:57-59 | trimming and filtering proper lines changes nothing |
| `TextRules.LinesOfJoinedLines` | src/lib/ocr.ts:57-59 | the lines of proper lines joined by line breaks are those lines: line extraction is idempotent |
| `TextRules.RunEnd` | src/app/page.tsx:234 | a greedy character-class run stops at the first character outside the class |
| `TextRules.DecimalEnd` | src/lib/ocr.ts:84 | the greedy `\d+\.?\d*` started at a digit ends after decimal text |
| `TextRules.DecimalEndIsGreedy` | src/lib/ocr.ts:84 | the greedy match is maximal: no longer slice from the start is decimal text |
| `TextRules.MatchAt` | src/app/api/text-recognize/route.ts:30-62 | definition: each of the nine patterns matched at one position, every repetition read greedily, giving the captured group (or the whole match for the spec token) |
| `TextRules.Search` | src/lib/ocr.ts:84-108 | definition: the first position from `i` at which `MatchAt` succeeds, and its capture; characterised by `SearchIsLeftmost` and `SearchFailsIffNoMatch` |
| `TextRules.SearchIsLeftmost` | src/app/page.tsx:234 | `match` returns the match at the leftmost position where one starts |
| `TextRules.SearchFailsIffNoMatch` | src/app/page.tsx:234 | `match` fails iff no position starts a match |
| `TextRules.SearchFoundAt` | src/app/page.tsx:234 | a successful search is the match at some position |
| `TextRules.AmountCapture` | src/app/page.tsx:234 | a `[\d.]+` capture is a non-empty run of digits and dots |
| `TextRules.DecimalCapture` | src/lib/ocr.ts:84 | a `\d+\.?\d*` capture starts with a digit and holds at most one dot |
| `TextRules.FindAmount` | src/app/page.tsx:242 | the `[\d.]+` capture of a successful `match` is a non-empty run of digits and dots |
| `TextRules.FindDecimal` | src/lib/ocr.ts:91 | the `\d+\.?\d*` capture of a successful `match` is decimal text and never "." |
| `TextRules.SpecTokenShape` | src/app/api/text-recognize/route.ts:30 | a spec token holds `*` or `×`, no `¥`, and ends in `g` or `克` right after a digit |
| `TextRules.FindIsNonEmpty` | src/app/api/text-recognize/route.ts:48 | every capture the extractors read is non-empty, so truthy |
| `TextRules.FindIsSubstring` | src/app/page.tsx:234-235 | a capture is a piece of the searched line |
| `TextRules.MatchStart` | src/app/page.tsx:234-235 | the text a match yields starts at a definite position of the line |
| `TextRules.FirstMatching` | src/app/page.tsx:215-227 | the index returned is the first at or after the start where the rule holds; none is returned iff the rule holds nowhere |
| `TextRules.OrNull` | src/app/page.tsx:278-282 | `x \|\| null` turns "" into null and keeps any other string |
| `TextRules.AmountPrice` | src/app/page.tsx:229-266 | with `[\d.]+` captures, the price the price loop ends with is a non-empty run of digits and dots |
| `TextRules.DecimalPrice` | src/lib/ocr.ts:80-115 | with `\d+\.?\d*` captures, the price starts with a digit, has at most one dot and is never "." |
| `TextRules.FirstMatchingAt` | src/app/page.tsx:215-227 | the line a loop stops at, after rejecting every earlier line, is the one the first-match function returns |
| `TextRules.LowerThresholdFindsEarlier` | src/lib/ocr.ts:72 | a lower title threshold finds a title whenever a higher one does, and on the same line or an earlier one |
| `LineScan.ScanTitle` | src/app/page.tsx:215-227 | the title loop ends with the first title line, if any: no `¥`/`元`, not all digits, longer than the threshold, with a CJK character |
| `LineScan.ScanPrice` | src/app/page.tsx:229-266 | the price loop ends with the price of the first line where one of its rules hits |
| `LineScan.ScanLine` | src/app/page.tsx:268-276 | the loop ends with the first line the rule accepts |
| `PageExtract.ExtractProductInfo` | src/app/page.tsx:204-296 | the result is the first title line, the first `*`/`×`-and-`g`/`克` line and the first price, each null when absent |
| `PageExtract.TitleIsFirstTitleLine` | src/app/page.tsx:215-227 | the title is null iff no line is a title line; otherwise it is a title line with no title line before it |
| `PageExtract.SpecIsLooseSpecLine` | src/app/page.tsx:268-276 | the spec is null iff no line holds (`*` or `×`) and (`g` or `克`); otherwise it is such a line |
| `PageExtract.PriceIsDigitsAndDots` | src/app/page.tsx:229-266 | a price is a non-empty run of digits and dots cut out of one of the lines |
| `PageExtract.LoneDotPrice` | src/app/page.tsx:234 | the text `¥.` yields the price "." |
| `TextRecognize.ScanStarLine` | src/app/api/text-recognize/route.ts:26-52 | the loop stops at the first line with `*` and `g`; its spec is that line's spec token or the whole line, and its price is the `¥` price on it or on the next line |
| `TextRecognize.ScanLabelPrice` | src/app/api/text-recognize/route.ts:56-73 | the fallback loop ends with the `¥` price above the first 供货价 line that has one |
| `TextRecognize.ExtractProductInfo` | src/app/api/text-recognize/route.ts:4-80 | the result is the title line, the spec and price of the first `*`-and-`g` line, and the 供货价 fallback only when that gives no price |
| `TextRecognize.StarPriceIsAmount` | src/app/api/text-recognize/route.ts:38-46 | the `*`-and-`g` price is a non-empty run of digits and dots |
| `TextRecognize.StarSpecIsTokenOrLine` | src/app/api/text-recognize/route.ts:30-35 | the spec is the line's spec token when it has one, otherwise the whole line, and never empty |
| `TextRecognize.SpecIffStarLine` | src/app/api/text-recognize/route.ts:26-50 | there is a spec iff some line holds both `*` and `g` |
| `TextRecognize.PriceFollowsYen` | src/app/api/text-recognize/route.ts:38-73 | every reported price is the run right after a `¥` on some line |
| `TextRecognize.FallbackPrice` | src/app/api/text-recognize/route.ts:56-73 | without a `*`-and-`g` price, a price is found iff some 供货价 line follows a line with a `¥` price |
| `TextRecognize.Post` | src/app/api/text-recognize/route.ts:82-107 | unreadable JSON or a null body gives 500; a falsy `text` gives 400; a truthy non-string gives 400; a string is extracted from |
| `OcrText.OrEmpty` | src/lib/ocr.ts:61-63 | a field not found is "" |
| `OcrText.ParseOcrText` | src/lib/ocr.ts:56-130 | the result is the first name line (threshold 3), the first price and the first weight-spec line, "" when absent |
| `OcrText.NameIsFirstTitleLine` | src/lib/ocr.ts:66-77 | the name is non-empty iff some line is a title line longer than 3, and then it is the first one |
| `OcrText.PageTitleImpliesName` | src/lib/ocr.ts:72 | whenever the page finds a title, this parser finds a name on that line or an earlier one |
| `OcrText.PriceIsDecimal` | src/lib/ocr.ts:80-115 | the supply price is "" or starts with a digit and has at most one dot, never "." |
| `OcrText.SpecificationIsWeightLine` | src/lib/ocr.ts:118-123 | the specification is non-empty iff some line matches `[*×]\s*\d+\s*[gG克]`, and then it is the first such line |
| `OcrText.FullWidthYenPrice` | src/lib/ocr.ts:84 | the line `￥8` gives the supply price "8", where the page's extractor finds no price |
| `ProductSchema.IsPriceText` | src/storage/database/shared/schema.ts:19 | definition of `/^\d+(\.\d{1,2})?$/`: a non-empty digit run ending the string, or followed by a dot and one or two digits; characterised by `PriceTextShape` |
| `ProductSchema.PriceTextSplit` | src/storage/database/shared/schema.ts:19 | an accepted price string is all digits, or digits, a dot and one or two digits |
| `ProductSchema.DigitsDotDigitsIsPriceText` | src/storage/database/shared/schema.ts:19 | digits, a dot and one or two digits form an accepted price string |
| `ProductSchema.PriceTextShape` | src/storage/database/shared/schema.ts:19 | a price string is accepted iff it is all digits, or digits, a dot and one or two digits |
| `ProductSchema.PriceTextIsDecimal` | src/storage/database/shared/schema.ts:19 | an accepted price starts with a digit and has at most one dot |
| `ProductSchema.PriceTextExamples` | src/storage/database/shared/schema.ts:19 | "12", "12.5", "12.50" are accepted; "12.", ".5", "1.234", "-1" are refused |
| `ProductSchema.DecimalDigits` | src/storage/database/shared/schema.ts:20 | a number's decimal digits spell the number, with no leading 0 except for 0 itself |
| `ProductSchema.FixedTwo` | src/storage/database/shared/schema.ts:20 | definition of `toFixed(2)` on an exact value: round to the nearest cent, two decimals, `-` for a negative value; see `FixedTwoIsPriceText` and `NegativeNumberAccepted` |
| `ProductSchema.FixedTwoIsPriceText` | src/storage/database/shared/schema.ts:20 | `toFixed(2)` of a non-negative number passes the string rule, with two decimals |
| `ProductSchema.NumericText` | src/storage/database/shared/schema.ts:18-21 | a string passes iff it is a price text, and then unchanged; anything but a string or number fails |
| `ProductSchema.NameText` | src/storage/database/shared/schema.ts:24 | a name passes iff it is a string of length 1 to 255, unchanged |
| `ProductSchema.ShopPriceText` | src/storage/database/shared/schema.ts:26-31 | the shop price passes iff it is a price, a number, "", undefined or null; "" and undefined become undefined, null stays null, a price string is kept and a number becomes its `toFixed(2)` text |
| `ProductSchema.ParseInsert` | src/storage/database/shared/schema.ts:23-32 | a non-object is refused; an object passes iff all three fields pass, and the result carries their values; a refusal lists at least one issue |
| `ProductSchema.ParseUpdate` | src/storage/database/shared/schema.ts:34-43 | every field is optional; a given field must pass the insert rule; a name or supplier price is in the result iff it was given, and the shop price is what the shop price rule gives |
| `ProductSchema.InsertImpliesUpdate` | src/storage/database/shared/schema.ts:23-43 | whatever the insert schema accepts, the update schema accepts with every field given |
| `ProductSchema.NegativeNumberAccepted` | src/storage/database/shared/schema.ts:18-21 | the string "-1" is refused, but the number -1 is accepted as "-1.00" |
| `ProductStorage.ToFileProduct` | src/lib/storage-adapter.ts:86-95 | identity, name, prices and creation time are copied; `updatedAt` is dropped iff it is absent or "" |
| `ProductStorage.ToDbProduct` | src/lib/storage-adapter.ts:98-107 | every field is copied unchanged |
| `ProductStorage.FileRoundTrip` | src/lib/storage-adapter.ts:86-107 | a file record comes back from a row unchanged iff its `updatedAt` is not "" |
| `ProductStorage.DbRoundTrip` | src/lib/storage-adapter.ts:86-107 | a row comes back from a file record unchanged iff its `updatedAt` is not "" |
| `ProductStorage.Lower` | src/lib/storage-adapter.ts:166-168 | lower-casing keeps the length and lower-cases each letter |
| `ProductStorage.LowerIdempotent` | src/lib/storage-adapter.ts:166-168 | lower-casing twice is lower-casing once |
| `ProductStorage.SearchTerm` | src/lib/storage-adapter.ts:165-166 | a search is applied iff it is given and not blank, and its term is the lower-cased, trimmed search |
| `ProductStorage.FilterByName` | src/lib/storage-adapter.ts:167-169 | a record is kept iff its lower-cased name contains the term |
| `ProductStorage.FilterAppend` | src/lib/storage-adapter.ts:167-169 | filtering keeps the list order |
| `ProductStorage.SliceIndex` | src/lib/storage-adapter.ts:173 | a slice bound is clamped into the list, negative bounds counting from the end |
| `ProductStorage.Slice` | src/lib/storage-adapter.ts:173 | a slice holds exactly the records between the clamped start and end (none when the end is not past the start), in order |
| `ProductStorage.SliceInRange` | src/lib/storage-adapter.ts:173 | a page inside the list is exactly the records from `skip` to `skip + limit` |
| `ProductStorage.SliceLastPage` | src/lib/storage-adapter.ts:173 | a page running past the end holds the records from `skip` to the end |
| `ProductStorage.SlicePastEnd` | src/lib/storage-adapter.ts:173 | a page starting at or past the end is empty |
| `ProductStorage.FindIndex` | src/lib/storage-adapter.ts:202 | the index is -1 iff no record has the id, otherwise the first record with it |
| `ProductStorage.NewRecord` | src/lib/storage-adapter.ts:131-137 | the new record has the given id, name, supplier price and time, a shop price only when truthy, and no update time |
| `ProductStorage.Updated` | src/lib/storage-adapter.ts:208-218 | only the given fields change, a falsy shop price clears it, the update time is set, identity and creation time stay |
| `ProductStorage.EmptyUpdateStampsOnly` | src/lib/storage-adapter.ts:208-218 | an update with no fields only sets the update time |
| `ProductStorage.ProductStorageAdapter.constructor` | src/lib/storage-adapter.ts:64-68 | the adapter starts from the stored list |
| `ProductStorage.ProductStorageAdapter.CreateProduct` | src/lib/storage-adapter.ts:129-142 | exactly one record is appended and earlier ones stay; the row returned is that record |
| `ProductStorage.ProductStorageAdapter.Filtered` | src/lib/storage-adapter.ts:162-170 | with a non-blank search the records kept are exactly those whose name matches; otherwise all |
| `ProductStorage.ProductStorageAdapter.GetProducts` | src/lib/storage-adapter.ts:159-175 | the page is `slice(skip, skip + limit)` of the filtered list (defaults skip 0, limit 100): exactly as many records as lie between the clamped bounds, the filtered records from the start index on, as table rows |
| `ProductStorage.ProductStorageAdapter.GetProductById` | src/lib/storage-adapter.ts:187-189 | null iff no record has the id; otherwise the first record with it |
| `ProductStorage.ProductStorageAdapter.UpdateProduct` | src/lib/storage-adapter.ts:201-222 | an unknown id gives null and changes nothing; otherwise only the first record with the id is replaced by its update, and that row is returned |
| `ProductStorage.ProductStorageAdapter.DeleteProduct` | src/lib/storage-adapter.ts:234-244 | true iff some record has the id; then exactly the first such record is removed, otherwise nothing changes |
| `ProductStorage.DeleteKeepsOthers` | src/lib/storage-adapter.ts:241 | removing one record shortens the list by one and keeps the others in order |
| `ProductStorage.UpdateThenFind` | src/lib/storage-adapter.ts:202-218 | after an update, a lookup by the id finds the updated record at the same index |
| `ProductImport.ValidProduct` | src/app/api/products/import/route.ts:6-14 | definition of `validateProduct`: truthy, `name` and `supplierPrice` strings, neither blank after trimming |
| `ProductImport.ValidProductIsObject` | src/app/api/products/import/route.ts:6-14 | only objects with a `name` and a `supplierPrice` pass validation |
| `ProductImport.ValidItems` | src/app/api/products/import/route.ts:66 | the kept items are exactly the valid ones |
| `ProductImport.ValidItemsAppend` | src/app/api/products/import/route.ts:66 | the filter keeps the items' order |
| `ProductImport.InsertData` | src/app/api/products/import/route.ts:82-86 | the data uses the trimmed name and supplier price, the trimmed shop price when truthy, and fails when a truthy shop price is not a string |
| `ProductImport.Step` | src/app/api/products/import/route.ts:81-93 | one item adds exactly one entry: its data to the imported list or a failure naming it |
| `ProductImport.Attempted` | src/app/api/products/import/route.ts:77-94 | imported plus failed is the number of valid items, and every failure is one of them |
| `ProductImport.AttemptedSnoc` | src/app/api/products/import/route.ts:77-94 | attempting one more item is one more turn of the loop |
| `ProductImport.InsertDataIsTrimmed` | src/app/api/products/import/route.ts:82-85 | the data built for a valid item has a trimmed, non-empty name and supplier price |
| `ProductImport.ImportedAreTrimmed` | src/app/api/products/import/route.ts:82-85 | every inserted name and supplier price is trimmed and non-empty |
| `ProductImport.AllAccepted` | src/app/api/products/import/route.ts:77-94 | when every insert succeeds nothing fails and every valid item is imported |
| `ProductImport.InsertAll` | src/app/api/products/import/route.ts:77-94 | the insert loop yields exactly the imported list and the failures of `Attempted` |
| `ProductImport.LooksLikeJson` | src/app/api/products/import/route.ts:33 | definition: the file's type mentions `json` or its name ends in `.json` |
| `ProductImport.SummaryMessage` | src/app/api/products/import/route.ts:100 | definition: the imported count in decimal and, when some failed, the failed count; the digits spell each count by `DecimalDigits` |
| `ProductImport.Post` | src/app/api/products/import/route.ts:17-104 | 400 with its own error kind for no file, a non-JSON file, unparsable JSON, a non-array and no valid item; otherwise the counts of the insert loop, details only when something failed, and the summary message |

## Left out

- The HTTP layer: request and response objects, `NextResponse`, status handling beyond the
  status codes and error kinds modelled, and `console` logging.
- The React UI of the page: rendering, dialogs, alerts, `fetch` calls, and the display
  formatting `formatMoney` and `toFixed(2)`. The page's `toFixed(2)` on the needed discount is
  not applied; `Calculator.CalculatorForm.ApplyDiscountPercentage` stores the exact value.
- Floating point: every amount is an exact `real`. JavaScript's binary floating point and its
  rounding are not modelled.
- `parseFloat` and `parseInt` on the form's text are taken as already applied. The model starts
  from `Option` values, with `None` for text that does not parse.
- Zod's error messages. The calculate route reports its first issue as a `CalcError`, and the
  product schemas report a list of `Issue` codes per field.
- `ProductSchema.FixedTwo` models `toFixed(2)` on exact values. It rounds ties away from zero,
  and it ignores binary representation and the exponent form for values of 10^21 and above.
- String lengths count Unicode scalar values, not UTF-16 code units. The 255-character name
  limit therefore differs for characters outside the Basic Multilingual Plane.
- `ProductStorage.Lower` lower-cases ASCII letters only, not the full Unicode `toLowerCase`.
- The database branch of the storage adapter, and `productManager`, Drizzle and Neon. These
  call code outside this model.
- The file I/O of the adapter (`ensureDataFile`, `readProducts`, `writeProducts`). The list is
  in-memory state, and each operation works on it.
- `generateId` (random) and `new Date().toISOString()`. The id and the time are parameters.
- The insert call of the import route. It is a parameter `insertOk` that says whether the
  k-th attempted insert succeeds.
- `request.formData()`, `file.text()` and `JSON.parse` of the import route. The uploaded file
  arrives with its name, type and parse result.
- The import route's 500 answer for an unexpected exception.
- `CalculateRoute.Post`: the response writes every quote field with `toFixed(2)`, and the maximum
  discount as `Math.max(0, maxDiscount).toFixed(2)`. The model returns the exact values;
  rounding them to two decimals is not modelled.
- `request.json()` failing in `/api/calculate` (a 500). `CalculateRoute.Post` starts from a
  parsed body.
- The server error message of `/api/text-recognize`. It includes the exception's own text;
  `TextRecognize.Message` gives only its fixed prefix.
- The Tesseract worker functions of the OCR module (`getWorker`, `recognizeImage`,
  `cleanupWorker`).
- The remaining routes, database code, migrations, initialisation code, layout and type
  files. These are HTTP plumbing or calls into the database library.
