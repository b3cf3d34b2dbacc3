/** The parser of OCR output: it reads a product name, a supply price and a specification
    from recognised text, each the empty string when absent. */
module OcrText {
  import opened Wrappers
  import opened TextRules
  import LineScan
  import PageExtract

  /** The parsed fields; a field not found is "". */
  datatype OcrResult = OcrResult(productName: string, supplyPrice: string, specification: string)

  /** The price rules of this parser: `/[¥￥]\s*(\d+\.?\d*)/`, `/(\d+\.?\d*)\s*元/`,
      `/(\d+\.?\d*)/`. */
  const OcrRules := PriceRules(YenDecimal, DecimalYuan, Decimal)
  /** A product name must be longer than this. */
  const NameMinLength: nat := 3

  /** A field that starts out as "" and is overwritten when found. */
  function OrEmpty(x: Option<string>): (r: string)
    ensures x.None? ==> r == ""
    ensures x.Some? ==> r == x.value
  {
    match x
    case Some(v) => v
    case None => ""
  }

  /** What the parser returns for the lines of a text. */
  function ParsedOf(lines: seq<string>): OcrResult {
    OcrResult(
      OrEmpty(FirstLine(lines, TitleRule(NameMinLength))),
      OrEmpty(FirstPrice(lines, OcrRules)),
      OrEmpty(FirstLine(lines, SpecWeightRule)))
  }

  /** Split into trimmed non-empty lines, then the name, price and specification loops. */
  method ParseOcrText(text: string) returns (r: OcrResult)
    ensures r == ParsedOf(Lines(text))
  {
    var lines := Lines(text);
    var productName := LineScan.ScanTitle(lines, NameMinLength);
    var supplyPrice := LineScan.ScanPrice(lines, OcrRules);
    var specification := LineScan.ScanLine(lines, SpecWeightRule);
    r := OcrResult(OrEmpty(productName), OrEmpty(supplyPrice), OrEmpty(specification));
  }

  /** The product name is non-empty exactly when some line is a title line with the lower
      threshold of three characters, and then it is the first such line. */
  lemma NameIsFirstTitleLine(lines: seq<string>)
    ensures ParsedOf(lines).productName != "" <==> exists k :: 0 <= k < |lines| && IsTitleLine(lines[k], NameMinLength)
    ensures ParsedOf(lines).productName != "" ==>
      exists k :: 0 <= k < |lines| && lines[k] == ParsedOf(lines).productName && IsTitleLine(lines[k], NameMinLength)
        && forall j :: 0 <= j < k ==> !IsTitleLine(lines[j], NameMinLength)
  {
    match FirstMatching(lines, TitleRule(NameMinLength), 0)
    case Some(k) =>
      forall j | 0 <= j < k ensures !IsTitleLine(lines[j], NameMinLength) {
        assert !Holds(TitleRule(NameMinLength), lines, j);
      }
      assert Holds(TitleRule(NameMinLength), lines, k);
    case None =>
      forall k | 0 <= k < |lines| ensures !IsTitleLine(lines[k], NameMinLength) {
        assert !Holds(TitleRule(NameMinLength), lines, k);
      }
  }

  /** Whenever the page's extractor finds a title in some lines, this parser finds a name in
      them too, on the same line or an earlier one (its threshold is lower). */
  lemma PageTitleImpliesName(lines: seq<string>)
    requires PageExtract.InfoOf(lines).title.Some?
    ensures ParsedOf(lines).productName != ""
    ensures var k := FirstMatching(lines, TitleRule(NameMinLength), 0);
      k.Some? && k.value <= FirstMatching(lines, TitleRule(PageExtract.TitleMinLength), 0).value
  {
    LowerThresholdFindsEarlier(lines, NameMinLength, PageExtract.TitleMinLength);
    var k := FirstMatching(lines, TitleRule(NameMinLength), 0).value;
    assert IsTitleLine(lines[k], NameMinLength);
  }

  /** The supply price is "" or starts with a digit and has at most one dot: never "." alone. */
  lemma PriceIsDecimal(lines: seq<string>)
    ensures var p := ParsedOf(lines).supplyPrice;
      p == "" || (IsDecimalText(p) && p != ".")
  {
    if FirstPrice(lines, OcrRules).Some? {
      DecimalPrice(lines, OcrRules);
    }
  }

  /** The specification is non-empty exactly when some line matches `[*×]\s*\d+\s*[gG克]`,
      and then it is the first such line. */
  lemma SpecificationIsWeightLine(lines: seq<string>)
    requires forall k :: 0 <= k < |lines| ==> lines[k] != []
    ensures ParsedOf(lines).specification != "" <==> exists k :: 0 <= k < |lines| && Find(SpecWeight, lines[k]).Some?
    ensures ParsedOf(lines).specification != "" ==> Find(SpecWeight, ParsedOf(lines).specification).Some?
    ensures ParsedOf(lines).specification != "" ==>
      && FirstMatching(lines, SpecWeightRule, 0).Some?
      && var k := FirstMatching(lines, SpecWeightRule, 0).value;
      && ParsedOf(lines).specification == lines[k]
      && forall j :: 0 <= j < k ==> Find(SpecWeight, lines[j]).None?
  {
    match FirstMatching(lines, SpecWeightRule, 0)
    case Some(k) =>
      assert Holds(SpecWeightRule, lines, k);
      forall j | 0 <= j < k ensures Find(SpecWeight, lines[j]).None? {
        assert !Holds(SpecWeightRule, lines, j);
      }
    case None =>
      forall k | 0 <= k < |lines| ensures Find(SpecWeight, lines[k]).None? {
        assert !Holds(SpecWeightRule, lines, k);
      }
  }

  /** Unlike the page's `¥` rule, this parser accepts the full-width `￥`: the line `￥8`
      gives the supply price "8", where the page extractor finds no price. */
  lemma FullWidthYenPrice()
    ensures ParsedOf(["￥8"]).supplyPrice == "8"
    ensures PageExtract.InfoOf(["￥8"]).price.None?
  {
    var line := "￥8";
    assert line[0] == FullWidthYen && line[1] == '8';
    assert RunEnd(line, 1, Whites) == 1;
    assert RunEnd(line, 1, Digits) == 2;
    assert DecimalEnd(line, 1) == 2;
    assert line[1..2] == "8";
    assert MatchAt(YenDecimal, line, 0) == Some("8");
    assert PriceAt([line], 0, OcrRules) == Some("8");
    assert RunEnd(line, 0, DigitsOrDots) == 0;
    assert RunEnd(line, 2, DigitsOrDots) == 2;
    assert RunEnd(line, 1, DigitsOrDots) == 2;
    assert RunEnd(line, 2, Whites) == 2;
    assert MatchAt(YenAmount, line, 0).None? && MatchAt(YenAmount, line, 1).None? && MatchAt(YenAmount, line, 2).None?;
    assert Find(YenAmount, line).None?;
    assert MatchAt(AmountYuan, line, 0).None? && MatchAt(AmountYuan, line, 1).None? && MatchAt(AmountYuan, line, 2).None?;
    assert Find(AmountYuan, line).None?;
    assert !Includes(line, SupplyPriceLabel) && !Includes(line, PriceLabel);
    assert PriceAt([line], 0, PageExtract.PageRules).None?;
  }
}
