/** The browser-side extractor of the calculator page: it reads a pasted product
    description and picks out a title, a price and a spec line, each `null` when absent. */
module PageExtract {
  import opened Wrappers
  import opened TextRules
  import LineScan

  /** The price rules of this extractor: `/¥\s*([\d.]+)/`, `/([\d.]+)\s*元/`, `/([\d.]+)/`. */
  const PageRules := PriceRules(YenAmount, AmountYuan, Amount)
  /** A title must be longer than this. */
  const TitleMinLength: nat := 5

  /** What the extractor returns for the lines of a text. */
  function InfoOf(lines: seq<string>): ProductInfo {
    ProductInfo(FirstLine(lines, TitleRule(TitleMinLength)), FirstLine(lines, LooseSpecRule), FirstPrice(lines, PageRules))
  }

  /** Split into trimmed non-empty lines, then the title, price and spec loops, then
      `|| null` on each field. */
  method ExtractProductInfo(text: string) returns (info: ProductInfo)
    ensures info == InfoOf(Lines(text))
  {
    var lines := Lines(text);
    LinesAreLines(text);
    var title := LineScan.ScanTitle(lines, TitleMinLength);
    var price := LineScan.ScanPrice(lines, PageRules);
    var spec := LineScan.ScanLine(lines, LooseSpecRule);
    if price.Some? {
      AmountPrice(lines, PageRules);
    }
    info := ProductInfo(OrNull(title), OrNull(spec), OrNull(price));
  }

  /** The title is the first title line: it has no `¥` or `元`, is not all digits, is longer
      than five characters and holds a CJK character, and no earlier line is such a line;
      there is no title exactly when no line qualifies. */
  lemma TitleIsFirstTitleLine(lines: seq<string>)
    ensures InfoOf(lines).title.None? <==> forall k :: 0 <= k < |lines| ==> !IsTitleLine(lines[k], TitleMinLength)
    ensures InfoOf(lines).title.Some? ==>
      exists k :: 0 <= k < |lines| && lines[k] == InfoOf(lines).title.value && IsTitleLine(lines[k], TitleMinLength)
        && forall j :: 0 <= j < k ==> !IsTitleLine(lines[j], TitleMinLength)
  {
    match FirstMatching(lines, TitleRule(TitleMinLength), 0)
    case Some(k) =>
      forall j | 0 <= j < k ensures !IsTitleLine(lines[j], TitleMinLength) {
        assert !Holds(TitleRule(TitleMinLength), lines, j);
      }
      assert Holds(TitleRule(TitleMinLength), lines, k);
    case None =>
      forall k | 0 <= k < |lines| ensures !IsTitleLine(lines[k], TitleMinLength) {
        assert !Holds(TitleRule(TitleMinLength), lines, k);
      }
  }

  /** The spec is a whole line holding `*` or `×` and `g` or `克`, and it is `null` exactly
      when no line holds both. */
  lemma SpecIsLooseSpecLine(lines: seq<string>)
    ensures InfoOf(lines).spec.None? <==>
      forall k :: 0 <= k < |lines| ==> !(('*' in lines[k] || Times in lines[k]) && ('g' in lines[k] || Gram in lines[k]))
    ensures var s := InfoOf(lines).spec;
      s.Some? ==> s.value in lines && ('*' in s.value || Times in s.value) && ('g' in s.value || Gram in s.value)
  {
    match FirstMatching(lines, LooseSpecRule, 0)
    case Some(k) =>
      assert Holds(LooseSpecRule, lines, k);
    case None =>
      forall k | 0 <= k < |lines|
        ensures !(('*' in lines[k] || Times in lines[k]) && ('g' in lines[k] || Gram in lines[k]))
      {
        assert !Holds(LooseSpecRule, lines, k);
      }
  }

  /** The price is a non-empty run of digits and dots cut out of one of the lines. */
  lemma PriceIsDigitsAndDots(lines: seq<string>) returns (k: nat, a: nat)
    requires InfoOf(lines).price.Some?
    ensures var p := InfoOf(lines).price.value;
      |p| > 0 && AllInClass(p, DigitsOrDots)
    ensures var p := InfoOf(lines).price.value;
      k < |lines| && a + |p| <= |lines[k]| && lines[k][a..a + |p|] == p
  {
    AmountPrice(lines, PageRules);
    var i := FirstMatching(lines, PriceRule(PageRules), 0).value;
    var line := lines[i];
    if Find(YenAmount, line).Some? {
      k := i;
      a := FindIsSubstring(YenAmount, line);
    } else if Find(AmountYuan, line).Some? {
      k := i;
      a := FindIsSubstring(AmountYuan, line);
    } else if Find(Amount, line).Some? {
      k := i;
      a := FindIsSubstring(Amount, line);
    } else {
      k := i + 1;
      a := FindIsSubstring(Amount, lines[k]);
    }
  }

  /** `[\d.]+` also matches a lone dot: a line `¥.` yields the price ".". */
  lemma LoneDotPrice()
    ensures InfoOf(Lines("¥.")).price == Some(".")
  {
    var line := "¥.";
    assert IsLine(line);
    LinesOfJoinedLines([line]);
    assert Join([line], '\n') == line;
    assert line[0] == Yen && line[1] == '.';
    assert RunEnd(line, 1, Whites) == 1;
    assert RunEnd(line, 2, DigitsOrDots) == 2;
    assert RunEnd(line, 1, DigitsOrDots) == 2;
    assert line[1..2] == ".";
    assert MatchAt(YenAmount, line, 0) == Some(".");
    assert PriceAt([line], 0, PageRules) == Some(".");
  }
}
