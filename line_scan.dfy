/** The three line-scanning loops the extractors share: the title loop, the price loop and
    a loop that stops at the first line a rule accepts.  Each is proved to end with what the
    corresponding first-match function of `TextRules` describes. */
module LineScan {
  import opened Wrappers
  import opened TextRules

  /** The title loop: skip lines with `¥` or `元` and all-digit lines, take the first line
      longer than `minLength` that holds a CJK character. */
  method ScanTitle(lines: seq<string>, minLength: nat) returns (title: Option<string>)
    ensures title == FirstLine(lines, TitleRule(minLength))
    ensures title.Some? ==> IsTitleLine(title.value, minLength) && title.value in lines
  {
    title := None;
    for i := 0 to |lines|
      invariant title == None
      invariant forall j :: 0 <= j < i ==> !Holds(TitleRule(minLength), lines, j)
    {
      var line := lines[i];
      if Yen in line || Yuan in line || AllDigits(line) {
        continue;
      }
      if |line| > minLength && HasCjk(line) {
        title := Some(line);
        FirstMatchingAt(lines, TitleRule(minLength), i);
        break;
      }
    }
  }

  /** The price loop: on each line try the `yen` rule, then the `yuan` rule, then, on a
      labelled line, a number on the line or on the next one; stop at the first hit. */
  method ScanPrice(lines: seq<string>, rules: PriceRules) returns (price: Option<string>)
    ensures price == FirstPrice(lines, rules)
  {
    price := None;
    for i := 0 to |lines|
      invariant price == None
      invariant forall j :: 0 <= j < i ==> !Holds(PriceRule(rules), lines, j)
    {
      var line := lines[i];
      var priceMatch := Find(rules.yen, line);
      if priceMatch.Some? {
        price := priceMatch;
        FirstMatchingAt(lines, PriceRule(rules), i);
        break;
      }
      var yuanMatch := Find(rules.yuan, line);
      if yuanMatch.Some? {
        price := yuanMatch;
        FirstMatchingAt(lines, PriceRule(rules), i);
        break;
      }
      if Includes(line, SupplyPriceLabel) || Includes(line, PriceLabel) {
        var currentPrice := Find(rules.number, line);
        if currentPrice.Some? {
          price := currentPrice;
          FirstMatchingAt(lines, PriceRule(rules), i);
          break;
        }
        if i + 1 < |lines| {
          var nextPrice := Find(rules.number, lines[i + 1]);
          if nextPrice.Some? {
            price := nextPrice;
            FirstMatchingAt(lines, PriceRule(rules), i);
            break;
          }
        }
      }
    }
  }

  /** A loop that takes the first line `rule` accepts and stops there. */
  method ScanLine(lines: seq<string>, rule: LineRule) returns (found: Option<string>)
    ensures found == FirstLine(lines, rule)
    ensures found.Some? ==> exists k :: 0 <= k < |lines| && lines[k] == found.value && Holds(rule, lines, k)
  {
    found := None;
    for i := 0 to |lines|
      invariant found == None
      invariant forall j :: 0 <= j < i ==> !Holds(rule, lines, j)
    {
      if Holds(rule, lines, i) {
        found := Some(lines[i]);
        FirstMatchingAt(lines, rule, i);
        break;
      }
    }
  }
}
