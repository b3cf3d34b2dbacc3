/** The text-recognition route: it extracts a title, a spec and a price from recognised
    text, looking for the spec and the price on the first line that holds `*` and `g`, and
    falling back to the price above a 供货价 label. */
module TextRecognize {
  import opened Wrappers
  import opened Json
  import opened TextRules
  import LineScan

  /** A title must be longer than this. */
  const TitleMinLength: nat := 5

  /** The spec taken from a `*`-and-`g` line: the leftmost `[^¥\d\s]+(?:\*|×)\d+[g克]`
      match, otherwise the whole line. */
  function SpecOn(line: string): string {
    match Find(SpecToken, line)
    case Some(m) => m
    case None => line
  }

  /** The price taken for the `*`-and-`g` line `k`: a `¥([\d.]+)` match on it, otherwise on
      the line after it. */
  function PriceNear(lines: seq<string>, k: nat): Option<string>
    requires k < |lines|
  {
    if Find(YenAmountTight, lines[k]).Some? then Find(YenAmountTight, lines[k])
    else if k + 1 < |lines| then Find(YenAmountTight, lines[k + 1])
    else None
  }

  /** The fallback price: the `¥` price on the line above the first 供货价 line that has one. */
  function LabelPrice(lines: seq<string>): Option<string> {
    match FirstMatching(lines, LabelBelowPriceRule, 0)
    case Some(k) => Find(YenAmountTight, lines[k - 1])
    case None => None
  }

  /** The spec found by the `*`-and-`g` loop. */
  function StarSpec(lines: seq<string>): Option<string> {
    match FirstMatching(lines, StarAndGRule, 0)
    case Some(k) => Some(SpecOn(lines[k]))
    case None => None
  }

  /** The price found by the `*`-and-`g` loop. */
  function StarPrice(lines: seq<string>): Option<string> {
    match FirstMatching(lines, StarAndGRule, 0)
    case Some(k) => PriceNear(lines, k)
    case None => None
  }

  /** What the extractor returns for the lines of a text. */
  function InfoOf(lines: seq<string>): ProductInfo {
    ProductInfo(
      FirstLine(lines, TitleRule(TitleMinLength)),
      StarSpec(lines),
      if StarPrice(lines).Some? then StarPrice(lines) else LabelPrice(lines))
  }

  /** JavaScript truthiness of a string-or-null. */
  predicate Filled(x: Option<string>) {
    x.Some? && x.value != ""
  }

  /** The loop over the lines that hold `*` and `g`: take the spec and the price of the
      first one and stop, since its spec is always set. */
  method ScanStarLine(lines: seq<string>) returns (spec: Option<string>, price: Option<string>)
    requires forall k :: 0 <= k < |lines| ==> lines[k] != []
    ensures spec == StarSpec(lines) && price == StarPrice(lines)
  {
    spec := None;
    price := None;
    for i := 0 to |lines|
      invariant spec == None && price == None
      invariant forall j :: 0 <= j < i ==> !Holds(StarAndGRule, lines, j)
    {
      var line := lines[i];
      if '*' in line && 'g' in line {
        var specMatch := Find(SpecToken, line);
        if specMatch.Some? {
          spec := specMatch;
          FindIsNonEmpty(SpecToken, line);
        } else if 'g' in line || Gram in line {
          spec := Some(line);
        }
        var currentLinePrice := Find(YenAmountTight, line);
        if currentLinePrice.Some? {
          price := currentLinePrice;
        } else if i + 1 < |lines| {
          var nextLinePrice := Find(YenAmountTight, lines[i + 1]);
          if nextLinePrice.Some? {
            price := nextLinePrice;
          }
        }
        if Filled(spec) || Filled(price) {
          FirstMatchingAt(lines, StarAndGRule, i);
          break;
        }
      }
    }
  }

  /** The fallback loop: stop at the first 供货价 line whose previous line has a `¥` price. */
  method ScanLabelPrice(lines: seq<string>) returns (price: Option<string>)
    ensures price == LabelPrice(lines)
  {
    price := None;
    for i := 0 to |lines|
      invariant price == None
      invariant forall j :: 0 <= j < i ==> !Holds(LabelBelowPriceRule, lines, j)
    {
      var line := lines[i];
      if Includes(line, SupplyPriceLabel) {
        if i - 1 >= 0 {
          var prevLinePrice := Find(YenAmountTight, lines[i - 1]);
          if prevLinePrice.Some? {
            price := prevLinePrice;
            FindAmount(YenAmountTight, lines[i - 1]);
          }
        }
        if Filled(price) {
          FirstMatchingAt(lines, LabelBelowPriceRule, i);
          break;
        }
      }
    }
  }

  /** The title loop, the `*`-and-`g` loop, the 供货价 loop when no price was found, and
      `|| null` on each field. */
  method ExtractProductInfo(text: string) returns (info: ProductInfo)
    ensures info == InfoOf(Lines(text))
  {
    var lines := Lines(text);
    LinesAreLines(text);
    var title := LineScan.ScanTitle(lines, TitleMinLength);
    var spec, price := ScanStarLine(lines);
    if spec.Some? {
      StarSpecIsTokenOrLine(lines);
    }
    if price.Some? {
      StarPriceIsAmount(lines);
    }
    if !Filled(price) {
      price := ScanLabelPrice(lines);
      if price.Some? {
        FindAmount(YenAmountTight, lines[FirstMatching(lines, LabelBelowPriceRule, 0).value - 1]);
      }
    }
    info := ProductInfo(OrNull(title), OrNull(spec), OrNull(price));
  }

  /** The `*`-and-`g` price is a non-empty run of digits and dots. */
  lemma StarPriceIsAmount(lines: seq<string>)
    requires StarPrice(lines).Some?
    ensures |StarPrice(lines).value| > 0 && AllInClass(StarPrice(lines).value, DigitsOrDots)
  {
    var k := FirstMatching(lines, StarAndGRule, 0).value;
    if Find(YenAmountTight, lines[k]).Some? {
      FindAmount(YenAmountTight, lines[k]);
    } else {
      FindAmount(YenAmountTight, lines[k + 1]);
    }
  }

  /** The spec is the spec token of the first `*`-and-`g` line when it has one, otherwise
      that whole line; either way it is a non-empty piece of that line. */
  lemma StarSpecIsTokenOrLine(lines: seq<string>)
    requires forall k :: 0 <= k < |lines| ==> lines[k] != []
    requires StarSpec(lines).Some?
    ensures var k := FirstMatching(lines, StarAndGRule, 0).value;
      var c := StarSpec(lines).value;
      && c != []
      && (Find(SpecToken, lines[k]).Some? ==> c == Find(SpecToken, lines[k]).value)
      && (Find(SpecToken, lines[k]).None? ==> c == lines[k])
  {
    var k := FirstMatching(lines, StarAndGRule, 0).value;
    if Find(SpecToken, lines[k]).Some? {
      FindIsNonEmpty(SpecToken, lines[k]);
    }
  }

  /** There is a spec exactly when some line holds both `*` and `g`. */
  lemma SpecIffStarLine(lines: seq<string>)
    ensures InfoOf(lines).spec.Some? <==> exists k :: 0 <= k < |lines| && '*' in lines[k] && 'g' in lines[k]
  {
    match FirstMatching(lines, StarAndGRule, 0)
    case Some(k) =>
      assert Holds(StarAndGRule, lines, k);
    case None =>
      forall k | 0 <= k < |lines| ensures !('*' in lines[k] && 'g' in lines[k]) {
        assert !Holds(StarAndGRule, lines, k);
      }
  }

  /** Every price this route reports is the `[\d.]+` run right after a `¥` on some line:
      a non-empty run of digits and dots. */
  lemma PriceFollowsYen(lines: seq<string>) returns (k: nat)
    requires InfoOf(lines).price.Some?
    ensures k < |lines| && Find(YenAmountTight, lines[k]) == InfoOf(lines).price
    ensures |InfoOf(lines).price.value| > 0 && AllInClass(InfoOf(lines).price.value, DigitsOrDots)
  {
    if StarPrice(lines).Some? {
      var s := FirstMatching(lines, StarAndGRule, 0).value;
      k := if Find(YenAmountTight, lines[s]).Some? then s else s + 1;
    } else {
      k := FirstMatching(lines, LabelBelowPriceRule, 0).value - 1;
    }
    FindAmount(YenAmountTight, lines[k]);
  }

  /** The fallback is only consulted when the `*`-and-`g` loop found no price, and then a
      price is found exactly when some 供货价 line follows a line with a `¥` price. */
  lemma FallbackPrice(lines: seq<string>)
    requires StarPrice(lines).None?
    ensures InfoOf(lines).price.Some? <==>
      exists k :: 1 <= k < |lines| && Includes(lines[k], SupplyPriceLabel) && Find(YenAmountTight, lines[k - 1]).Some?
  {
    match FirstMatching(lines, LabelBelowPriceRule, 0)
    case Some(k) =>
      assert Holds(LabelBelowPriceRule, lines, k);
    case None =>
      forall k | 1 <= k < |lines|
        ensures !(Includes(lines[k], SupplyPriceLabel) && Find(YenAmountTight, lines[k - 1]).Some?)
      {
        assert !Holds(LabelBelowPriceRule, lines, k);
      }
  }

  /** Why a request is refused. */
  datatype RecognizeError =
    | NoText       // `text` missing or falsy: 请提供文字内容
    | NotAString   // `text` truthy but not a string: 文字格式不正确
    | ServerError  // unreadable JSON or a `null` body, caught as 文字识别失败

  datatype Response = Recognized(info: ProductInfo) | Failed(status: int, error: RecognizeError)

  /** The error message each refusal carries (the server error also carries the exception's
      own message, which is left out). */
  function Message(e: RecognizeError): string {
    match e
    case NoText => "请提供文字内容"
    case NotAString => "文字格式不正确"
    case ServerError => "文字识别失败"
  }

  /** `POST` on a request body; `None` is a body that is not JSON.  Destructuring `text` out
      of `null` throws and is answered with 500; a falsy `text` gets 400, a non-string one
      400, and a string is extracted from. */
  method Post(body: Option<JsValue>) returns (r: Response)
    ensures (body.None? || !Readable(body.value)) <==> r == Failed(500, ServerError)
    ensures body.Some? && Readable(body.value) && !Truthy(Field(body.value, "text")) ==> r == Failed(400, NoText)
    ensures body.Some? && Readable(body.value) && Truthy(Field(body.value, "text")) && !Field(body.value, "text").Str? ==>
      r == Failed(400, NotAString)
    ensures r.Recognized? <==> body.Some? && Readable(body.value) && Truthy(Field(body.value, "text")) && Field(body.value, "text").Str?
    ensures r.Recognized? ==> r.info == InfoOf(Lines(Field(body.value, "text").s))
  {
    if body.None? || !Readable(body.value) {
      return Failed(500, ServerError);
    }
    var text := Field(body.value, "text");
    if !Truthy(text) {
      return Failed(400, NoText);
    }
    if !text.Str? {
      return Failed(400, NotAString);
    }
    var info := ExtractProductInfo(text.s);
    r := Recognized(info);
  }
}
