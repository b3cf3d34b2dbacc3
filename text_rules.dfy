/** The string machinery shared by the three free-text product extractors: splitting into
    lines, JavaScript's `trim`, the character classes their regular expressions use, the
    regular expressions themselves as match-at-a-position functions with a leftmost search,
    and the per-line rules the extractors scan for. */
module TextRules {
  import opened Wrappers

  // ---------------------------------------------------------------------------------------
  // Characters

  const Yen: char := '¥'            // U+00A5
  const FullWidthYen: char := '￥'   // U+FFE5
  const Yuan: char := '元'           // U+5143
  const Times: char := '×'          // U+00D7
  const Gram: char := '克'           // U+514B
  /** The "supply price" label. */
  const SupplyPriceLabel: string := "供货价"
  /** The "price" label. */
  const PriceLabel: string := "价格"

  /** ECMAScript WhiteSpace and LineTerminator code points: the set both `String.prototype.trim`
      and the regular-expression class `\s` use. */
  predicate IsWhite(c: char) {
    c == '\t' || c == '\n' || c == '\U{B}' || c == '\U{C}' || c == '\r' || c == ' '
    || c == '\U{A0}' || c == '\U{1680}' || ('\U{2000}' <= c <= '\U{200A}')
    || c == '\U{2028}' || c == '\U{2029}' || c == '\U{202F}' || c == '\U{205F}'
    || c == '\U{3000}' || c == '\U{FEFF}'
  }

  /** `\d` without the `u` flag: ASCII digits only. */
  predicate IsDigit(c: char) {
    '0' <= c <= '9'
  }

  /** The class `[一-龥]` (CJK unified ideographs as far as U+9FA5). */
  predicate IsCjk(c: char) {
    '\U{4E00}' <= c <= '\U{9FA5}'
  }

  /** The character classes that appear under a repetition operator in the extractors' patterns. */
  datatype CharClass =
    | Digits          // \d
    | DigitsOrDots    // [\d.]
    | Whites          // \s
    | SpecNameChars   // [^¥\d\s]

  predicate InClass(c: char, k: CharClass) {
    match k
    case Digits => IsDigit(c)
    case DigitsOrDots => IsDigit(c) || c == '.'
    case Whites => IsWhite(c)
    case SpecNameChars => c != Yen && !IsDigit(c) && !IsWhite(c)
  }

  /** The end of the longest run of class-`k` characters starting at `i`: where a greedy
      `k*` starting at `i` stops. */
  function RunEnd(s: string, i: nat, k: CharClass): (j: nat)
    requires i <= |s|
    ensures i <= j <= |s|
    ensures forall t :: i <= t < j ==> InClass(s[t], k)
    ensures j < |s| ==> !InClass(s[j], k)
    decreases |s| - i
  {
    if i < |s| && InClass(s[i], k) then RunEnd(s, i + 1, k) else i
  }

  predicate AllInClass(s: string, k: CharClass) {
    forall t :: 0 <= t < |s| ==> InClass(s[t], k)
  }

  /** The test `/^\d+$/`. */
  predicate AllDigits(s: string) {
    |s| > 0 && AllInClass(s, Digits)
  }

  /** The test `/[一-龥]/`. */
  predicate HasCjk(s: string) {
    exists t :: 0 <= t < |s| && IsCjk(s[t])
  }

  /** `s.includes(pat)`. */
  predicate Includes(s: string, pat: string)
    decreases |s|
  {
    if |s| < |pat| then false
    else s[..|pat|] == pat || Includes(s[1..], pat)
  }

  /** `s.endsWith(pat)`. */
  predicate EndsWith(s: string, pat: string) {
    |pat| <= |s| && s[|s| - |pat|..] == pat
  }

  // ---------------------------------------------------------------------------------------
  // Lines

  /** `s.split(sep)`: the pieces between separators, always at least one. */
  function Split(s: string, sep: char): (r: seq<string>)
    ensures |r| >= 1
    ensures forall k :: 0 <= k < |r| ==> sep !in r[k]
    decreases |s|
  {
    if s == [] then [[]]
    else
      var rest := Split(s[1..], sep);
      if s[0] == sep then [[]] + rest
      else [[s[0]] + rest[0]] + rest[1..]
  }

  /** `parts.join([sep])`. */
  function Join(parts: seq<string>, sep: char): string
    decreases |parts|
  {
    if parts == [] then []
    else if |parts| == 1 then parts[0]
    else parts[0] + [sep] + Join(parts[1..], sep)
  }

  /** Splitting and re-joining on the same separator gives the text back. */
  lemma {:induction false} JoinSplit(s: string, sep: char)
    ensures Join(Split(s, sep), sep) == s
    decreases |s|
  {
    if s != [] {
      var rest := Split(s[1..], sep);
      JoinSplit(s[1..], sep);
      if s[0] == sep {
        assert Split(s, sep) == [[]] + rest;
        assert Join([[]] + rest, sep) == [] + [sep] + Join(rest, sep);
      } else {
        var parts := [[s[0]] + rest[0]] + rest[1..];
        assert Split(s, sep) == parts;
        if |rest| == 1 {
          assert Join(parts, sep) == [s[0]] + rest[0];
        } else {
          assert Join(rest, sep) == rest[0] + [sep] + Join(rest[1..], sep);
          assert parts[1..] == rest[1..];
          assert Join(parts, sep) == ([s[0]] + rest[0]) + [sep] + Join(rest[1..], sep);
        }
      }
    }
  }

  /** Joining pieces that contain no separator and splitting again gives the pieces back. */
  lemma {:induction false} SplitJoin(parts: seq<string>, sep: char)
    requires parts != []
    requires forall k :: 0 <= k < |parts| ==> sep !in parts[k]
    ensures Split(Join(parts, sep), sep) == parts
    decreases |parts|, |parts[0]|
  {
    var p := parts[0];
    if p != [] {
      var tail := [p[1..]] + parts[1..];
      assert forall k :: 0 <= k < |tail| ==> sep !in tail[k] by {
        forall k | 0 <= k < |tail| ensures sep !in tail[k] {
          if k == 0 {
            assert forall t :: 0 <= t < |p[1..]| ==> p[1..][t] == p[t + 1];
          } else {
            assert tail[k] == parts[k];
          }
        }
      }
      SplitJoin(tail, sep);
      assert tail[1..] == parts[1..];
      if |parts| == 1 {
        assert Join(parts, sep) == p;
        assert Join(tail, sep) == p[1..];
      } else {
        assert Join(parts, sep) == p + [sep] + Join(parts[1..], sep);
        assert Join(tail, sep) == p[1..] + [sep] + Join(parts[1..], sep);
      }
      assert Join(parts, sep) == [p[0]] + Join(tail, sep);
      assert Join(parts, sep)[1..] == Join(tail, sep);
      assert Join(parts, sep)[0] == p[0];
      assert [p[0]] + p[1..] == p;
      assert [[p[0]] + p[1..]] + parts[1..] == parts;
    } else if |parts| > 1 {
      SplitJoin(parts[1..], sep);
      assert Join(parts, sep) == [sep] + Join(parts[1..], sep);
      assert Join(parts, sep)[1..] == Join(parts[1..], sep);
      assert [[]] + parts[1..] == parts;
    } else {
      assert Join(parts, sep) == [];
    }
  }

  /** Where `trim` starts keeping characters. */
  function TrimStart(s: string): nat {
    RunEnd(s, 0, Whites)
  }

  /** The end of `s[..j]` once trailing white space is dropped. */
  function TrimEnd(s: string, j: nat): (e: nat)
    requires j <= |s|
    ensures e <= j
    ensures forall t :: e <= t < j ==> IsWhite(s[t])
    ensures e > 0 ==> !IsWhite(s[e - 1])
    decreases j
  {
    if j > 0 && IsWhite(s[j - 1]) then TrimEnd(s, j - 1) else j
  }

  /** `s.trim()`. */
  function Trim(s: string): (r: string)
    ensures TrimStart(s) + |r| <= |s|
    ensures r == s[TrimStart(s)..TrimStart(s) + |r|]
    ensures forall t :: 0 <= t < TrimStart(s) ==> IsWhite(s[t])
    ensures forall t :: TrimStart(s) + |r| <= t < |s| ==> IsWhite(s[t])
    ensures IsTrimmed(r)
  {
    var a := TrimStart(s);
    var rest := s[a..];
    var e := TrimEnd(rest, |rest|);
    assert forall t :: e <= t < |rest| ==> rest[t] == s[a + t];
    rest[..e]
  }

  /** No white space at either end. */
  predicate IsTrimmed(s: string) {
    s == [] || (!IsWhite(s[0]) && !IsWhite(s[|s| - 1]))
  }

  /** `parts.map(line => line.trim()).filter(line => line.length > 0)`. */
  function TrimmedNonEmpty(parts: seq<string>): (r: seq<string>)
    ensures |r| <= |parts|
    ensures forall k :: 0 <= k < |r| ==> r[k] != [] && IsTrimmed(r[k])
    decreases |parts|
  {
    if parts == [] then []
    else
      var t := Trim(parts[0]);
      (if t == [] then [] else [t]) + TrimmedNonEmpty(parts[1..])
  }

  /** Trimming and dropping empty pieces works piece by piece, so it keeps their order. */
  lemma {:induction false} TrimmedNonEmptyAppend(a: seq<string>, b: seq<string>)
    ensures TrimmedNonEmpty(a + b) == TrimmedNonEmpty(a) + TrimmedNonEmpty(b)
    decreases |a|
  {
    if a == [] {
      assert a + b == b;
    } else {
      assert (a + b)[0] == a[0];
      assert (a + b)[1..] == a[1..] + b;
      TrimmedNonEmptyAppend(a[1..], b);
    }
  }

  /** One piece gives its trimmed text, or nothing when that is empty. */
  lemma TrimmedNonEmptySingle(p: string)
    ensures TrimmedNonEmpty([p]) == (if Trim(p) == "" then [] else [Trim(p)])
  {
    assert [p][1..] == [];
  }

  /** The lines every extractor works on: `text.split('\n')`, trimmed, empty ones dropped. */
  function Lines(text: string): seq<string> {
    TrimmedNonEmpty(Split(text, '\n'))
  }

  /** A well-formed line: what `Lines` produces. */
  predicate IsLine(line: string) {
    line != [] && IsTrimmed(line) && '\n' !in line
  }

  /** Every extracted line is non-empty, trimmed and free of line breaks. */
  lemma {:induction false} LinesAreLines(text: string)
    ensures forall k :: 0 <= k < |Lines(text)| ==> IsLine(Lines(text)[k])
  {
    TrimmedNonEmptyKeepsSep(Split(text, '\n'));
  }

  lemma {:induction false} TrimmedNonEmptyKeepsSep(parts: seq<string>)
    requires forall k :: 0 <= k < |parts| ==> '\n' !in parts[k]
    ensures forall k :: 0 <= k < |TrimmedNonEmpty(parts)| ==> '\n' !in TrimmedNonEmpty(parts)[k]
    decreases |parts|
  {
    if parts != [] {
      var t := Trim(parts[0]);
      var p := parts[0];
      assert '\n' !in t by {
        forall t0 | 0 <= t0 < |t| ensures t[t0] != '\n' {
          assert t[t0] == p[TrimStart(p) + t0];
        }
      }
      TrimmedNonEmptyKeepsSep(parts[1..]);
    }
  }

  /** Trimming an already trimmed string changes nothing. */
  lemma TrimTrimmed(s: string)
    requires IsTrimmed(s)
    ensures Trim(s) == s
  {
    if s != [] {
      assert TrimStart(s) == 0;
      var r := Trim(s);
      assert !IsWhite(s[|s| - 1]);
    } else {
      assert |Trim(s)| == 0;
    }
  }

  lemma {:induction false} TrimmedNonEmptyOfLines(lines: seq<string>)
    requires forall k :: 0 <= k < |lines| ==> IsLine(lines[k])
    ensures TrimmedNonEmpty(lines) == lines
    decreases |lines|
  {
    if lines != [] {
      TrimTrimmed(lines[0]);
      TrimmedNonEmptyOfLines(lines[1..]);
      assert [lines[0]] + lines[1..] == lines;
    }
  }

  /** Line extraction is idempotent: joining extracted lines with line breaks and extracting
      again gives the same lines. */
  lemma LinesOfJoinedLines(lines: seq<string>)
    requires forall k :: 0 <= k < |lines| ==> IsLine(lines[k])
    ensures Lines(Join(lines, '\n')) == lines
  {
    if lines == [] {
      assert Join(lines, '\n') == [];
      assert Split([], '\n') == [[]];
      assert Trim([]) == [];
      assert TrimmedNonEmpty([[]]) == [] + TrimmedNonEmpty([]);
    } else {
      SplitJoin(lines, '\n');
      TrimmedNonEmptyOfLines(lines);
    }
  }

  // ---------------------------------------------------------------------------------------
  // Regular expressions

  /** The nine regular expressions of the extractors.  `MatchAt` gives, for a match that
      starts at a given position, the text the extractor reads from it (the first capture
      group, or the whole match for the two patterns without one). */
  datatype Pattern =
    | YenAmount        // /¥\s*([\d.]+)/
    | AmountYuan       // /([\d.]+)\s*元/
    | Amount           // /([\d.]+)/
    | YenAmountTight   // /¥([\d.]+)/
    | SpecToken        // /[^¥\d\s]+(?:\*|×)\d+[g克]/
    | YenDecimal       // /[¥￥]\s*(\d+\.?\d*)/
    | DecimalYuan      // /(\d+\.?\d*)\s*元/
    | Decimal          // /(\d+\.?\d*)/
    | SpecWeight       // /[*×]\s*\d+\s*[gG克]/

  /** Where the greedy `\d+\.?\d*` started at the digit `s[i]` stops. */
  function DecimalEnd(s: string, i: nat): (j: nat)
    requires i < |s| && IsDigit(s[i])
    ensures i < j <= |s|
    ensures IsDecimalText(s[i..j])
  {
    var a := RunEnd(s, i, Digits);
    if a < |s| && s[a] == '.' then
      var b := RunEnd(s, a + 1, Digits);
      assert forall t :: i <= t < b && t != a ==> IsDigit(s[t]);
      b
    else a
  }

  /** The greedy match cannot be extended: no longer slice from `i` is decimal text. */
  lemma DecimalEndIsGreedy(s: string, i: nat)
    requires i < |s| && IsDigit(s[i])
    ensures forall e :: DecimalEnd(s, i) < e <= |s| ==> !IsDecimalText(s[i..e])
  {
    var j := DecimalEnd(s, i);
    var a := RunEnd(s, i, Digits);
    forall e | j < e <= |s|
      ensures !IsDecimalText(s[i..e])
    {
      var c := s[i..e];
      assert c[j - i] == s[j];
      if InClass(s[j], DigitsOrDots) {
        assert s[j] == '.';
        assert a < |s| && s[a] == '.';
        assert a < j;
        assert c[a - i] == '.';
      }
    }
  }

  /** What `\d+\.?\d*` matches: a digit first, then digits with at most one dot. */
  predicate IsDecimalText(c: string) {
    && |c| > 0
    && IsDigit(c[0])
    && AllInClass(c, DigitsOrDots)
    && forall t, u :: 0 <= t < u < |c| && c[t] == '.' ==> c[u] != '.'
  }

  /** The match of `p` starting exactly at position `i` of `s`, if there is one.
      Every repetition below can be read greedily: in each pattern the class under a
      repetition is disjoint from whatever must follow it, so backtracking into a shorter
      repetition never produces a match (for `[^¥\d\s]+`, which does contain `*` and `×`, the
      digit that must follow the `*`/`×` pins its end to the end of the run). */
  function MatchAt(p: Pattern, s: string, i: nat): (r: Option<string>)
    requires i <= |s|
  {
    match p
    case YenAmount =>
      if i < |s| && s[i] == Yen then
        var k := RunEnd(s, i + 1, Whites);
        var e := RunEnd(s, k, DigitsOrDots);
        if e > k then Some(s[k..e]) else None
      else None
    case AmountYuan =>
      var e := RunEnd(s, i, DigitsOrDots);
      var k := RunEnd(s, e, Whites);
      if e > i && k < |s| && s[k] == Yuan then Some(s[i..e]) else None
    case Amount =>
      var e := RunEnd(s, i, DigitsOrDots);
      if e > i then Some(s[i..e]) else None
    case YenAmountTight =>
      if i < |s| && s[i] == Yen then
        var e := RunEnd(s, i + 1, DigitsOrDots);
        if e > i + 1 then Some(s[i + 1..e]) else None
      else None
    case SpecToken =>
      var e := RunEnd(s, i, SpecNameChars);
      if e >= i + 2 && (s[e - 1] == '*' || s[e - 1] == Times) then
        var m := RunEnd(s, e, Digits);
        if m > e && m < |s| && (s[m] == 'g' || s[m] == Gram) then Some(s[i..m + 1]) else None
      else None
    case YenDecimal =>
      if i < |s| && (s[i] == Yen || s[i] == FullWidthYen) then
        var k := RunEnd(s, i + 1, Whites);
        if k < |s| && IsDigit(s[k]) then Some(s[k..DecimalEnd(s, k)]) else None
      else None
    case DecimalYuan =>
      if i < |s| && IsDigit(s[i]) then
        var e := DecimalEnd(s, i);
        var k := RunEnd(s, e, Whites);
        if k < |s| && s[k] == Yuan then Some(s[i..e]) else None
      else None
    case Decimal =>
      if i < |s| && IsDigit(s[i]) then Some(s[i..DecimalEnd(s, i)]) else None
    case SpecWeight =>
      if i < |s| && (s[i] == '*' || s[i] == Times) then
        var k := RunEnd(s, i + 1, Whites);
        var m := RunEnd(s, k, Digits);
        var n := RunEnd(s, m, Whites);
        if m > k && n < |s| && (s[n] == 'g' || s[n] == 'G' || s[n] == Gram) then Some(s[i..n + 1]) else None
      else None
  }

  /** The leftmost match of `p` in `s` at or after position `i`. */
  function Search(p: Pattern, s: string, i: nat): Option<string>
    requires i <= |s|
    decreases |s| - i
  {
    match MatchAt(p, s, i)
    case Some(c) => Some(c)
    case None => if i == |s| then None else Search(p, s, i + 1)
  }

  /** `s.match(p)`, reduced to the text the extractor reads from the match. */
  function Find(p: Pattern, s: string): Option<string> {
    Search(p, s, 0)
  }

  /** The search returns the match at the first position where `p` matches. */
  lemma {:induction false} SearchIsLeftmost(p: Pattern, s: string, i: nat, k: nat)
    requires i <= k <= |s|
    requires MatchAt(p, s, k).Some?
    requires forall j :: i <= j < k ==> MatchAt(p, s, j).None?
    ensures Search(p, s, i) == MatchAt(p, s, k)
    decreases k - i
  {
    if i < k {
      SearchIsLeftmost(p, s, i + 1, k);
    }
  }

  /** The search fails exactly when `p` matches at no position. */
  lemma {:induction false} SearchFailsIffNoMatch(p: Pattern, s: string, i: nat)
    requires i <= |s|
    ensures Search(p, s, i).None? <==> forall j :: i <= j <= |s| ==> MatchAt(p, s, j).None?
    decreases |s| - i
  {
    if i < |s| {
      SearchFailsIffNoMatch(p, s, i + 1);
    }
  }

  /** Every search result is the match at some position. */
  lemma {:induction false} SearchFoundAt(p: Pattern, s: string, i: nat) returns (k: nat)
    requires i <= |s|
    requires Search(p, s, i).Some?
    ensures i <= k <= |s| && MatchAt(p, s, k) == Search(p, s, i)
    decreases |s| - i
  {
    if MatchAt(p, s, i).Some? {
      k := i;
    } else {
      k := SearchFoundAt(p, s, i + 1);
    }
  }

  /** The patterns whose capture is `[\d.]+`. */
  predicate IsAmountPattern(p: Pattern) {
    p.YenAmount? || p.AmountYuan? || p.Amount? || p.YenAmountTight?
  }

  /** The patterns whose capture is `\d+\.?\d*`. */
  predicate IsDecimalPattern(p: Pattern) {
    p.YenDecimal? || p.DecimalYuan? || p.Decimal?
  }

  /** A `[\d.]+` capture is a non-empty run of digits and dots (it may be just "."). */
  lemma AmountCapture(p: Pattern, s: string, i: nat)
    requires i <= |s| && IsAmountPattern(p) && MatchAt(p, s, i).Some?
    ensures |MatchAt(p, s, i).value| > 0 && AllInClass(MatchAt(p, s, i).value, DigitsOrDots)
  {
  }

  /** A `\d+\.?\d*` capture starts with a digit and holds at most one dot. */
  lemma DecimalCapture(p: Pattern, s: string, i: nat)
    requires i <= |s| && IsDecimalPattern(p) && MatchAt(p, s, i).Some?
    ensures IsDecimalText(MatchAt(p, s, i).value)
  {
  }

  /** What `Find` returns for an amount pattern is a non-empty run of digits and dots. */
  lemma FindAmount(p: Pattern, s: string)
    requires IsAmountPattern(p) && Find(p, s).Some?
    ensures |Find(p, s).value| > 0 && AllInClass(Find(p, s).value, DigitsOrDots)
  {
    var k := SearchFoundAt(p, s, 0);
    AmountCapture(p, s, k);
  }

  /** What `Find` returns for a decimal pattern is decimal text, so never "." alone. */
  lemma FindDecimal(p: Pattern, s: string)
    requires IsDecimalPattern(p) && Find(p, s).Some?
    ensures IsDecimalText(Find(p, s).value)
    ensures Find(p, s).value != "."
  {
    var k := SearchFoundAt(p, s, 0);
    DecimalCapture(p, s, k);
  }

  /** A spec token ends in `g` or `克` right after a digit run that follows `*` or `×`. */
  lemma SpecTokenShape(s: string, i: nat)
    requires i <= |s| && MatchAt(SpecToken, s, i).Some?
    ensures var c := MatchAt(SpecToken, s, i).value;
      |c| >= 4 && (c[|c| - 1] == 'g' || c[|c| - 1] == Gram) && IsDigit(c[|c| - 2])
      && ('*' in c || Times in c) && Yen !in c
  {
    var c := MatchAt(SpecToken, s, i).value;
    var e := RunEnd(s, i, SpecNameChars);
    assert c[e - 1 - i] == s[e - 1];
    assert forall t :: 0 <= t < |c| ==> c[t] == s[i + t];
  }

  /** Every pattern's capture is non-empty. */
  lemma FindIsNonEmpty(p: Pattern, s: string)
    requires Find(p, s).Some?
    ensures Find(p, s).value != []
  {
    var k := SearchFoundAt(p, s, 0);
    if p.SpecToken? {
      SpecTokenShape(s, k);
    } else if p.SpecWeight? {
    } else if IsAmountPattern(p) {
      AmountCapture(p, s, k);
    } else {
      DecimalCapture(p, s, k);
    }
  }

  /** Captures are pieces of the searched text. */
  lemma FindIsSubstring(p: Pattern, s: string) returns (a: nat)
    requires Find(p, s).Some?
    ensures a + |Find(p, s).value| <= |s| && s[a..a + |Find(p, s).value|] == Find(p, s).value
  {
    var k := SearchFoundAt(p, s, 0);
    a := MatchStart(p, s, k);
  }

  /** Where the text `MatchAt` returns begins. */
  lemma MatchStart(p: Pattern, s: string, k: nat) returns (a: nat)
    requires k <= |s| && MatchAt(p, s, k).Some?
    ensures a + |MatchAt(p, s, k).value| <= |s| && s[a..a + |MatchAt(p, s, k).value|] == MatchAt(p, s, k).value
  {
    if p.YenAmount? || p.YenDecimal? {
      a := RunEnd(s, k + 1, Whites);
    } else if p.YenAmountTight? {
      a := k + 1;
    } else {
      a := k;
    }
  }

  // ---------------------------------------------------------------------------------------
  // The rules the extractors look for line by line

  /** The title rule with its length threshold: no `¥` and no `元`, not all digits, longer
      than `minLength` and holding a CJK character. */
  predicate IsTitleLine(line: string, minLength: nat) {
    Yen !in line && Yuan !in line && !AllDigits(line) && |line| > minLength && HasCjk(line)
  }

  /** The three price rules of one extractor, tried in this order on every line. */
  datatype PriceRules = PriceRules(yen: Pattern, yuan: Pattern, number: Pattern)

  /** The price a price loop takes at line `i`, if it stops there: a `yen` match on the
      line, else a `yuan` match, else, on a line labelled 供货价 or 价格, a `number` match
      on the line or else on the next line. */
  function PriceAt(lines: seq<string>, i: nat, rules: PriceRules): Option<string>
    requires i < |lines|
  {
    var line := lines[i];
    if Find(rules.yen, line).Some? then Find(rules.yen, line)
    else if Find(rules.yuan, line).Some? then Find(rules.yuan, line)
    else if Includes(line, SupplyPriceLabel) || Includes(line, PriceLabel) then
      if Find(rules.number, line).Some? then Find(rules.number, line)
      else if i + 1 < |lines| && Find(rules.number, lines[i + 1]).Some? then Find(rules.number, lines[i + 1])
      else None
    else None
  }

  /** What a scanning loop looks for at a line index. */
  datatype LineRule =
    | TitleRule(minLength: nat)      // a title line
    | PriceRule(rules: PriceRules)   // a line where the price loop stops
    | LooseSpecRule                  // (`*` or `×`) and (`g` or `克`)
    | StarAndGRule                   // `*` and `g`
    | SpecWeightRule                 // /[*×]\s*\d+\s*[gG克]/ matches
    | LabelBelowPriceRule            // 供货价 on the line and a `¥` price on the line above

  predicate Holds(rule: LineRule, lines: seq<string>, i: nat)
    requires i < |lines|
  {
    match rule
    case TitleRule(n) => IsTitleLine(lines[i], n)
    case PriceRule(rules) => PriceAt(lines, i, rules).Some?
    case LooseSpecRule => ('*' in lines[i] || Times in lines[i]) && ('g' in lines[i] || Gram in lines[i])
    case StarAndGRule => '*' in lines[i] && 'g' in lines[i]
    case SpecWeightRule => Find(SpecWeight, lines[i]).Some?
    case LabelBelowPriceRule =>
      i >= 1 && Includes(lines[i], SupplyPriceLabel) && Find(YenAmountTight, lines[i - 1]).Some?
  }

  /** The first index at or after `from` where `rule` holds. */
  function FirstMatching(lines: seq<string>, rule: LineRule, from: nat): (r: Option<nat>)
    ensures r.Some? ==> from <= r.value < |lines| && Holds(rule, lines, r.value)
    ensures r.Some? ==> forall j :: from <= j < r.value ==> !Holds(rule, lines, j)
    ensures r.None? ==> forall j :: from <= j < |lines| ==> !Holds(rule, lines, j)
    decreases |lines| - from
  {
    if from >= |lines| then None
    else if Holds(rule, lines, from) then Some(from)
    else FirstMatching(lines, rule, from + 1)
  }

  /** The first line where `rule` holds, if any. */
  function FirstLine(lines: seq<string>, rule: LineRule): Option<string> {
    match FirstMatching(lines, rule, 0)
    case Some(k) => Some(lines[k])
    case None => None
  }

  /** The fields the page and the text-recognition route extract; `None` stands for `null`. */
  datatype ProductInfo = ProductInfo(title: Option<string>, spec: Option<string>, price: Option<string>)

  /** `x || null` on a string-or-null: the empty string becomes `null`. */
  function OrNull(x: Option<string>): (r: Option<string>)
    ensures r.Some? <==> x.Some? && x.value != ""
    ensures r.Some? ==> r == x
  {
    if x.Some? && x.value != "" then x else None
  }

  /** The price a price loop ends with: what it takes at the first line where it stops. */
  function FirstPrice(lines: seq<string>, rules: PriceRules): Option<string> {
    match FirstMatching(lines, PriceRule(rules), 0)
    case Some(k) => PriceAt(lines, k, rules)
    case None => None
  }

  /** With `[\d.]+` captures, a price is a non-empty run of digits and dots. */
  lemma AmountPrice(lines: seq<string>, rules: PriceRules)
    requires IsAmountPattern(rules.yen) && IsAmountPattern(rules.yuan) && IsAmountPattern(rules.number)
    requires FirstPrice(lines, rules).Some?
    ensures |FirstPrice(lines, rules).value| > 0 && AllInClass(FirstPrice(lines, rules).value, DigitsOrDots)
  {
    var k := FirstMatching(lines, PriceRule(rules), 0).value;
    var line := lines[k];
    if Find(rules.yen, line).Some? {
      FindAmount(rules.yen, line);
    } else if Find(rules.yuan, line).Some? {
      FindAmount(rules.yuan, line);
    } else if Find(rules.number, line).Some? {
      FindAmount(rules.number, line);
    } else {
      FindAmount(rules.number, lines[k + 1]);
    }
  }

  /** With `\d+\.?\d*` captures, a price starts with a digit and has at most one dot. */
  lemma DecimalPrice(lines: seq<string>, rules: PriceRules)
    requires IsDecimalPattern(rules.yen) && IsDecimalPattern(rules.yuan) && IsDecimalPattern(rules.number)
    requires FirstPrice(lines, rules).Some?
    ensures IsDecimalText(FirstPrice(lines, rules).value) && FirstPrice(lines, rules).value != "."
  {
    var k := FirstMatching(lines, PriceRule(rules), 0).value;
    var line := lines[k];
    if Find(rules.yen, line).Some? {
      FindDecimal(rules.yen, line);
    } else if Find(rules.yuan, line).Some? {
      FindDecimal(rules.yuan, line);
    } else if Find(rules.number, line).Some? {
      FindDecimal(rules.number, line);
    } else {
      FindDecimal(rules.number, lines[k + 1]);
    }
  }

  /** `FirstMatching` is determined by where the rule holds: the index a loop stops at
      after rejecting every earlier line is the index it returns. */
  lemma FirstMatchingAt(lines: seq<string>, rule: LineRule, k: nat)
    requires k < |lines| && Holds(rule, lines, k)
    requires forall j :: 0 <= j < k ==> !Holds(rule, lines, j)
    ensures FirstMatching(lines, rule, 0) == Some(k)
  {
  }

  /** A lower title threshold finds a title no later than a higher one. */
  lemma {:induction false} LowerThresholdFindsEarlier(lines: seq<string>, low: nat, high: nat)
    requires low <= high
    requires FirstMatching(lines, TitleRule(high), 0).Some?
    ensures FirstMatching(lines, TitleRule(low), 0).Some?
    ensures FirstMatching(lines, TitleRule(low), 0).value <= FirstMatching(lines, TitleRule(high), 0).value
  {
    var k := FirstMatching(lines, TitleRule(high), 0).value;
    assert Holds(TitleRule(low), lines, k);
  }
}
