/** The line patterns of stura_voting_utils/parser.py (lines 11 and 31-35) as hand-written
    matchers that return their captures, the amount normaliser `_parse_concurrency_value`, and
    the ordered attempt `_match_first`. Each matcher follows `re.match`: it is anchored at the
    start of the line and takes the same choices as Python's backtracking engine. */
module Recognizers {
  import opened Wrappers
  import opened Lexing

  /** Captures of `_voter_rx`: the voter's name and the digits of the weight. */
  datatype VoterEntry = VoterEntry(name: string, weight: string)

  /** Captures of `_median_option_rx`: euro digits, optional cent digits, optional symbol. */
  datatype Amount = Amount(euro: string, cent: Option<string>, currency: Option<char>)

  /** The symbols of the class `[€$£]`. */
  predicate IsCurrencySymbol(c: char) {
    c == '\U{20AC}' || c == '$' || c == '\U{00A3}'
  }

  predicate AllHashes(s: string) {
    forall k :: 0 <= k < |s| ==> s[k] == '#'
  }

  /** The `depth` characters of `s` from position `i` on are all hash signs. */
  predicate HashesAt(s: string, i: nat, depth: nat) {
    i + depth <= |s| && AllHashes(s[i..i + depth])
  }

  /** `w` ends the line `s`, possibly followed by one final newline. */
  predicate EndsLine(s: string, w: string) {
    (|w| <= |s| && s[|s| - |w|..] == w) || (|w| < |s| && s[|s| - |w| - 1..] == w + "\n")
  }

  // ---------------------------------------------------------------------------------------
  // Headings: `_head_rx` (depth 1, `(.+)$`), `_group_rx` (depth 2) and `_voting_rx`
  // (depth 3, both `(.+?)$`). Followed by `$`, the greedy and the lazy capture take the
  // same text, so one matcher serves all three.

  /** `\s*` + `depth` hash signs + `\s*` + the capture up to the end of the line. */
  function MatchHeading(s: string, depth: nat): (r: Option<string>)
    ensures r.Some? ==> r.value != "" && '\n' !in r.value && |r.value| + depth <= |s|
    ensures var i := SkipSpaces(s, 0);
            r.Some? ==> i + depth < |s| && HashesAt(s, i, depth)
                        && RestFrom(s, i + depth, SkipSpaces(s, i + depth), r.value)
  {
    var i := SkipSpaces(s, 0);
    if HashesAt(s, i, depth) then SpacesThenRest(s, i + depth, 0)
    else None
  }

  /** `_head_rx`: the title of the collection. */
  function MatchHead(s: string): Option<string> {
    MatchHeading(s, 1)
  }

  /** `_group_rx`: the name of a group. */
  function MatchGroup(s: string): Option<string> {
    MatchHeading(s, 2)
  }

  /** `_voting_rx`: the name of a voting. */
  function MatchVoting(s: string): Option<string> {
    MatchHeading(s, 3)
  }

  /** On a line without newlines, a heading of depth d + 1 is also a heading of depth d,
      whose capture is a hash sign, some whitespace, and the deeper heading's capture.
      So every `###` line is a `##` line, and every `##` line a `#` line. */
  lemma DeeperHeadingMatchesShallower(s: string, d: nat)
    requires '\n' !in s
    requires MatchHeading(s, d + 1).Some?
    ensures MatchHeading(s, d).Some?
    ensures var v := MatchHeading(s, d + 1).value;
            var g := MatchHeading(s, d).value;
            |v| < |g| && g[0] == '#' && AllSpace(g[1..|g| - |v|]) && g[|g| - |v|..] == v
  {
    var i := SkipSpaces(s, 0);
    NoNewlineInSuffix(s, i + d);
    NoNewlineInSuffix(s, i + d + 1);
    HeadingOverlap(s, i, d);
  }

  /** The overlap of the two headings, from the end of the leading whitespace on. */
  lemma HeadingOverlap(s: string, i: nat, d: nat)
    requires i == SkipSpaces(s, 0) && i + d + 1 <= |s|
    requires '\n' !in s[i + d..] && '\n' !in s[i + d + 1..]
    requires MatchHeading(s, d + 1).Some?
    ensures MatchHeading(s, d).Some?
    ensures var v := MatchHeading(s, d + 1).value;
            var g := MatchHeading(s, d).value;
            |v| < |g| && g[0] == '#' && AllSpace(g[1..|g| - |v|]) && g[|g| - |v|..] == v
  {
    var c := DeeperCapture(s, i, d);
    ShallowerCapture(s, i, d);
    HashSpacesThen(s, i + d, c);
  }

  /** Where the capture of a heading of depth `d + 1` starts when no newline follows its
      hash signs. */
  lemma DeeperCapture(s: string, i: nat, d: nat) returns (c: nat)
    requires i == SkipSpaces(s, 0) && i + d + 1 <= |s| && '\n' !in s[i + d + 1..]
    requires MatchHeading(s, d + 1).Some?
    ensures i + d + 1 <= c < |s| && AllSpace(s[i + d + 1..c]) && MatchHeading(s, d + 1) == Some(s[c..])
  {
    HeadingAfterHashes(s, i, d + 1);
    c := RestAfterSpaces(s, i + d + 1);
  }

  /** With its hash signs in place, a heading is the capture after them. */
  lemma HeadingAfterHashes(s: string, i: nat, depth: nat)
    requires i == SkipSpaces(s, 0) && HashesAt(s, i, depth)
    ensures MatchHeading(s, depth) == SpacesThenRest(s, i + depth, 0)
  {
  }

  /** A line with `d + 1` hash signs after its leading whitespace has, as heading of depth
      `d`, all of the text from the last hash sign on. */
  lemma ShallowerCapture(s: string, i: nat, d: nat)
    requires i == SkipSpaces(s, 0)
    requires i + d + 1 < |s| && AllHashes(s[i..i + d + 1]) && '\n' !in s[i + d..]
    ensures s[i + d] == '#' && MatchHeading(s, d) == Some(s[i + d..])
  {
    HashesPrefix(s, i, d);
    SpacesThenRestAtText(s, i + d);
  }

  /** A run of `d + 1` hash signs starts with a run of `d` and ends with one. */
  lemma HashesPrefix(s: string, i: nat, d: nat)
    requires i + d < |s| && AllHashes(s[i..i + d + 1])
    ensures s[i + d] == '#' && AllHashes(s[i..i + d])
  {
    var h, g := s[i..i + d + 1], s[i..i + d];
    assert h[d] == s[i + d];
    forall q | 0 <= q < d ensures g[q] == '#' {
      assert g[q] == h[q];
    }
  }

  /** `s[h..]` is one character, the whitespace `s[h + 1..c]`, and the rest `s[c..]`. */
  lemma HashSpacesThen(s: string, h: nat, c: nat)
    requires h < c < |s| && AllSpace(s[h + 1..c])
    ensures var g, v := s[h..], s[c..];
            |v| < |g| && g[1..|g| - |v|] == s[h + 1..c] && AllSpace(g[1..|g| - |v|])
            && g[|g| - |v|..] == v && g[0] == s[h]
  {
  }

  /** `d` hash signs. */
  function Hashes(d: nat): (h: string)
    ensures |h| == d && AllHashes(h)
  {
    seq(d, _ => '#')
  }

  /** Every line of the documented form "#... title" is a heading of that depth whose
      capture is the title, whatever whitespace surrounds the hash signs. */
  lemma HeadingLineAccepted(a: string, d: nat, b: string, title: string)
    requires 0 < d && AllSpace(a) && AllSpace(b) && '\n' !in b
    requires title != "" && !IsSpace(title[0]) && '\n' !in title
    ensures MatchHeading(a + Hashes(d) + b + title, d) == Some(title)
  {
    var s := a + Hashes(d) + b + title;
    var i, k := |a|, |a| + d + |b|;
    assert s[0..i] == a && s[i..i + d] == Hashes(d) && s[i + d..k] == b && s[k..] == title;
    assert s[i] == Hashes(d)[0] && s[k] == title[0];
    SkipSpacesTo(s, 0, i);
    SkipSpacesTo(s, i + d, k);
    assert s[i + d..] == b + title;
  }

  /** The overlap needs a line without an inner newline: `.` stops at a newline, so after
      `##` the capture "#\n x" fails while after `###` the spaces absorb the newline. */
  lemma DeeperHeadingOverlapNeedsOneLine()
    ensures MatchVoting("###\n x") == Some("x")
    ensures MatchGroup("###\n x") == None
  {
    var s := "###\n x";
    assert SkipSpaces(s, 0) == 0;
    assert AllHashes(s[0..3]) && AllHashes(s[0..2]);
    assert SkipSpaces(s, 3) == 5;
    assert RestOfLine(s, 5) == Some("x") by { assert NextNewline(s, 5) == 6; }
    assert SkipSpaces(s, 2) == 2;
    assert RestOfLine(s, 2) == None by { assert NextNewline(s, 2) == 3; }
  }

  /** A group line given as the first line is a valid head: "## X" has title "# X". */
  lemma GroupLineIsHead()
    ensures MatchHead("## X") == Some("# X")
  {
    var s := "## X";
    assert SkipSpaces(s, 0) == 0 && SkipSpaces(s, 1) == 1;
    assert AllHashes(s[0..1]);
    assert RestOfLine(s, 1) == Some("# X") by { assert NextNewline(s, 1) == 4; }
  }

  // ---------------------------------------------------------------------------------------
  // Option bullets.

  /** `_schulze_option_rx`: `\s*[*]\s+(.+?)$`, the text of a Schulze option. */
  function MatchSchulzeOption(s: string): (r: Option<string>)
    ensures r.Some? ==> r.value != "" && '\n' !in r.value
    ensures var i := SkipSpaces(s, 0);
            r.Some? ==> i + 1 < |s| && s[i] == '*' && IsSpace(s[i + 1])
                        && RestFrom(s, i + 2, SkipSpaces(s, i + 1), r.value)
  {
    var i := SkipSpaces(s, 0);
    if i < |s| && s[i] == '*' then SpacesThenRest(s, i + 1, 1) else None
  }

  /** Every line of the documented form "* option" is a Schulze option with that text. */
  lemma SchulzeOptionAccepted(a: string, b: string, option: string)
    requires AllSpace(a) && b != "" && AllSpace(b) && '\n' !in b
    requires option != "" && !IsSpace(option[0]) && '\n' !in option
    ensures MatchSchulzeOption(a + "*" + b + option) == Some(option)
  {
    var s := a + "*" + b + option;
    var i, k := |a|, |a| + 1 + |b|;
    assert s[0..i] == a && s[i] == '*' && s[i + 1..k] == b && s[k..] == option;
    assert s[k] == option[0];
    SkipSpacesTo(s, 0, i);
    SkipSpacesTo(s, i + 1, k);
    assert s[i + 1..] == b + option;
  }

  /** From `c` on, `s` holds whitespace, then the symbol `currency` if there is one, and then
      the end of the line. */
  predicate SymbolEndsLine(s: string, c: nat, currency: Option<char>)
    requires c <= |s|
  {
    var k := SkipSpaces(s, c);
    if currency.Some? then k < |s| && s[k] == currency.value && AtEnd(s, k + 1) else AtEnd(s, k)
  }

  /** The amount `a` is written in `s` from `j` on: its euro digits, then a point or comma and
      its cent digits if it has some, then the rest of the line as `SymbolEndsLine` says. */
  predicate WrittenAt(s: string, j: nat, a: Amount) {
    var e := j + |a.euro|;
    var c := if a.cent.Some? then e + 1 + |a.cent.value| else e;
    c <= |s| && s[j..e] == a.euro
    && (a.cent.Some? ==> (s[e] == '.' || s[e] == ',') && s[e + 1..c] == a.cent.value)
    && SymbolEndsLine(s, c, a.currency)
  }

  /** `\s*(?P<concurrency>[€$£])?$` from `k0`, completing an amount. */
  function AmountTail(s: string, k0: nat, euro: string, cent: Option<string>): (r: Option<Amount>)
    requires k0 <= |s|
    ensures r.Some? ==> r.value.euro == euro && r.value.cent == cent
    ensures r.Some? && r.value.currency.Some? ==> IsCurrencySymbol(r.value.currency.value)
    ensures r.Some? ==> SymbolEndsLine(s, k0, r.value.currency)
  {
    var k := SkipSpaces(s, k0);
    if k < |s| && IsCurrencySymbol(s[k]) then
      if AtEnd(s, k + 1) then Some(Amount(euro, cent, Some(s[k]))) else None
    else if AtEnd(s, k) then Some(Amount(euro, cent, None))
    else None
  }

  /** `(?P<euro>\d+)(?:[.,](?P<cent>\d{1,2}))?\s*(?P<concurrency>[€$£])?$` from `j`. The euro
      digits are a maximal digit run; a separator is only taken with one or two cent digits
      after it, and a third digit makes the line fail. */
  function AmountAt(s: string, j: nat): (r: Option<Amount>)
    requires j <= |s|
    ensures r.Some? ==> r.value.euro != "" && AllDigits(r.value.euro)
    ensures r.Some? && r.value.cent.Some? ==>
              1 <= |r.value.cent.value| <= 2 && AllDigits(r.value.cent.value)
    ensures r.Some? && r.value.currency.Some? ==> IsCurrencySymbol(r.value.currency.value)
    ensures r.Some? ==> WrittenAt(s, j, r.value)
  {
    var e := SkipDigits(s, j);
    if e == j then None
    else if e + 1 < |s| && (s[e] == '.' || s[e] == ',') && IsDigit(s[e + 1]) then
      var c := if e + 2 < |s| && IsDigit(s[e + 2]) then e + 3 else e + 2;
      assert AllDigits(s[e + 1..c]) by {
        assert forall q :: e + 1 <= q < c ==> s[e + 1..c][q - (e + 1)] == s[q];
      }
      AmountTail(s, c, s[j..e], Some(s[e + 1..c]))
    else
      AmountTail(s, e, s[j..e], None)
  }

  /** `_median_option_rx`: a dash, whitespace, and an amount. */
  function MatchMedianOption(s: string): (r: Option<Amount>)
    ensures r.Some? ==> r.value.euro != "" && AllDigits(r.value.euro)
    ensures r.Some? && r.value.cent.Some? ==>
              1 <= |r.value.cent.value| <= 2 && AllDigits(r.value.cent.value)
    ensures r.Some? && r.value.currency.Some? ==> IsCurrencySymbol(r.value.currency.value)
    ensures var i := SkipSpaces(s, 0);
            r.Some? ==> i + 1 < |s| && s[i] == '-' && IsSpace(s[i + 1])
                        && WrittenAt(s, SkipSpaces(s, i + 1), r.value)
  {
    var i := SkipSpaces(s, 0);
    if !(i < |s| && s[i] == '-') then None
    else
      var j := SkipSpaces(s, i + 1);
      if j == i + 1 then None else AmountAt(s, j)
  }

  /** The text of an amount: euro digits, then a separator and the cent digits if any. */
  function AmountText(euro: string, sep: char, cent: Option<string>): string {
    euro + if cent.Some? then [sep] + cent.value else ""
  }

  /** Whitespace and an optional symbol up to the end complete an amount. */
  lemma AmountTailAccepted(s: string, f: nat, c: string, symbol: Option<char>,
                           euro: string, cent: Option<string>)
    requires f <= |s| && AllSpace(c) && (symbol.Some? ==> IsCurrencySymbol(symbol.value))
    requires s[f..] == c + if symbol.Some? then [symbol.value] else ""
    ensures AmountTail(s, f, euro, cent) == Some(Amount(euro, cent, symbol))
  {
    var k := f + |c|;
    assert s[f..k] == c;
    if symbol.Some? {
      assert s[k] == symbol.value && k + 1 == |s|;
    }
    SkipSpacesTo(s, f, k);
  }

  /** Euro digits followed by whitespace, a symbol or the end: no cent part. */
  lemma WholeAmountAccepted(s: string, j: nat, euro: string, rest: string, c: string,
                            symbol: Option<char>)
    requires j <= |s| && euro != "" && AllDigits(euro)
    requires AllSpace(c) && (symbol.Some? ==> IsCurrencySymbol(symbol.value))
    requires rest == c + if symbol.Some? then [symbol.value] else ""
    requires rest != "" ==> !IsDigit(rest[0]) && rest[0] != '.' && rest[0] != ','
    requires s[j..] == euro + rest
    ensures AmountAt(s, j) == Some(Amount(euro, None, symbol))
  {
    var e := j + |euro|;
    assert s[j..e] == euro && s[e..] == rest;
    assert e < |s| ==> s[e] == rest[0];
    SkipDigitsTo(s, j, e);
    AmountTailAccepted(s, e, c, symbol, euro, None);
  }

  /** Euro digits, a separator and one or two cent digits. */
  lemma CentAmountAccepted(s: string, j: nat, euro: string, sep: char, cent: string,
                           rest: string, c: string, symbol: Option<char>)
    requires j <= |s| && euro != "" && AllDigits(euro)
    requires (sep == '.' || sep == ',') && 1 <= |cent| <= 2 && AllDigits(cent)
    requires AllSpace(c) && (symbol.Some? ==> IsCurrencySymbol(symbol.value))
    requires rest == c + if symbol.Some? then [symbol.value] else ""
    requires rest != "" ==> !IsDigit(rest[0])
    requires s[j..] == euro + [sep] + cent + rest
    ensures AmountAt(s, j) == Some(Amount(euro, Some(cent), symbol))
  {
    var e := j + |euro|;
    var f := e + 1 + |cent|;
    CentAmountParts(s, j, euro, sep, cent, rest);
    SkipDigitsTo(s, j, e);
    CentAmountAt(s, j, e, f);
    AmountTailAccepted(s, f, c, symbol, euro, Some(cent));
    assert AmountTail(s, f, s[j..e], Some(s[e + 1..f])) == Some(Amount(euro, Some(cent), symbol));
  }

  /** After the euro digits `s[j..e]`, a separator and a cent part that ends at `f` where no
      further digit follows, the amount is completed by what follows `f`. */
  lemma CentAmountAt(s: string, j: nat, e: nat, f: nat)
    requires j < e && e + 2 <= f <= e + 3 && f <= |s| && SkipDigits(s, j) == e
    requires (s[e] == '.' || s[e] == ',') && IsDigit(s[e + 1])
    requires f == e + 3 ==> IsDigit(s[e + 2])
    requires f == e + 2 && f < |s| ==> !IsDigit(s[f])
    ensures AmountAt(s, j) == AmountTail(s, f, s[j..e], Some(s[e + 1..f]))
  {
  }

  /** Where the parts of "euro sep cent rest" lie in the line. */
  lemma CentAmountParts(s: string, j: nat, euro: string, sep: char, cent: string, rest: string)
    requires j <= |s| && 1 <= |cent| <= 2 && s[j..] == euro + [sep] + cent + rest
    ensures var e, f := j + |euro|, j + |euro| + 1 + |cent|;
            f <= |s| && s[j..e] == euro && s[e] == sep && s[e + 1..f] == cent && s[f..] == rest
            && s[e + 1] == cent[0] && (|cent| == 2 ==> s[e + 2] == cent[1])
            && (f < |s| ==> s[f] == rest[0])
  {
    var e, f := j + |euro|, j + |euro| + 1 + |cent|;
    assert s[j..e] == euro && s[e] == sep && s[e + 1..f] == cent && s[f..] == rest;
    assert s[e + 1] == cent[0];
  }

  /** An amount written out in full is read back with exactly its parts. */
  lemma AmountAtAccepted(s: string, j: nat, euro: string, sep: char, cent: Option<string>,
                         c: string, symbol: Option<char>)
    requires j <= |s| && euro != "" && AllDigits(euro)
    requires cent.Some? ==> (sep == '.' || sep == ',') && 1 <= |cent.value| <= 2
                            && AllDigits(cent.value)
    requires AllSpace(c) && (symbol.Some? ==> IsCurrencySymbol(symbol.value))
    requires s[j..] == AmountText(euro, sep, cent) + c + if symbol.Some? then [symbol.value] else ""
    ensures AmountAt(s, j) == Some(Amount(euro, cent, symbol))
  {
    var rest := c + if symbol.Some? then [symbol.value] else "";
    assert rest != "" ==> !IsDigit(rest[0]) && rest[0] != '.' && rest[0] != ',' by {
      if rest != "" && c == "" { assert rest[0] == symbol.value; }
      if rest != "" && c != "" { assert rest[0] == c[0]; }
    }
    if cent.Some? {
      assert s[j..] == euro + [sep] + cent.value + rest;
      CentAmountAccepted(s, j, euro, sep, cent.value, rest, c, symbol);
    } else {
      assert s[j..] == euro + rest;
      WholeAmountAccepted(s, j, euro, rest, c, symbol);
    }
  }

  /** Every line of the documented form "- euro[.cent] [symbol]" is a median option with
      exactly those parts, whatever whitespace surrounds the dash and the symbol. */
  lemma MedianOptionAccepted(a: string, b: string, euro: string, sep: char, cent: Option<string>,
                             c: string, symbol: Option<char>)
    requires AllSpace(a) && b != "" && AllSpace(b)
    requires euro != "" && AllDigits(euro)
    requires cent.Some? ==> (sep == '.' || sep == ',') && 1 <= |cent.value| <= 2
                            && AllDigits(cent.value)
    requires AllSpace(c) && (symbol.Some? ==> IsCurrencySymbol(symbol.value))
    ensures var tail := if symbol.Some? then [symbol.value] else "";
            MatchMedianOption(a + "-" + b + AmountText(euro, sep, cent) + c + tail)
            == Some(Amount(euro, cent, symbol))
  {
    var tail := if symbol.Some? then [symbol.value] else "";
    var amount := AmountText(euro, sep, cent) + c + tail;
    var s := a + "-" + b + amount;
    assert a + "-" + b + AmountText(euro, sep, cent) + c + tail == s;
    var i, j := |a|, |a| + 1 + |b|;
    assert s[0..i] == a && s[i] == '-' && s[i + 1..j] == b && s[j..] == amount;
    assert s[j] == euro[0];
    SkipSpacesTo(s, 0, i);
    SkipSpacesTo(s, i + 1, j);
    AmountAtAccepted(s, j, euro, sep, cent, c, symbol);
  }

  /** The Schulze and the median bullet never match the same line. */
  lemma OptionPatternsExclusive(s: string)
    ensures !(MatchSchulzeOption(s).Some? && MatchMedianOption(s).Some?)
  {
  }

  // ---------------------------------------------------------------------------------------
  // Voter entries: `_voter_rx`, `\s*[*]\s+(?P<name>.+?):\s*(?P<weight>\d+)$`.

  /** `:\s*(?P<weight>\d+)$` at `e`: the weight digits, which must run to the end. */
  function WeightAt(s: string, e: nat): (r: Option<string>)
    requires e <= |s|
    ensures r.Some? ==> r.value != "" && AllDigits(r.value) && EndsLine(s, r.value)
    ensures r.Some? ==> e < |s| && s[e] == ':'
  {
    if e < |s| && s[e] == ':' then
      var d := SkipSpaces(s, e + 1);
      var f := SkipDigits(s, d);
      if d < f && AtEnd(s, f) then
        assert f < |s| ==> s[d..] == s[d..f] + "\n";
        Some(s[d..f])
      else None
    else None
  }

  /** The shortest name `s[t..e']`, `e' >= e`, without a newline, that a weight follows. */
  function LazyName(s: string, t: nat, e: nat): (r: Option<nat>)
    requires t < e <= |s| + 1
    requires '\n' !in s[t..e - 1]
    ensures r.Some? ==> e <= r.value < |s| && '\n' !in s[t..r.value] && WeightAt(s, r.value).Some?
    decreases |s| - e
  {
    if |s| <= e || s[e - 1] == '\n' then None
    else
      assert s[t..e] == s[t..e - 1] + [s[e - 1]];
      if WeightAt(s, e).Some? then Some(e) else LazyName(s, t, e + 1)
  }

  /** The name tried from `t` downwards to `lo`: the greedy `\s+` before the name gives
      back one character at a time. */
  function VoterFrom(s: string, lo: nat, t: nat): (r: Option<VoterEntry>)
    requires lo <= t <= |s|
    ensures r.Some? ==> r.value.name != "" && '\n' !in r.value.name
    ensures r.Some? ==> r.value.weight != "" && AllDigits(r.value.weight)
                        && EndsLine(s, r.value.weight)
    ensures r.Some? ==> exists e :: |r.value.name| <= e < |s| && s[e] == ':'
                                    && r.value.name == s[e - |r.value.name|..e]
    decreases t
  {
    match LazyName(s, t, t + 1)
    case Some(e) => Some(VoterEntry(s[t..e], WeightAt(s, e).value))
    case None => if t == lo then None else VoterFrom(s, lo, t - 1)
  }

  /** `_voter_rx`. */
  function MatchVoter(s: string): (r: Option<VoterEntry>)
    ensures r.Some? ==> r.value.name != "" && '\n' !in r.value.name
    ensures r.Some? ==> r.value.weight != "" && AllDigits(r.value.weight)
                        && EndsLine(s, r.value.weight)
    ensures r.Some? ==> exists e :: |r.value.name| <= e < |s| && s[e] == ':'
                                    && r.value.name == s[e - |r.value.name|..e]
  {
    var i := SkipSpaces(s, 0);
    if !(i < |s| && s[i] == '*') then None
    else
      var k := SkipSpaces(s, i + 1);
      if k == i + 1 then None else VoterFrom(s, i + 2, k)
  }

  /** A colon followed by whitespace and the digits `w` up to the end is a weight of `w`. */
  lemma WeightAfterColon(pre: string, c: string, w: string)
    requires AllSpace(c) && w != "" && AllDigits(w)
    ensures WeightAt(pre + ":" + c + w, |pre|) == Some(w)
  {
    var s := pre + ":" + c + w;
    var d := |pre| + 1 + |c|;
    assert s[|pre| + 1..d] == c;
    assert s[d..|s|] == w;
    assert d < |s| && IsDigit(s[d]);
    SkipSpacesTo(s, |pre| + 1, d);
    SkipDigitsTo(s, d, |s|);
  }

  /** No weight starts before the last colon of a line. */
  lemma NoWeightBeforeColon(s: string, e: nat, p: nat)
    requires e < p < |s| && s[p] == ':'
    ensures WeightAt(s, e).None?
  {
  }

  /** The lazy name stops at the first place a weight starts. */
  lemma {:induction false} LazyNameFinds(s: string, t: nat, e: nat, p: nat)
    requires t < e <= p < |s| && '\n' !in s[t..p] && WeightAt(s, p).Some?
    requires forall q :: e <= q < p ==> WeightAt(s, q).None?
    ensures LazyName(s, t, e) == Some(p)
    decreases p - e
  {
    assert s[t..p][e - 1 - t] == s[e - 1];
    if e < p {
      assert WeightAt(s, e).None?;
      assert s[t..e] == s[t..p][..e - t];
      LazyNameFinds(s, t, e + 1, p);
    } else {
      assert LazyName(s, t, e) == Some(e);
    }
  }

  /** Every line of the documented form "* name: weight" is a voter entry with exactly that
      name and weight, whatever whitespace surrounds the star and the colon. The name may
      itself hold colons and spaces; its first character is not whitespace, since the
      whitespace after the star absorbs it. */
  lemma VoterLineAccepted(a: string, b: string, name: string, c: string, w: string)
    requires AllSpace(a) && b != "" && AllSpace(b)
    requires name != "" && !IsSpace(name[0]) && '\n' !in name
    requires AllSpace(c) && w != "" && AllDigits(w)
    ensures MatchVoter(a + "*" + b + name + ":" + c + w) == Some(VoterEntry(name, w))
  {
    var pre := a + "*" + b + name;
    var s := pre + ":" + c + w;
    var i, k, p := |a|, |a| + 1 + |b|, |pre|;
    assert s[0..i] == a && s[i] == '*';
    assert s[i + 1..k] == b && s[k] == name[0];
    assert s[k..p] == name && s[p] == ':';
    SkipSpacesTo(s, 0, i);
    SkipSpacesTo(s, i + 1, k);
    WeightAfterColon(pre, c, w);
    NameBeforeColon(s, i + 2, k, p, w);
  }

  /** The name tried first, from the end of the whitespace, runs up to the first colon
      that a weight follows. */
  lemma NameBeforeColon(s: string, lo: nat, k: nat, p: nat, w: string)
    requires lo <= k < p < |s| && '\n' !in s[k..p] && s[p] == ':' && WeightAt(s, p) == Some(w)
    ensures VoterFrom(s, lo, k) == Some(VoterEntry(s[k..p], w))
  {
    forall q | k + 1 <= q < p ensures WeightAt(s, q).None? {
      NoWeightBeforeColon(s, q, p);
    }
    LazyNameFinds(s, k, k + 1, p);
  }

  // ---------------------------------------------------------------------------------------
  // The amount normaliser.

  /** The cents a matched cent part stands for: one digit is tenths, two are hundredths. */
  function Cents(cent: Option<string>): (c: nat)
    requires cent.Some? ==> 1 <= |cent.value| <= 2 && AllDigits(cent.value)
    ensures c <= 99
  {
    match cent
    case None => 0
    case Some(d) =>
      assert |d| == 1 ==> DigitsValue(d) == d[0] as int - '0' as int by {
        if |d| == 1 { assert d[..0] == ""; }
      }
      assert |d| == 2 ==> DigitsValue(d[..1]) <= 9 by {
        if |d| == 2 { assert d[..1][..0] == ""; }
      }
      if |d| == 1 then 10 * DigitsValue(d) else DigitsValue(d)
  }

  /** `_parse_concurrency_value`: the amount in cents and the currency symbol. No match gives
      no amount; a digit string `int()` rejects gives no amount; a cent part of another
      length than one or two is the `assert False` of line 51, which callers must avoid. */
  function ParseCurrencyValue(m: Option<Amount>): (r: Option<(int, Option<char>)>)
    requires m.Some? && m.value.cent.Some? ==> 1 <= |m.value.cent.value| <= 2
    ensures m.None? ==> r.None?
    ensures (m.Some? && m.value.euro != "" && AllDigits(m.value.euro)
             && (m.value.cent.Some? ==> AllDigits(m.value.cent.value))) ==> r.Some?
    ensures r.Some? ==> m.Some? && AllDigits(m.value.euro)
                        && (m.value.cent.Some? ==> AllDigits(m.value.cent.value))
    ensures r.Some? ==>
              r.value.1 == m.value.currency
              && r.value.0 / 100 == DigitsValue(m.value.euro)
              && r.value.0 % 100 == Cents(m.value.cent)
  {
    match m
    case None => None
    case Some(a) =>
      match ParseInt(a.euro)
      case None => None
      case Some(euro) =>
        var value := euro * 100;
        match a.cent
        case None => Some((value, a.currency))
        case Some(cent) =>
          match ParseInt(cent)
          case None => None
          case Some(c) =>
            assert Cents(a.cent) == if |cent| == 1 then c * 10 else c;
            if |cent| == 1 then Some((value + c * 10, a.currency))
            else Some((value + c, a.currency))
  }

  /** Every line the median pattern accepts has an amount: the `ValueError` branch of
      `_parse_concurrency_value` (lines 53-54) is unreachable. */
  lemma MatchedAmountConverts(s: string)
    requires MatchMedianOption(s).Some?
    ensures ParseCurrencyValue(MatchMedianOption(s)).Some?
  {
  }

  /** The value of every line the median pattern reads as the amount `m`: 100 cents per euro
      plus the cents, with one cent digit read as tenths, and `m`'s symbol. Together with
      `MedianOptionAccepted` this gives the value of each documented median line. */
  lemma MedianOptionValue(s: string, m: Amount)
    requires MatchMedianOption(s) == Some(m)
    ensures ParseCurrencyValue(MatchMedianOption(s))
            == Some((100 * DigitsValue(m.euro) + Cents(m.cent), m.currency))
  {
    AmountValue(m);
  }

  /** The cents of a well-formed amount. */
  lemma AmountValue(m: Amount)
    requires m.euro != "" && AllDigits(m.euro)
    requires m.cent.Some? ==> 1 <= |m.cent.value| <= 2 && AllDigits(m.cent.value)
    ensures ParseCurrencyValue(Some(m)) == Some((100 * DigitsValue(m.euro) + Cents(m.cent), m.currency))
  {
    var r := ParseCurrencyValue(Some(m)).value;
    assert r.0 == 100 * (r.0 / 100) + r.0 % 100;
  }

  /** "- 3" is 300 cents without a symbol. */
  lemma WholeAmountExample()
    ensures ParseCurrencyValue(MatchMedianOption("- 3")) == Some((300, None))
  {
    var s := "- 3";
    assert SkipSpaces(s, 0) == 0 && SkipSpaces(s, 1) == 2 && SkipDigits(s, 2) == 3;
    assert SkipSpaces(s, 3) == 3 && s[2..3] == "3";
    assert AmountTail(s, 3, "3", None) == Some(Amount("3", None, None));
    assert MatchMedianOption(s) == Some(Amount("3", None, None));
  }

  /** "- 3.5" is 350 cents: one cent digit counts as tenths. */
  lemma TenthsAmountExample()
    ensures ParseCurrencyValue(MatchMedianOption("- 3.5")) == Some((350, None))
  {
    TenthsAmountMatch();
    AmountValue(Amount("3", Some("5"), None));
    assert DigitsValue("3") == 3 && DigitsValue("5") == 5 by {
      assert "3"[..0] == "" && "5"[..0] == "";
    }
  }

  lemma TenthsAmountMatch()
    ensures MatchMedianOption("- 3.5") == Some(Amount("3", Some("5"), None))
  {
    var s := "- 3.5";
    assert SkipSpaces(s, 0) == 0 && SkipSpaces(s, 1) == 2 && SkipDigits(s, 2) == 3;
    assert SkipSpaces(s, 5) == 5;
    assert s[4..5] == "5" && s[2..3] == "3";
    assert AmountTail(s, 5, "3", Some("5")) == Some(Amount("3", Some("5"), None));
  }

  /** "- 3.50" is 350 cents as well. */
  lemma HundredthsAmountExample()
    ensures ParseCurrencyValue(MatchMedianOption("- 3.50")) == Some((350, None))
  {
    HundredthsAmountMatch();
    AmountValue(Amount("3", Some("50"), None));
    assert DigitsValue("3") == 3 && DigitsValue("50") == 50 by {
      assert "3"[..0] == "" && "50"[..1] == "5" && "5"[..0] == "";
    }
  }

  lemma HundredthsAmountMatch()
    ensures MatchMedianOption("- 3.50") == Some(Amount("3", Some("50"), None))
  {
    var t := "- 3.50";
    assert SkipSpaces(t, 0) == 0 && SkipSpaces(t, 1) == 2 && SkipDigits(t, 2) == 3;
    assert SkipSpaces(t, 6) == 6;
    assert t[4..6] == "50" && t[2..3] == "3";
    assert AmountTail(t, 6, "3", Some("50")) == Some(Amount("3", Some("50"), None));
  }

  /** "- 3,05€" is 305 cents in euro. */
  lemma SymbolAmountExample()
    ensures ParseCurrencyValue(MatchMedianOption("- 3,05\U{20AC}")) == Some((305, Some('\U{20AC}')))
  {
    SymbolAmountMatch();
    AmountValue(Amount("3", Some("05"), Some('\U{20AC}')));
    assert DigitsValue("3") == 3 && DigitsValue("05") == 5 by {
      assert "3"[..0] == "" && "05"[..1] == "0" && "0"[..0] == "";
    }
  }

  lemma SymbolAmountMatch()
    ensures MatchMedianOption("- 3,05\U{20AC}") == Some(Amount("3", Some("05"), Some('\U{20AC}')))
  {
    var s := "- 3,05\U{20AC}";
    assert SkipSpaces(s, 0) == 0 && SkipSpaces(s, 1) == 2 && SkipDigits(s, 2) == 3;
    assert SkipSpaces(s, 6) == 6;
    assert s[4..6] == "05" && s[2..3] == "3";
    assert AmountTail(s, 6, "3", Some("05")) == Some(Amount("3", Some("05"), Some('\U{20AC}')));
  }

  // ---------------------------------------------------------------------------------------
  // `_match_first`.

  /** The least index of a matcher that accepts `s`, with its captures, or -1 and none. */
  method MatchFirst<T>(s: string, matchers: seq<string -> Option<T>>) returns (i: int, m: Option<T>)
    ensures -1 <= i < |matchers|
    ensures i == -1 <==> forall k :: 0 <= k < |matchers| ==> matchers[k](s).None?
    ensures i == -1 ==> m.None?
    ensures 0 <= i ==> m == matchers[i](s) && m.Some?
                       && forall k :: 0 <= k < i ==> matchers[k](s).None?
  {
    var k := 0;
    while k < |matchers|
      invariant 0 <= k <= |matchers|
      invariant forall j :: 0 <= j < k ==> matchers[j](s).None?
    {
      var r := matchers[k](s);
      if r.Some? {
        return k, r;
      }
      k := k + 1;
    }
    return -1, None;
  }
}
