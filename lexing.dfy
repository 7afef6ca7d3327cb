/** Character classes and the building blocks of the line patterns in
    stura_voting_utils/parser.py, with Python's `re` semantics: `\s` and `str.strip` use the
    ASCII whitespace set below, `\d` the ASCII digits, `.` matches anything but a newline, and
    `$` matches at the end of the line or just before a newline that ends it. */
module Lexing {
  import opened Wrappers

  /** Space, tab, newline, vertical tab, form feed, carriage return, and the four ASCII
      separator controls that Python also counts as whitespace. */
  predicate IsSpace(c: char) {
    c == ' ' || ('\t' <= c <= '\r') || ('\U{1C}' <= c <= '\U{1F}')
  }

  predicate IsDigit(c: char) {
    '0' <= c <= '9'
  }

  predicate AllSpace(s: string) {
    forall k :: 0 <= k < |s| ==> IsSpace(s[k])
  }

  predicate AllDigits(s: string) {
    forall k :: 0 <= k < |s| ==> IsDigit(s[k])
  }

  /** End of the longest run of whitespace that starts at `i` (a greedy `\s*`). */
  function SkipSpaces(s: string, i: nat): (j: nat)
    requires i <= |s|
    ensures i <= j <= |s|
    ensures AllSpace(s[i..j])
    ensures j < |s| ==> !IsSpace(s[j])
    decreases |s| - i
  {
    if i < |s| && IsSpace(s[i]) then SkipSpaces(s, i + 1) else i
  }

  /** End of the longest run of digits that starts at `i` (a greedy `\d*`). */
  function SkipDigits(s: string, i: nat): (j: nat)
    requires i <= |s|
    ensures i <= j <= |s|
    ensures AllDigits(s[i..j])
    ensures j < |s| ==> !IsDigit(s[j])
    decreases |s| - i
  {
    if i < |s| && IsDigit(s[i]) then SkipDigits(s, i + 1) else i
  }

  /** A whitespace run known to end at `j` is the one `SkipSpaces` finds. */
  lemma {:induction false} SkipSpacesTo(s: string, i: nat, j: nat)
    requires i <= j <= |s| && AllSpace(s[i..j]) && (j < |s| ==> !IsSpace(s[j]))
    ensures SkipSpaces(s, i) == j
    decreases j - i
  {
    if i < j {
      assert s[i..j][0] == s[i];
      assert s[i + 1..j] == s[i..j][1..];
      SkipSpacesTo(s, i + 1, j);
    }
  }

  /** A digit run known to end at `j` is the one `SkipDigits` finds. */
  lemma {:induction false} SkipDigitsTo(s: string, i: nat, j: nat)
    requires i <= j <= |s| && AllDigits(s[i..j]) && (j < |s| ==> !IsDigit(s[j]))
    ensures SkipDigits(s, i) == j
    decreases j - i
  {
    if i < j {
      assert s[i..j][0] == s[i];
      assert s[i + 1..j] == s[i..j][1..];
      SkipDigitsTo(s, i + 1, j);
    }
  }

  /** Start of the whitespace run that ends at `j`, not going below `lo`. */
  function TrimEnd(s: string, lo: nat, j: nat): (k: nat)
    requires lo <= j <= |s|
    ensures lo <= k <= j
    ensures AllSpace(s[k..j])
    ensures lo < k ==> !IsSpace(s[k - 1])
    decreases j
  {
    if lo < j && IsSpace(s[j - 1]) then
      var k := TrimEnd(s, lo, j - 1);
      assert s[k..j] == s[k..j - 1] + [s[j - 1]];
      k
    else j
  }

  /** Python's `str.strip()`: the line without its leading and trailing whitespace. */
  function Strip(s: string): (t: string)
    ensures t == "" <==> AllSpace(s)
    ensures t != "" ==> !IsSpace(t[0]) && !IsSpace(t[|t| - 1])
  {
    var i := SkipSpaces(s, 0);
    var j := TrimEnd(s, i, |s|);
    assert AllSpace(s) ==> i == |s|;
    assert i == |s| ==> s == s[..i];
    s[i..j]
  }

  /** What `Strip` removes is whitespace on both sides: the result is a slice of the line
      with only whitespace before and after it. */
  lemma StripIsSlice(s: string)
    ensures var t := Strip(s);
            exists i :: 0 <= i <= |s| - |t| && t == s[i..i + |t|]
                        && AllSpace(s[..i]) && AllSpace(s[i + |t|..])
  {
    var i := SkipSpaces(s, 0);
    var j := TrimEnd(s, i, |s|);
    assert s[..i] == s[0..i] && s[j..] == s[j..|s|];
    assert s[i..j] == s[i..i + (j - i)];
  }

  /** Part of a whitespace run is whitespace. */
  lemma AllSpaceWithin(s: string, a: nat, b: nat, c: nat)
    requires a <= b <= c <= |s| && AllSpace(s[a..c])
    ensures AllSpace(s[a..b])
  {
    var w, v := s[a..c], s[a..b];
    forall q | 0 <= q < |v| ensures IsSpace(v[q]) {
      assert v[q] == w[q];
    }
  }

  /** A suffix of a line without newlines has none. */
  lemma NoNewlineInSuffix(s: string, a: nat)
    requires '\n' !in s && a <= |s|
    ensures '\n' !in s[a..]
  {
    assert forall q :: a <= q < |s| ==> s[a..][q - a] == s[q];
  }

  /** Stripping a line without newlines leaves a line without newlines. */
  lemma StripKeepsOneLine(s: string)
    requires '\n' !in s
    ensures '\n' !in Strip(s)
  {
    var i := SkipSpaces(s, 0);
    var j := TrimEnd(s, i, |s|);
    var t := s[i..j];
    assert Strip(s) == t;
    forall q | 0 <= q < |t| ensures t[q] != '\n' {
      assert t[q] == s[i + q];
    }
  }

  /** A line that neither starts nor ends with whitespace is its own strip. */
  lemma StripUnpadded(s: string)
    requires s != "" && !IsSpace(s[0]) && !IsSpace(s[|s| - 1])
    ensures Strip(s) == s
  {
    assert SkipSpaces(s, 0) == 0;
    assert TrimEnd(s, 0, |s|) == |s|;
  }

  /** The value of a run of decimal digits, most significant digit first. */
  function DigitsValue(s: string): nat
    requires AllDigits(s)
  {
    if s == "" then 0 else 10 * DigitsValue(s[..|s| - 1]) + (s[|s| - 1] as int - '0' as int)
  }

  /** Python's `int()` on a string, restricted to ASCII digit strings: anything else is the
      `ValueError` case. */
  function ParseInt(s: string): Option<nat> {
    if s != "" && AllDigits(s) then Some(DigitsValue(s)) else None
  }

  /** Where Python's `$` holds. */
  predicate AtEnd(s: string, j: nat) {
    j == |s| || (j == |s| - 1 && s[j] == '\n')
  }

  /** Index of the first newline at or after `i`, or the length of `s`. */
  function NextNewline(s: string, i: nat): (p: nat)
    requires i <= |s|
    ensures i <= p <= |s|
    ensures '\n' !in s[i..p]
    ensures p < |s| ==> s[p] == '\n'
    decreases |s| - i
  {
    if i < |s| && s[i] != '\n' then NextNewline(s, i + 1) else i
  }

  /** The capture of `(.+?)$` (and of `(.+)$`, which matches the same text) started at `k`:
      the rest of the line, which must be non-empty and may only be followed by a final
      newline. */
  function RestOfLine(s: string, k: nat): (r: Option<string>)
    requires k <= |s|
    ensures r.Some? ==> r.value != "" && '\n' !in r.value
                        && (s[k..] == r.value || s[k..] == r.value + "\n")
  {
    var p := NextNewline(s, k);
    if k < p && AtEnd(s, p) then
      assert p < |s| ==> s[k..] == s[k..p] + "\n";
      Some(s[k..p])
    else
      None
  }

  /** On a line without newlines, the rest of the line from `k` is all of it, if any. */
  lemma RestOfLineOneLine(s: string, k: nat)
    requires k <= |s| && '\n' !in s[k..]
    ensures RestOfLine(s, k) == if k < |s| then Some(s[k..]) else None
  {
    var p := NextNewline(s, k);
    assert p == |s|;
  }

  /** A suffix of a part of a line without newlines has none. */
  lemma NoNewlineLater(s: string, a: nat, b: nat)
    requires a <= b <= |s| && '\n' !in s[a..]
    ensures '\n' !in s[b..]
  {
    forall q | 0 <= q < |s| - b ensures s[b..][q] != '\n' {
      assert s[b..][q] == s[a..][q + (b - a)];
    }
  }

  /** `w` is the text of the line `s` from some position between `lo` and `hi` up to its end,
      or up to the newline that ends it. */
  predicate RestFrom(s: string, lo: nat, hi: nat, w: string) {
    (lo + |w| <= |s| <= hi + |w| && s[|s| - |w|..] == w)
    || (lo + |w| < |s| <= hi + |w| + 1 && s[|s| - |w| - 1..] == w + "\n")
  }

  /** `(.+?)$` tried from `t` downwards to `lo`: a greedy whitespace run before the capture
      gives back one character at a time until the rest of the line matches. */
  function BacktrackRest(s: string, lo: nat, t: nat): (r: Option<string>)
    requires lo <= t <= |s|
    ensures r.Some? ==> r.value != "" && '\n' !in r.value && RestFrom(s, lo, t, r.value)
    decreases t
  {
    match RestOfLine(s, t)
    case Some(c) => Some(c)
    case None => if t == lo then None else BacktrackRest(s, lo, t - 1)
  }

  /** On a line without newlines the backtracking ends at once: the capture is the rest
      from `t`, or, at the end of the line, its last character. */
  lemma BacktrackRestOneLine(s: string, lo: nat, t: nat)
    requires lo <= t <= |s| && '\n' !in s[lo..]
    ensures BacktrackRest(s, lo, t)
            == if t < |s| then Some(s[t..]) else if lo < t then Some(s[t - 1..]) else None
  {
    NoNewlineLater(s, lo, t);
    RestOfLineOneLine(s, t);
    if t == |s| && lo < t {
      NoNewlineLater(s, lo, t - 1);
      RestOfLineOneLine(s, t - 1);
    }
  }

  /** On a line without newlines, a capture after whitespace is the rest of the line from
      some point after that whitespace. */
  lemma RestAfterSpaces(s: string, h: nat) returns (c: nat)
    requires h <= |s| && '\n' !in s[h..] && SpacesThenRest(s, h, 0).Some?
    ensures h <= c < |s| && AllSpace(s[h..c]) && SpacesThenRest(s, h, 0) == Some(s[c..])
  {
    var k := SkipSpaces(s, h);
    SpacesThenRestOneLine(s, h, 0);
    if k < |s| {
      c := k;
    } else {
      c := k - 1;
      AllSpaceWithin(s, h, c, k);
    }
  }

  /** Started at a character that is not whitespace, on a line without newlines, the
      pattern takes the whole rest of the line. */
  lemma SpacesThenRestAtText(s: string, i: nat)
    requires i < |s| && !IsSpace(s[i]) && '\n' !in s[i..]
    ensures SpacesThenRest(s, i, 0) == Some(s[i..])
  {
    assert SkipSpaces(s, i) == i;
    SpacesThenRestOneLine(s, i, 0);
  }

  /** `\s{least,}(.+?)$` started at `i`, with Python's backtracking. */
  function SpacesThenRest(s: string, i: nat, least: nat): (r: Option<string>)
    requires i <= |s|
    ensures r.Some? ==> r.value != "" && '\n' !in r.value
                        && RestFrom(s, i + least, SkipSpaces(s, i), r.value)
  {
    var k := SkipSpaces(s, i);
    if k < i + least then None else BacktrackRest(s, i + least, k)
  }

  /** On a line without newlines: at least `least` whitespace characters, then the rest of
      the line, or its last character when the whitespace runs to the end. */
  lemma SpacesThenRestOneLine(s: string, i: nat, least: nat)
    requires i <= |s| && '\n' !in s[i..]
    ensures var k := SkipSpaces(s, i);
            SpacesThenRest(s, i, least)
            == if k < i + least then None
               else if k < |s| then Some(s[k..])
               else if i + least < k then Some(s[k - 1..])
               else None
  {
    var k := SkipSpaces(s, i);
    if i + least <= k {
      NoNewlineLater(s, i, i + least);
      BacktrackRestOneLine(s, i + least, k);
    }
  }
}
