/** `parse_voters` of stura_voting_utils/parser.py: one voter per line of the form
    "* name: weight", blank lines and lines starting with '#' skipped. The source is a
    generator that yields the voters line by line and raises at the first bad line; the model
    returns the voters yielded before it stops together with the error it stops with. */
module Voters {
  import opened Wrappers
  import opened Lexing
  import opened Recognizers
  import opened Errors
  import opened Records

  datatype VoterList = VoterList(voters: seq<SimpleVoter>, error: Option<ParseError>)

  /** Blank lines and comment lines, which yield nothing. */
  predicate IsSkipped(line: string) {
    var t := Strip(line);
    t == "" || t[0] == '#'
  }

  /** A line the voter pattern rejects. */
  predicate IsBad(line: string) {
    !IsSkipped(line) && MatchVoter(Strip(line)).None?
  }

  /** What one line contributes: nothing, a voter, or the error that stops the reading. */
  datatype LineOutcome = Skip | Voter(voter: SimpleVoter) | Fail(error: ParseError)

  /** The body of the loop at parser.py:16-28 for line number `n`. */
  function ReadVoterLine(raw: string, n: nat): LineOutcome {
    var line := Strip(raw);
    if line == "" || line[0] == '#' then Skip
    else match MatchVoter(line)
      case None => Fail(ParseError(InvalidVoterEntry, n))
      case Some(entry) =>
        match ParseInt(entry.weight)
        case None => Fail(ParseError(InvalidVoterWeight, n))
        case Some(weight) => Voter(SimpleVoter(entry.name, weight))
  }

  /** The loop at parser.py:15-28 over lines `i + 1` onwards (1-based), each line read by
      `read` with its number: skipped lines yield nothing, the first failing line stops the
      loop with its error. */
  function Collect(read: (string, nat) -> LineOutcome, lines: seq<string>, i: nat): VoterList
    requires i <= |lines|
    decreases |lines| - i
  {
    if i == |lines| then VoterList([], None)
    else match read(lines[i], i + 1)
      case Skip => Collect(read, lines, i + 1)
      case Fail(e) => VoterList([], Some(e))
      case Voter(v) =>
        var rest := Collect(read, lines, i + 1);
        VoterList([v] + rest.voters, rest.error)
  }

  function ParseVoters(lines: seq<string>): VoterList {
    Collect(ReadVoterLine, lines, 0)
  }

  // ---------------------------------------------------------------------------------------
  // A reference description: the voters of the lines before the first bad one.

  /** The voter an accepted line stands for, its weight read as a decimal number. */
  function VoterOf(line: string): SimpleVoter
    requires !IsSkipped(line) && !IsBad(line)
  {
    var entry := MatchVoter(Strip(line)).value;
    SimpleVoter(entry.name, DigitsValue(entry.weight))
  }

  /** The voter a line holds, if any. */
  function EntryOf(line: string): seq<SimpleVoter> {
    if IsSkipped(line) || IsBad(line) then [] else [VoterOf(line)]
  }

  /** The results of `f` on the elements of `s`, concatenated in order. */
  function FlatMap<T, U>(f: T -> seq<U>, s: seq<T>): seq<U> {
    if s == [] then [] else f(s[0]) + FlatMap(f, s[1..])
  }

  /** The voters of the lines that hold one, in order. */
  function Entries(lines: seq<string>): seq<SimpleVoter> {
    FlatMap(EntryOf, lines)
  }

  /** Index of the first line at or after `i` that `bad` holds of, or the number of lines if
      there is none. */
  function FirstWhere(bad: string -> bool, lines: seq<string>, i: nat): (b: nat)
    requires i <= |lines|
    ensures i <= b <= |lines|
    ensures b < |lines| ==> bad(lines[b])
    decreases |lines| - i
  {
    if i == |lines| || bad(lines[i]) then i else FirstWhere(bad, lines, i + 1)
  }

  /** No line before the one `FirstWhere` finds is bad. */
  lemma {:induction false} FirstWhereIsFirst(bad: string -> bool, lines: seq<string>, i: nat)
    requires i <= |lines|
    ensures forall k :: i <= k < FirstWhere(bad, lines, i) ==> !bad(lines[k])
    decreases |lines| - i
  {
    if i < |lines| && !bad(lines[i]) {
      FirstWhereIsFirst(bad, lines, i + 1);
    }
  }

  /** Index of the first bad voter line at or after `i`. */
  function FirstBad(lines: seq<string>, i: nat): nat
    requires i <= |lines|
  {
    FirstWhere(IsBad, lines, i)
  }

  /** The voters an outcome yields. */
  function Yielded(o: LineOutcome): seq<SimpleVoter> {
    if o.Voter? then [o.voter] else []
  }

  /** One line: blank and comment lines yield nothing, a bad line fails with its number and
      the kind "invalid entry", and any other line yields its voter. */
  lemma ReadVoterLineSpec(raw: string, n: nat)
    ensures ReadVoterLine(raw, n)
            == if IsSkipped(raw) then Skip
               else if IsBad(raw) then Fail(ParseError(InvalidVoterEntry, n))
               else Voter(VoterOf(raw))
  {
    if !IsSkipped(raw) && !IsBad(raw) {
      var entry := MatchVoter(Strip(raw)).value;
      assert ParseInt(entry.weight) == Some(DigitsValue(entry.weight));
    }
  }

  /** For any line reader that fails exactly on the lines `bad` holds of, with the kind
      "invalid entry" and the line's number, and otherwise yields what `entry` says, the
      loop yields the entries of the lines before the first bad one and then fails there. */
  lemma {:induction false} CollectSpec(read: (string, nat) -> LineOutcome, bad: string -> bool,
                                       entry: string -> seq<SimpleVoter>, lines: seq<string>,
                                       i: nat)
    requires i <= |lines|
    requires forall line, n :: read(line, n).Fail? <==> bad(line)
    requires forall line, n :: read(line, n).Fail? ==>
                                 read(line, n).error == ParseError(InvalidVoterEntry, n)
    requires forall line, n :: Yielded(read(line, n)) == entry(line)
    ensures var b := FirstWhere(bad, lines, i);
            Collect(read, lines, i)
            == VoterList(FlatMap(entry, lines[i..b]),
                         if b < |lines| then Some(ParseError(InvalidVoterEntry, b + 1)) else None)
    decreases |lines| - i
  {
    var b := FirstWhere(bad, lines, i);
    if i < |lines| && !bad(lines[i]) {
      CollectSpec(read, bad, entry, lines, i + 1);
      assert Yielded(read(lines[i], i + 1)) == entry(lines[i]);
      assert lines[i..b][1..] == lines[i + 1..b];
      assert lines[i..b][0] == lines[i];
    }
  }

  /** `ReadVoterLine` is a reader of the kind `CollectSpec` speaks of, for the bad lines and
      the entries of the reference description. */
  lemma ReadVoterLineClassifies()
    ensures forall line, n :: ReadVoterLine(line, n).Fail? <==> IsBad(line)
    ensures forall line, n :: ReadVoterLine(line, n).Fail? ==>
                                ReadVoterLine(line, n).error == ParseError(InvalidVoterEntry, n)
    ensures forall line, n :: Yielded(ReadVoterLine(line, n)) == EntryOf(line)
  {
    forall line, n ensures ReadVoterLine(line, n).Fail? <==> IsBad(line)
                   ensures ReadVoterLine(line, n).Fail? ==>
                             ReadVoterLine(line, n).error == ParseError(InvalidVoterEntry, n)
                   ensures Yielded(ReadVoterLine(line, n)) == EntryOf(line)
    {
      ReadVoterLineSpec(line, n);
    }
  }

  /** The whole behaviour of `parse_voters`: it yields the voters of the lines before the
      first bad line, in order, and then fails with the number of that line. A weight is
      always a digit string, so the "invalid weight" error at parser.py:27 never occurs. */
  lemma ParseVotersSpec(lines: seq<string>)
    ensures var b := FirstBad(lines, 0);
            ParseVoters(lines)
            == VoterList(Entries(lines[..b]),
                         if b < |lines| then Some(ParseError(InvalidVoterEntry, b + 1)) else None)
  {
    ReadVoterLineClassifies();
    CollectSpec(ReadVoterLine, IsBad, EntryOf, lines, 0);
    assert lines[0..FirstBad(lines, 0)] == lines[..FirstBad(lines, 0)];
  }

  /** The voters of a file are those of its parts read one after the other. */
  lemma EntriesAppend(a: seq<string>, b: seq<string>)
    ensures Entries(a + b) == Entries(a) + Entries(b)
  {
    FlatMapAppend(EntryOf, a, b);
  }

  lemma {:induction false} FlatMapAppend<T, U>(f: T -> seq<U>, a: seq<T>, b: seq<T>)
    ensures FlatMap(f, a + b) == FlatMap(f, a) + FlatMap(f, b)
  {
    if a == [] {
      assert a + b == b;
    } else {
      assert (a + b)[1..] == a[1..] + b;
      assert (a + b)[0] == a[0];
      FlatMapAppend(f, a[1..], b);
    }
  }

  lemma AliceEntry()
    ensures MatchVoter("* Alice: 5") == Some(VoterEntry("Alice", "5"))
  {
    assert "" + "*" + " " + "Alice" + ":" + " " + "5" == "* Alice: 5";
    VoterLineAccepted("", " ", "Alice", " ", "5");
  }

  lemma CommentLineSkipped(n: nat)
    ensures ReadVoterLine("# members", n) == Skip
  {
    var s := "# members";
    assert SkipSpaces(s, 0) == 0;
    assert TrimEnd(s, 0, |s|) == |s|;
  }

  lemma AliceLine(n: nat)
    ensures ReadVoterLine("* Alice: 5", n) == Voter(SimpleVoter("Alice", 5))
  {
    var s := "* Alice: 5";
    assert Strip(s) == s by {
      assert SkipSpaces(s, 0) == 0;
      assert TrimEnd(s, 0, |s|) == |s|;
    }
    AliceEntry();
    assert DigitsValue("5") == 5 by { assert "5"[..0] == ""; }
  }

  lemma BobLineFails(n: nat)
    ensures ReadVoterLine("* Bob 5", n) == Fail(ParseError(InvalidVoterEntry, n))
  {
    var s := "* Bob 5";
    assert Strip(s) == s by {
      assert SkipSpaces(s, 0) == 0;
      assert TrimEnd(s, 0, |s|) == |s|;
    }
    assert ':' !in s;
  }

  lemma AcceptedLineExample()
    ensures ParseVoters(["* Alice: 5"]) == VoterList([SimpleVoter("Alice", 5)], None)
  {
    var lines := ["* Alice: 5"];
    AliceLine(1);
    assert Collect(ReadVoterLine, lines, 1) == VoterList([], None);
    assert Collect(ReadVoterLine, lines, 0) == VoterList([SimpleVoter("Alice", 5)], None);
  }

  /** A voter file with a comment, a blank line, a good entry and an entry without its
      colon: Alice is yielded, then reading stops at line 4 and Carol is never reached. */
  lemma StopsAtFirstBadLineExample()
    ensures ParseVoters(["# members", "", "* Alice: 5", "* Bob 5", "* Carol: 2"])
            == VoterList([SimpleVoter("Alice", 5)], Some(ParseError(InvalidVoterEntry, 4)))
  {
    var lines := ["# members", "", "* Alice: 5", "* Bob 5", "* Carol: 2"];
    var r := VoterList([SimpleVoter("Alice", 5)], Some(ParseError(InvalidVoterEntry, 4)));
    AliceLine(3);
    BobLineFails(4);
    assert Collect(ReadVoterLine, lines, 3) == VoterList([], Some(ParseError(InvalidVoterEntry, 4)));
    assert Collect(ReadVoterLine, lines, 2) == r;
    SkippedLines(lines);
  }

  /** The comment and the blank line at the head of the sample are skipped. */
  lemma SkippedLines(lines: seq<string>)
    requires |lines| == 5 && lines[0] == "# members" && lines[1] == ""
    ensures Collect(ReadVoterLine, lines, 0) == Collect(ReadVoterLine, lines, 2)
  {
    CommentLineSkipped(1);
    assert ReadVoterLine(lines[1], 2) == Skip;
  }
}
