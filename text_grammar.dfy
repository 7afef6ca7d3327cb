/** The line-by-line state machine of `parse_voting_collection` (stura_voting_utils/parser.py
    lines 57-189) as pure functions over the value view of the records. This is what the
    imperative parser in module TextParser is proved against.

    The driver as written cannot run: line 78 calls `line.sptrip()`, line 97 unpacks the
    pair from the Schulze-option handler in the wrong order, line 182 stores a pair where a
    state is meant, and the function never returns the collection. The model follows the
    evident intent at each of these places: it strips the line, keeps the pair order
    (name, state), stays in the Schulze-option state, and returns the collection. */
module TextGrammar {
  import opened Wrappers
  import opened Lexing
  import opened Recognizers
  import opened Errors
  import opened Records
  import opened DriverLoop

  /** The six parser states (parser.py:57-62). The source keeps them as strings and raises
      an internal error on any other value (line 99); as a closed type that cannot happen. */
  datatype State =
    | Start                // 'start': expecting the "# title" line
    | ExpectGroup          // 'group': expecting the first "## group"
    | ExpectVoting         // 'voting': expecting "### voting"
    | ExpectOption         // 'option': expecting the first option of the voting
    | ExpectGroupOrVoting  // 'group-or-voting': after a median option
    | ExpectSchulzeOption  // 'schulze-option': after a Schulze option

  /** The driver's variables: its state, `last_voting_name` and the collection `res`. */
  datatype Machine = Machine(state: State, lastVoting: Option<string>, coll: Collection)

  const Initial: Machine := Machine(Start, None, Collection("", None, []))

  /** What the states promise about the collection: after the first group line there is a
      group, in the option state a voting name is pending, and after a Schulze option the
      last group has a Schulze voting to add further options to. */
  predicate Consistent(m: Machine) {
    (m.state != Start && m.state != ExpectGroup ==> m.coll.groups != [])
    && (m.state == ExpectOption ==> m.lastVoting.Some? && m.lastVoting.value != "")
    && (m.state == ExpectSchulzeOption ==> Last(m.coll.groups).schulzes != [])
  }

  // ---------------------------------------------------------------------------------------
  // The handlers.

  /** `_handle_group_state` (parser.py:102-111). */
  function GroupTransition(m: Machine, line: string, n: nat): (r: Result<Machine, ParseError>)
    ensures r.Err? ==> r.error == ParseError(InvalidGroup, n)
    ensures r.Ok? ==> Consistent(r.value)
  {
    match MatchGroup(line)
    case None => Err(ParseError(InvalidGroup, n))
    case Some(g) => Ok(Machine(ExpectVoting, m.lastVoting, AddGroup(m.coll, g)))
  }

  /** `_handle_voting_state` (parser.py:114-121). */
  function VotingTransition(m: Machine, line: string, n: nat): (r: Result<Machine, ParseError>)
    ensures r.Err? ==> r.error == ParseError(InvalidVoting, n)
    ensures r.Ok? && m.coll.groups != [] ==> Consistent(r.value)
  {
    match MatchVoting(line)
    case None => Err(ParseError(InvalidVoting, n))
    case Some(v) => Ok(Machine(ExpectOption, Some(v), m.coll))
  }

  /** `_handle_option_state` (parser.py:124-155): a Schulze option opens a Schulze voting
      with that option, a median option adds a median voting with the amount in cents. */
  function OptionTransition(m: Machine, line: string, n: nat): (r: Result<Machine, ParseError>)
    ensures r.Err? ==> r.error.line == n
    ensures m.state == ExpectOption && Consistent(m) && r.Ok? ==> Consistent(r.value)
    ensures m.state == ExpectOption && Consistent(m) && r.Err? ==> r.error.kind == InvalidOption
  {
    if m.coll.groups == [] || m.lastVoting.None? || m.lastVoting.value == "" then
      Err(ParseError(OptionStateInconsistent, n))
    else
      var name := m.lastVoting.value;
      assert MatchMedianOption(line).Some? ==> ParseCurrencyValue(MatchMedianOption(line)).Some? by {
        if MatchMedianOption(line).Some? {
          MatchedAmountConverts(line);
        }
      }
      match MatchSchulzeOption(line)
      case Some(option) =>
        Ok(Machine(ExpectSchulzeOption, m.lastVoting, AddSchulze(m.coll, Schulze(name, [option]))))
      case None =>
        match MatchMedianOption(line)
        case None => Err(ParseError(InvalidOption, n))
        case Some(amount) =>
          match ParseCurrencyValue(Some(amount))
          case None => Err(ParseError(MedianValueUnparsable, n))
          case Some((value, currency)) =>
            Ok(Machine(ExpectGroupOrVoting, m.lastVoting,
                       AddMedian(m.coll, Median(name, value, currency))))
  }

  /** `_handle_group_or_voting_state` (parser.py:158-167): a group line, else a voting line. */
  function GroupOrVotingTransition(m: Machine, line: string, n: nat): (r: Result<Machine, ParseError>)
    ensures r.Err? ==> r.error == ParseError(InvalidGroupOrVoting, n)
    ensures r.Ok? && m.coll.groups != [] ==> Consistent(r.value)
  {
    match GroupTransition(m, line, n)
    case Ok(m') => Ok(m')
    case Err(_) =>
      match VotingTransition(m, line, n)
      case Ok(m') => Ok(m')
      case Err(_) => Err(ParseError(InvalidGroupOrVoting, n))
  }

  /** `_handle_schulze_option_state` (parser.py:170-189): a further option of the last
      Schulze voting, else a group or voting line. */
  function SchulzeOptionTransition(m: Machine, line: string, n: nat): (r: Result<Machine, ParseError>)
    ensures r.Err? ==> r.error.line == n
    ensures m.state == ExpectSchulzeOption && Consistent(m) && r.Ok? ==> Consistent(r.value)
    ensures m.state == ExpectSchulzeOption && Consistent(m) && r.Err? ==> r.error.kind == InvalidSchulzeOrNext
  {
    match MatchSchulzeOption(line)
    case Some(option) =>
      if m.coll.groups == [] then Err(ParseError(SchulzeOptionWithoutGroup, n))
      else if Last(m.coll.groups).schulzes == [] then Err(ParseError(NoSchulzeVoting, n))
      else Ok(Machine(ExpectSchulzeOption, m.lastVoting, AddOption(m.coll, option)))
    case None =>
      match GroupOrVotingTransition(m, line, n)
      case Ok(m') => Ok(m')
      case Err(_) => Err(ParseError(InvalidSchulzeOrNext, n))
  }

  /** One line of the loop at parser.py:77-99, numbered `n`. Blank lines change nothing; an
      error names the line; from a consistent machine the step leads to a consistent
      machine, and none of the internal errors can occur. */
  function Step(m: Machine, raw: string, n: nat): (r: Result<Machine, ParseError>)
    ensures r.Err? ==> r.error.line == n
    ensures Consistent(m) && r.Ok? ==> Consistent(r.value)
    ensures Consistent(m) && r.Err? ==> !r.error.kind.IsInternal()
  {
    var line := Strip(raw);
    if line == "" then Ok(m)
    else
      match m.state
      case Start =>
        (match MatchHead(line)
         case None => Err(ParseError(InvalidHead, n))
         case Some(title) => Ok(Machine(ExpectGroup, m.lastVoting, m.coll.(name := title))))
      case ExpectGroup => GroupTransition(m, line, n)
      case ExpectVoting => VotingTransition(m, line, n)
      case ExpectOption => OptionTransition(m, line, n)
      case ExpectGroupOrVoting => GroupOrVotingTransition(m, line, n)
      case ExpectSchulzeOption => SchulzeOptionTransition(m, line, n)
  }

  /** The machine after the first `j` lines, or the first error. Every machine a run
      reaches is consistent, and a run fails only at one of its lines and never with an
      internal error. */
  function RunTo(lines: seq<string>, j: nat): (r: Result<Machine, ParseError>)
    requires j <= |lines|
    ensures r.Ok? ==> Consistent(r.value)
    ensures r.Err? ==> 1 <= r.error.line <= j && !r.error.kind.IsInternal()
  {
    RunInvariant(Step, Consistent, Initial, lines, j);
    Run(Step, Initial, lines, j)
  }

  /** `parse_voting_collection`, returning the collection once every line is read. */
  function Parse(lines: seq<string>): Result<Collection, ParseError> {
    match RunTo(lines, |lines|)
    case Ok(m) => Ok(m.coll)
    case Err(e) => Err(e)
  }

  /** One more line of a run. */
  lemma RunToNext(lines: seq<string>, j: nat, m: Machine)
    requires 0 < j <= |lines| && RunTo(lines, j - 1) == Ok(m)
    ensures RunTo(lines, j) == Step(m, lines[j - 1], j)
  {
    RunNext(Step, Initial, lines, j, m);
  }

  /** The first error is the error of the whole file. */
  lemma RunToErrorIsFinal(lines: seq<string>, j: nat)
    requires j <= |lines| && RunTo(lines, j).Err?
    ensures Parse(lines) == Err(RunTo(lines, j).error)
  {
    RunErrorPersists(Step, Initial, lines, j, |lines|);
  }

  // ---------------------------------------------------------------------------------------
  // The line handler as the loop sees it.

  /** An error names the line it occurs on. */
  lemma StepErrorsAtLine()
    ensures ErrorsAtLine(Step)
  {
  }

  /** The line number ends up in the error and nowhere else. */
  lemma StepNumberOnlyInErrors()
    ensures NumberOnlyInErrors(Step)
  {
    forall m, raw, n ensures Step(m, raw, n) == Relined(Step(m, raw, 0), n) {
      StepRelined(m, raw, n);
    }
  }

  lemma StepRelined(m: Machine, raw: string, n: nat)
    ensures Step(m, raw, n) == Relined(Step(m, raw, 0), n)
  {
    var line := Strip(raw);
    if line != "" {
      match m.state
      case Start =>
      case ExpectGroup => GroupRelined(m, line, n);
      case ExpectVoting => VotingRelined(m, line, n);
      case ExpectOption => OptionRelined(m, line, n);
      case ExpectGroupOrVoting => GroupOrVotingRelined(m, line, n);
      case ExpectSchulzeOption => GroupOrVotingRelined(m, line, n);
    }
  }

  lemma GroupRelined(m: Machine, line: string, n: nat)
    ensures GroupTransition(m, line, n) == Relined(GroupTransition(m, line, 0), n)
  {
  }

  lemma VotingRelined(m: Machine, line: string, n: nat)
    ensures VotingTransition(m, line, n) == Relined(VotingTransition(m, line, 0), n)
  {
  }

  lemma OptionRelined(m: Machine, line: string, n: nat)
    ensures OptionTransition(m, line, n) == Relined(OptionTransition(m, line, 0), n)
  {
  }

  lemma GroupOrVotingRelined(m: Machine, line: string, n: nat)
    ensures GroupOrVotingTransition(m, line, n) == Relined(GroupOrVotingTransition(m, line, 0), n)
    ensures GroupOrVotingTransition(m, line, n).Ok? <==> GroupOrVotingTransition(m, line, 0).Ok?
  {
  }

  /** Only a line with text can fail. */
  lemma ErrorOnlyOnNonBlank(m: Machine, raw: string, n: nat)
    requires Step(m, raw, n).Err?
    ensures Strip(raw) != ""
  {
  }

  /** Blank lines are skipped (parser.py:79-80). */
  lemma BlankLineIgnored(blank: string)
    requires Strip(blank) == ""
    ensures Ignored(Step, blank)
  {
  }

  // ---------------------------------------------------------------------------------------
  // How a run ends.

  /** `Parse` fails with the error of the first line that fails, never with an internal
      error, only at a line that is not blank, and after every earlier line was accepted. */
  lemma ParseErrorIsFirstError(lines: seq<string>)
    requires Parse(lines).Err?
    ensures var e := Parse(lines).error;
            1 <= e.line <= |lines| && !e.kind.IsInternal() && Strip(lines[e.line - 1]) != ""
            && forall k :: 0 <= k < e.line ==> RunTo(lines, k).Ok?
  {
    var e := Parse(lines).error;
    assert RunTo(lines, |lines|) == Err(e);
    FailingLineIsNotBlank(lines, e);
    RunToPrefixOk(lines, e.line - 1);
  }

  /** The line a run fails at has text. */
  lemma FailingLineIsNotBlank(lines: seq<string>, e: ParseError)
    requires RunTo(lines, |lines|) == Err(e)
    ensures 1 <= e.line <= |lines| && Strip(lines[e.line - 1]) != "" && RunTo(lines, e.line - 1).Ok?
  {
    RunToFirstError(lines, |lines|);
    var m := RunTo(lines, e.line - 1).value;
    RunToNext(lines, e.line, m);
    ErrorOnlyOnNonBlank(m, lines[e.line - 1], e.line);
  }

  /** A run that failed by line `j` failed at the error's line, after a successful run up to
      the line before it. */
  lemma RunToFirstError(lines: seq<string>, j: nat)
    requires j <= |lines| && RunTo(lines, j).Err?
    ensures var e := RunTo(lines, j).error;
            1 <= e.line <= j && RunTo(lines, e.line - 1).Ok? && RunTo(lines, e.line) == Err(e)
  {
    StepErrorsAtLine();
    RunFailsAtErrorLine(Step, Initial, lines, j);
  }

  /** A run that succeeds up to line `j` succeeds at every earlier line. */
  lemma RunToPrefixOk(lines: seq<string>, j: nat)
    requires j <= |lines| && RunTo(lines, j).Ok?
    ensures forall k :: 0 <= k <= j ==> RunTo(lines, k).Ok?
  {
    forall k | 0 <= k <= j ensures RunTo(lines, k).Ok? {
      RunPrefixOk(Step, Initial, lines, j, k);
    }
  }

  // ---------------------------------------------------------------------------------------
  // Blank lines.

  /** Blank lines are skipped but still counted: the result of a file with a blank line
      inserted after line `j` is the result without it, except that an error after line `j`
      names a line one further down. */
  lemma ParseWithBlankLine(lines: seq<string>, j: nat, blank: string)
    requires j <= |lines| && Strip(blank) == ""
    ensures Parse(lines[..j] + [blank] + lines[j..]) == Renumbered(Parse(lines), j)
  {
    var lines' := lines[..j] + [blank] + lines[j..];
    assert |lines'| == |lines| + 1;
    StepErrorsAtLine();
    StepNumberOnlyInErrors();
    BlankLineIgnored(blank);
    RunWithIgnoredLine(Step, Initial, lines, j, blank, |lines|);
    assert RunTo(lines', |lines'|) == Renumbered(RunTo(lines, |lines|), j);
    match RunTo(lines, |lines|)
    case Ok(m) =>
    case Err(e) =>
  }

  // ---------------------------------------------------------------------------------------
  // The head line.

  /** The first non-blank line must be a head line "# title", which names the collection;
      anything else fails at that line. */
  lemma FirstLineIsHead(lines: seq<string>, k: nat)
    requires k < |lines| && forall q :: 0 <= q < k ==> Strip(lines[q]) == ""
    requires Strip(lines[k]) != ""
    ensures RunTo(lines, k + 1)
            == match MatchHead(Strip(lines[k]))
               case None => Err(ParseError(InvalidHead, k + 1))
               case Some(title) => Ok(Machine(ExpectGroup, None, Collection(title, None, [])))
  {
    BlankPrefixKeepsInitial(lines, k);
    RunToNext(lines, k + 1, Initial);
  }

  /** Leading blank lines leave the machine in its initial state. */
  lemma BlankPrefixKeepsInitial(lines: seq<string>, k: nat)
    requires k <= |lines| && forall q :: 0 <= q < k ==> Strip(lines[q]) == ""
    ensures RunTo(lines, k) == Ok(Initial)
  {
    forall q | 0 <= q < k ensures Ignored(Step, lines[q]) {
      BlankLineIgnored(lines[q]);
    }
    RunIgnoredPrefix(Step, Initial, lines, k);
  }

  /** A file of blank lines is accepted as a collection without name and groups. */
  lemma BlankFileIsEmptyCollection(lines: seq<string>)
    requires forall q :: 0 <= q < |lines| ==> Strip(lines[q]) == ""
    ensures Parse(lines) == Ok(Collection("", None, []))
  {
    BlankPrefixKeepsInitial(lines, |lines|);
  }

  // ---------------------------------------------------------------------------------------
  // Voting headings after options.

  /** A voting line is never a Schulze option. */
  lemma VotingLineIsNoOption(line: string)
    requires MatchVoting(line).Some?
    ensures MatchSchulzeOption(line).None?
  {
    var i := SkipSpaces(line, 0);
    assert line[i..i + 3][0] == line[i];
  }

  /** On a one-line input the group-or-voting handler never reaches its voting branch: a
      `###` line is also a `##` line, so the handler either adds a group or fails. */
  lemma GroupOrVotingIsGroup(m: Machine, line: string, n: nat)
    requires '\n' !in line
    ensures GroupOrVotingTransition(m, line, n)
            == match MatchGroup(line)
               case Some(g) => Ok(Machine(ExpectVoting, m.lastVoting, AddGroup(m.coll, g)))
               case None => Err(ParseError(InvalidGroupOrVoting, n))
  {
    if MatchVoting(line).Some? {
      DeeperHeadingMatchesShallower(line, 2);
    }
  }

  /** After an option, a "### name" line does not open a voting: it opens a group named
      "#", some whitespace and the name, and the machine then waits for a voting line. */
  lemma VotingAfterOptionOpensGroup(m: Machine, raw: string, n: nat)
    requires '\n' !in raw
    requires m.state == ExpectGroupOrVoting || m.state == ExpectSchulzeOption
    requires MatchVoting(Strip(raw)).Some?
    ensures MatchGroup(Strip(raw)).Some?
    ensures var line := Strip(raw);
            var v, g := MatchVoting(line).value, MatchGroup(line).value;
            Step(m, raw, n) == Ok(Machine(ExpectVoting, m.lastVoting, AddGroup(m.coll, g)))
            && |v| < |g| && g[0] == '#' && AllSpace(g[1..|g| - |v|]) && g[|g| - |v|..] == v
  {
    var line := Strip(raw);
    StripKeepsOneLine(raw);
    VotingLineIsGroupLine(line);
    StepOnGroupLine(m, raw, n, MatchGroup(line).value);
  }

  /** On one line, "### name" is also the group line of "#", some whitespace and the name,
      and never a Schulze option. */
  lemma VotingLineIsGroupLine(line: string)
    requires '\n' !in line && MatchVoting(line).Some?
    ensures MatchGroup(line).Some? && MatchSchulzeOption(line).None?
    ensures var v, g := MatchVoting(line).value, MatchGroup(line).value;
            |v| < |g| && g[0] == '#' && AllSpace(g[1..|g| - |v|]) && g[|g| - |v|..] == v
  {
    DeeperHeadingMatchesShallower(line, 2);
    VotingLineIsNoOption(line);
  }

  /** After an option, a group line that is no Schulze option opens a group. */
  lemma StepOnGroupLine(m: Machine, raw: string, n: nat, g: string)
    requires m.state == ExpectGroupOrVoting || m.state == ExpectSchulzeOption
    requires MatchGroup(Strip(raw)) == Some(g) && MatchSchulzeOption(Strip(raw)).None?
    ensures Step(m, raw, n) == Ok(Machine(ExpectVoting, m.lastVoting, AddGroup(m.coll, g)))
  {
  }

  /** A median option line in the option state adds a median voting with its value. */
  lemma MedianOptionStep(m: Machine, raw: string, n: nat, value: nat, currency: Option<char>)
    requires m.state == ExpectOption && Consistent(m)
    requires Strip(raw) != "" && MatchSchulzeOption(Strip(raw)).None?
    requires ParseCurrencyValue(MatchMedianOption(Strip(raw))) == Some((value, currency))
    ensures Step(m, raw, n)
            == Ok(Machine(ExpectGroupOrVoting, m.lastVoting,
                          AddMedian(m.coll, Median(m.lastVoting.value, value, currency))))
  {
  }
}
