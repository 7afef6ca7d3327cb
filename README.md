# stura_voting_utils: the text parser, in Dafny

`stura_voting_utils` reads two plain-text formats used to prepare a student council's
votes.

A **voter file** lists one voter per line as `* name: weight`. Blank lines and lines
starting with `#` are skipped, and the first bad line stops the reading.

A **voting collection** file has this shape:

- a head line `# title`;
- groups `## group`;
- in each group, votings `### voting`, each followed by its options.

An option is either a Schulze option `* text`, one per line, or a single median option
`- 12,50€`: an amount in euros with one or two cent digits and an optional currency
symbol.

The parser reads such a file line by line with a six-state machine. It builds records:

- a `VotingCollection` of `VotingGroup`s;
- each group holds `MedianVotingSkeleton`s and `SchulzeVotingSkeleton`s.

The parser grows these records in place.

This project models `stura_voting_utils/parser.py` and the record classes of
`stura_voting_utils/utils.py`, and proves properties of them.

## Modules

- `Wrappers`: `Option` and `Result`.
- `Errors`: one `ErrorKind` per exception the parser raises, with the line number. This
  includes the `IndexError` of `schulze_votings[-1]`. `IsInternal` marks the kinds the
  source calls internal.
- `Records` (utils.py): the value-only `SimpleVoter` is a datatype. `MedianVotingSkeleton`,
  `SchulzeVotingSkeleton`, `VotingGroup` and `VotingCollection` are classes whose list
  fields the parser grows.
  - Each class has a value view (`Median`, `Schulze`, `Group`, `Collection`), in which the
    parser's specification is stated.
  - Twostate lemmas prove what every in-place append does to that view.
  - Ghost `slot` fields record where each group and Schulze skeleton sits. They prove that
    no object is held twice, so appending to one list changes no other.
- `Lexing`: Python's `\s`, `\d`, `str.strip`, `int()` on digit strings, and the pieces of the
  patterns. These pieces follow Python's backtracking:
  - `(.+?)$` and `(.+)$` capture the same text;
  - `.` stops at a newline;
  - `$` also matches before a final newline;
  - a greedy `\s*` gives characters back to the capture after it.
- `Recognizers`:
  - the six regular expressions of parser.py:11 and 31-35 as matchers that return their
    captures;
  - `_parse_concurrency_value`;
  - `_match_first`.
- `Voters`: `parse_voters`. It is a loop `Collect` over a line reader, with a reference
  description: "the voters of the lines before the first bad line, then the error of that
  line". The two are proved equal.
- `DriverLoop`: the line loop of `parse_voting_collection` for any line handler. The facts
  every run has are proved here once:
  - the invariants it keeps;
  - where it stops;
  - what an inserted ignored line does.
- `TextGrammar`: the state machine as pure functions on the value view.
  - `Step` handles one line and `RunTo` runs the first `j` lines.
  - `Parse` is the specification of the whole parser.
  - Lemmas cover errors, blank lines, the head line and the heading overlap.
- `TextParser`: the parser as the source runs it.
  - Each handler is a method that changes one `VotingCollection` in place and is proved to
    match its transition in `TextGrammar`.
  - `ParseVotingCollection` loops over the lines with the state and the last voting name
    in variables, and returns exactly what `Parse` describes.
- `VotingShape`, `GrammarExamples`: consequences and worked inputs.

## Where the code cannot run as written

`parse_voting_collection` (parser.py:73-99) cannot complete as written. At each such place
the model follows the evident intent and says so in a comment:

- line 78 calls `line.sptrip()`, which raises `AttributeError`; the model strips the line;
- line 97 unpacks the handler's `(name, state)` pair as `(state, name)`; the model keeps the
  handler's order;
- line 182 stores the pair `(name, state)` in `state`, which the return at 189 then nests;
  the model stays in the Schulze-option state;
- the function has no `return res`; the model returns the collection once every line is
  read.

## What the proofs show about the parser

- **Internal errors never occur.** From any reachable state, the transitions never raise:
  - the "Internal error" exceptions (parser.py:99, 127, 147, 177);
  - the `IndexError` at 179.

  The `ValueError` branches of `_parse_concurrency_value` (53-54) and of `parse_voters`
  (26-27) are unreachable, because every matched digit string converts.
- **A `###` line is also a `##` line** on a line without newlines. Its `##` capture is `#`,
  some whitespace, and the voting name.
  - `_handle_group_or_voting_state` tries the group pattern first, so after the options of a
    voting, a `### name` line opens a group called `# name`.
  - Consequently, on a file split into lines, every accepted group holds at most one voting
    (`VotingShape.ParsedGroupsHoldOneVoting`).
  - A collection written with a second `### voting` directly after the options of the
    first is therefore rejected (`GrammarExamples.BudgetRejected`). The same votings, each
    under its own `## group`, are accepted (`GrammarExamples.BudgetTwoGroupsAccepted`).
- **The overlap needs one-line input.** With an inner newline it fails:
  `"###\n x"` is a voting line but not a group line.
- **A file with no head line is accepted.** A file of blank lines yields a collection with
  the empty name. A first line `## X` is a valid head line with title `# X`.

## Model

| member | source | states |
|---|---|---|
| Records.AddGroup | stura_voting_utils/parser.py:108-110 | appending a group keeps every earlier group and the name and date, and the new last group has the given name and empty lists |
| Records.AddSchulze | stura_voting_utils/parser.py:138-139 | only the last group's Schulze list changes, and it gains the new voting at its end |
| Records.AddMedian | stura_voting_utils/parser.py:149-150 | only the last group's median list changes, and it gains the new voting at its end |
| Records.AddOption | stura_voting_utils/parser.py:178-180 | only the last Schulze voting of the last group changes, and its options gain the new option at the end |
| Records.MedianVotingSkeleton.constructor | stura_voting_utils/utils.py:21-25 | the skeleton holds the given name, value and currency symbol |
| Records.SchulzeVotingSkeleton.constructor | stura_voting_utils/utils.py:28-31 | the skeleton holds the given name and options |
| Records.VotingGroup.constructor | stura_voting_utils/utils.py:7-11 | the group holds the given name and the two given lists |
| Records.VotingCollection.constructor | stura_voting_utils/utils.py:14-18 | the collection holds the given name, date and groups, and its footprint is itself, its groups and their Schulze skeletons |
| Records.AppendedGroup | stura_voting_utils/parser.py:108-110 | appending a fresh group object in place keeps the collection valid, and its value becomes `AddGroup` of the old value |
| Records.AppendedSchulze | stura_voting_utils/parser.py:138-139 | appending a fresh Schulze skeleton to the last group in place gives `AddSchulze` of the old value and keeps it valid |
| Records.AppendedMedian | stura_voting_utils/parser.py:149-150 | appending a median skeleton to the last group in place gives `AddMedian` of the old value and keeps it valid |
| Records.AppendedOption | stura_voting_utils/parser.py:178-180 | appending an option to the last skeleton in place gives `AddOption` of the old value and keeps it valid |
| Records.Renamed | stura_voting_utils/parser.py:85 | setting the title changes the value's name and nothing else |
| Records.ModelUnchanged | stura_voting_utils/parser.py:114-121 | a collection none of whose objects changed keeps its value and stays valid |
| Lexing.SkipSpaces | stura_voting_utils/parser.py:31 | a greedy `\s*` ends at the first non-whitespace character: what it skips is whitespace and the character after it is not |
| Lexing.SkipSpacesTo | stura_voting_utils/parser.py:31 | any whitespace run that ends before a non-whitespace character is the one `SkipSpaces` finds |
| Lexing.SkipDigits | stura_voting_utils/parser.py:35 | a greedy `\d+` ends at the first non-digit: what it skips is digits and the character after it is not |
| Lexing.SkipDigitsTo | stura_voting_utils/parser.py:35 | any digit run that ends before a non-digit is the one `SkipDigits` finds |
| Lexing.Strip | stura_voting_utils/parser.py:16 | `str.strip` yields the empty string exactly for all-whitespace lines, and otherwise starts and ends with non-whitespace |
| Lexing.StripIsSlice | stura_voting_utils/parser.py:16 | the stripped line is a slice of the line with only whitespace before and after it |
| Lexing.StripUnpadded | stura_voting_utils/parser.py:78 | a line that starts and ends with text is its own strip |
| Lexing.StripKeepsOneLine | stura_voting_utils/parser.py:78 | stripping a line without newlines leaves one without newlines |
| Lexing.RestOfLine | stura_voting_utils/parser.py:31 | a `(.+)$` capture is non-empty, holds no newline, and is the rest of the line up to at most one final newline |
| Lexing.RestOfLineOneLine | stura_voting_utils/parser.py:31 | on text without newlines the capture is all of the rest, and there is none at the end of the line |
| Lexing.BacktrackRest | stura_voting_utils/parser.py:32 | the capture is non-empty, holds no newline, and is the line's own text from a position between the lowest and the highest start tried up to the end of the line, or up to a final newline |
| Lexing.BacktrackRestOneLine | stura_voting_utils/parser.py:32-34 | without newlines, the capture is the rest of the line, or its last character when the whitespace reaches the end |
| Lexing.SpacesThenRest | stura_voting_utils/parser.py:32-34 | a `\s{least,}(.+?)$` capture is non-empty, holds no newline, and is the rest of the line from a position after at least `least` characters of the whitespace run, up to the end or a final newline |
| Lexing.SpacesThenRestOneLine | stura_voting_utils/parser.py:32-34 | without newlines: no match with too little whitespace, else the text after the whitespace, or its last character if whitespace ends the line |
| Recognizers.MatchHeading | stura_voting_utils/parser.py:31-33 | a heading capture is non-empty and holds no newline; at least `depth` hash signs follow the leading whitespace, and the capture is the rest of the line from a position within the whitespace run after the first `depth` of them, up to the end or a final newline |
| Recognizers.HeadingLineAccepted | stura_voting_utils/parser.py:31-33 | every line "whitespace, d hash signs, whitespace, title" is a depth-d heading whose capture is exactly the title |
| Recognizers.DeeperHeadingMatchesShallower | stura_voting_utils/parser.py:31-33 | on a line without newlines a `###` heading is also a `##` heading (and `##` a `#`), whose capture is `#`, whitespace, and the deeper capture |
| Recognizers.DeeperHeadingOverlapNeedsOneLine | stura_voting_utils/parser.py:32-33 | "###\n x" is a voting line with name "x" but no group line |
| Recognizers.GroupLineIsHead | stura_voting_utils/parser.py:31 | "## X" is a head line with title "# X" |
| Recognizers.MatchSchulzeOption | stura_voting_utils/parser.py:34 | an option line has a star and a whitespace character after its leading whitespace, and the capture is the non-empty, newline-free rest of the line from a position after at least one character of the whitespace run that follows the star |
| Recognizers.SchulzeOptionAccepted | stura_voting_utils/parser.py:34 | every line "whitespace, star, whitespace, option" is a Schulze option whose capture is exactly the option |
| Recognizers.AmountTail | stura_voting_utils/parser.py:35 | the tail keeps the euro and cent captures; what follows is whitespace, then the captured symbol (one of euro, dollar and pound) if any, then the end of the line |
| Recognizers.AmountAt | stura_voting_utils/parser.py:35 | the euro capture is a non-empty digit string, a cent capture has one or two digits, a symbol is a currency symbol, and all three are the line's own characters in that order, with a point or comma before the cents |
| Recognizers.MatchMedianOption | stura_voting_utils/parser.py:35 | a median option has a dash and whitespace after its leading whitespace, and right after that whitespace run the line holds the euro digits, a point or comma and one or two cent digits if captured, whitespace, the symbol if captured, and the end of the line |
| Recognizers.AmountTailAccepted | stura_voting_utils/parser.py:35 | whitespace and an optional symbol up to the end complete an amount with exactly that symbol |
| Recognizers.AmountAtAccepted | stura_voting_utils/parser.py:35 | an amount written as euro digits, optional separator and cent digits, whitespace and a symbol is read back with exactly those parts |
| Recognizers.MedianOptionAccepted | stura_voting_utils/parser.py:35 | every line "whitespace, dash, whitespace, amount, whitespace, symbol" matches with exactly those captures |
| Recognizers.OptionPatternsExclusive | stura_voting_utils/parser.py:34-35 | no line is both a Schulze and a median option |
| Recognizers.WeightAt | stura_voting_utils/parser.py:11 | a weight follows a colon, is a non-empty digit string, and ends the line |
| Recognizers.LazyName | stura_voting_utils/parser.py:11 | the lazy name ends before a colon that a weight follows, with no newline in the name |
| Recognizers.LazyNameFinds | stura_voting_utils/parser.py:11 | the lazy name stops at the first position where a weight starts |
| Recognizers.VoterFrom | stura_voting_utils/parser.py:11 | a voter capture has a non-empty one-line name right before a colon and a digit weight that ends the line |
| Recognizers.MatchVoter | stura_voting_utils/parser.py:11 | a voter line's name is non-empty, one line, and sits right before a colon, and the weight is digits that end the line |
| Recognizers.VoterLineAccepted | stura_voting_utils/parser.py:11 | every line "whitespace, star, whitespace, name, colon, whitespace, digits" gives exactly that name and weight, even when the name holds colons |
| Recognizers.Cents | stura_voting_utils/parser.py:45-49 | a one-digit cent part counts as tenths and a two-digit one as hundredths, so the cents are at most 99 |
| Recognizers.ParseCurrencyValue | stura_voting_utils/parser.py:38-54 | no match gives no value; every well-formed amount gives a value whose hundreds are the euros, whose remainder is the cents, and whose symbol is the captured one |
| Recognizers.MatchedAmountConverts | stura_voting_utils/parser.py:53-54 | every line the median pattern accepts converts, so the `ValueError` branch is unreachable |
| Recognizers.AmountValue | stura_voting_utils/parser.py:42-52 | a well-formed amount is worth 100 cents per euro plus its cents |
| Recognizers.MedianOptionValue | stura_voting_utils/parser.py:35-52 | every line the median pattern accepts is worth 100 cents per euro plus its cents (one cent digit counting as tenths), with its symbol |
| Recognizers.WholeAmountExample | stura_voting_utils/parser.py:43-52 | "- 3" is 300 cents without a symbol |
| Recognizers.TenthsAmountExample | stura_voting_utils/parser.py:46-47 | "- 3.5" is 350 cents |
| Recognizers.HundredthsAmountExample | stura_voting_utils/parser.py:48-49 | "- 3.50" is 350 cents |
| Recognizers.SymbolAmountExample | stura_voting_utils/parser.py:43-52 | "- 3,05€" is 305 cents in euros |
| Recognizers.MatchFirst | stura_voting_utils/parser.py:65-70 | the result is the least index of a matcher that accepts, with its captures, and -1 with nothing exactly when none accepts |
| Voters.ReadVoterLineSpec | stura_voting_utils/parser.py:16-28 | a blank or comment line yields nothing, a line the pattern rejects fails with its number, any other line yields its voter |
| Voters.ReadVoterLineClassifies | stura_voting_utils/parser.py:16-28 | a line fails exactly when it is bad, always with "invalid entry" and its number, and otherwise yields its reference entry |
| Voters.CollectSpec | stura_voting_utils/parser.py:15-28 | for any line reader of that kind, the loop yields the entries of the lines before the first bad one and then fails with that line's number |
| Voters.ParseVotersSpec | stura_voting_utils/parser.py:14-28 | `parse_voters` yields the voters of the lines before the first bad line, in order, then fails at that line, or ends without error |
| Voters.EntriesAppend | stura_voting_utils/parser.py:15-28 | the voters of a file are those of its parts, one after the other |
| Voters.CommentLineSkipped | stura_voting_utils/parser.py:17-18 | a comment line yields nothing |
| Voters.AliceLine | stura_voting_utils/parser.py:19-28 | "* Alice: 5" yields the voter Alice with weight 5 |
| Voters.BobLineFails | stura_voting_utils/parser.py:20-21 | "* Bob 5" fails with "invalid entry" at its line |
| Voters.AcceptedLineExample | stura_voting_utils/parser.py:14-28 | a one-line file "* Alice: 5" yields Alice and no error |
| Voters.StopsAtFirstBadLineExample | stura_voting_utils/parser.py:14-28 | comment, blank, Alice, a bad line, Carol: Alice is yielded, then the error names line 4 |
| DriverLoop.RunNext | stura_voting_utils/parser.py:77-99 | the run over `j` lines is the handler applied to line `j` in the state after `j - 1` lines |
| DriverLoop.RunInvariant | stura_voting_utils/parser.py:77-99 | an invariant the handler keeps holds after every run, and a run fails only at one of its lines and never with an internal error |
| DriverLoop.RunPrefixOk | stura_voting_utils/parser.py:77-99 | a run that got through `j` lines got through every shorter prefix |
| DriverLoop.RunErrorPersists | stura_voting_utils/parser.py:77-99 | once a run failed, later lines do not change the result |
| DriverLoop.RunStopsAtFirstError | stura_voting_utils/parser.py:77-99 | a failed run got through the lines before its error's line, and the handler rejected that line with that error |
| DriverLoop.RunFailsAtErrorLine | stura_voting_utils/parser.py:77-99 | a failed run succeeded up to the line before the error and fails with the same error at that line |
| DriverLoop.RunPrefix | stura_voting_utils/parser.py:77-99 | the run over the first `k` lines depends on those lines only |
| DriverLoop.RunIgnoredPrefix | stura_voting_utils/parser.py:79-80 | lines the handler ignores leave the start state unchanged |
| DriverLoop.RunWithIgnoredLine | stura_voting_utils/parser.py:77-80 | inserting an ignored line after line `j` changes only the numbers of later errors, each by one |
| TextGrammar.GroupTransition | stura_voting_utils/parser.py:102-111 | a rejected line fails with "invalid group" at its number; an accepted one leads to a consistent machine |
| TextGrammar.VotingTransition | stura_voting_utils/parser.py:114-121 | a rejected line fails with "invalid voting" at its number; with a group present the result is consistent |
| TextGrammar.OptionTransition | stura_voting_utils/parser.py:124-155 | from a consistent option state the result is consistent and the only error is "invalid option" at the line, never an internal error |
| TextGrammar.GroupOrVotingTransition | stura_voting_utils/parser.py:158-167 | the only error is "group or voting" at the line, and with a group present the result is consistent |
| TextGrammar.SchulzeOptionTransition | stura_voting_utils/parser.py:170-189 | from a consistent Schulze-option state the result is consistent and the only error is "Schulze option or next" at the line |
| TextGrammar.Step | stura_voting_utils/parser.py:77-99 | an error names the line; from a consistent machine a step stays consistent and never raises an internal error |
| TextGrammar.RunTo | stura_voting_utils/parser.py:76-99 | every machine a run reaches is consistent, and a failed run fails at one of its lines without an internal error |
| TextGrammar.RunToErrorIsFinal | stura_voting_utils/parser.py:77-99 | the first error of a run is the error of the whole file |
| TextGrammar.StepErrorsAtLine | stura_voting_utils/parser.py:77-99 | every error a step raises names the line it was given |
| TextGrammar.StepNumberOnlyInErrors | stura_voting_utils/parser.py:77-99 | the line number affects only the errors, never the machine |
| TextGrammar.ErrorOnlyOnNonBlank | stura_voting_utils/parser.py:79-80 | only a line with text can fail |
| TextGrammar.BlankLineIgnored | stura_voting_utils/parser.py:79-80 | a blank line leaves every machine unchanged |
| TextGrammar.ParseErrorIsFirstError | stura_voting_utils/parser.py:77-99 | a failed parse names a non-blank line of the file, never an internal error, and every earlier prefix was accepted |
| TextGrammar.FailingLineIsNotBlank | stura_voting_utils/parser.py:79-80 | the line a run fails at has text, and the run up to the line before succeeded |
| TextGrammar.RunToFirstError | stura_voting_utils/parser.py:77-99 | a failed run succeeded up to the line before its error and failed at it |
| TextGrammar.RunToPrefixOk | stura_voting_utils/parser.py:77-99 | a successful run succeeded on every prefix |
| TextGrammar.ParseWithBlankLine | stura_voting_utils/parser.py:77-80 | inserting a blank line gives the same collection, or the same error with later line numbers moved down by one |
| TextGrammar.FirstLineIsHead | stura_voting_utils/parser.py:81-86 | the first non-blank line must match `# title`, which names an empty collection, and otherwise fails with "invalid head" at that line |
| TextGrammar.BlankPrefixKeepsInitial | stura_voting_utils/parser.py:74-80 | leading blank lines leave the initial machine unchanged |
| TextGrammar.BlankFileIsEmptyCollection | stura_voting_utils/parser.py:74-80 | a file of blank lines is accepted as a nameless collection without groups |
| TextGrammar.VotingLineIsNoOption | stura_voting_utils/parser.py:33-34 | a voting line is never a Schulze option |
| TextGrammar.VotingLineIsGroupLine | stura_voting_utils/parser.py:32-34 | on one line, a voting line is also a group line, named `#`, whitespace and the voting name |
| TextGrammar.GroupOrVotingIsGroup | stura_voting_utils/parser.py:158-167 | on one line, the group-or-voting handler adds a group or fails; it never takes its voting branch |
| TextGrammar.VotingAfterOptionOpensGroup | stura_voting_utils/parser.py:158-189 | after an option, a one-line `### name` opens a group named `#`, whitespace and the name, and the machine waits for a voting |
| TextGrammar.StepOnGroupLine | stura_voting_utils/parser.py:158-167 | after an option, a group line that is no Schulze option opens that group |
| TextGrammar.MedianOptionStep | stura_voting_utils/parser.py:142-152 | a median line in the option state adds a median voting with the pending name and its value in cents |
| TextParser.HandleGroupState | stura_voting_utils/parser.py:102-111 | a group line appends one new group with empty lists in place and leads to the voting state; any other line fails with "invalid group" and changes nothing |
| TextParser.HandleVotingState | stura_voting_utils/parser.py:114-121 | a voting line gives its name and the option state, and anything else fails with "invalid voting" |
| TextParser.MatchOptionLine | stura_voting_utils/parser.py:131 | index 0 with the Schulze captures when the Schulze form matches, else 1 with the median captures, else -1 and nothing |
| TextParser.HandleOptionState | stura_voting_utils/parser.py:124-155 | the collection changes in place exactly as `OptionTransition` changes its value, with the same state or error |
| TextParser.AddOptionLine | stura_voting_utils/parser.py:132-155 | a matched option line becomes the new voting that `OptionTransition` describes |
| TextParser.OpenSchulzeVoting | stura_voting_utils/parser.py:137-139 | the last group gains, in place, a Schulze voting with the pending name and the one option |
| TextParser.AddMedianVoting | stura_voting_utils/parser.py:148-150 | the last group gains, in place, a median voting with the name, value and symbol |
| TextParser.HandleGroupOrVotingState | stura_voting_utils/parser.py:158-167 | the collection and the returned name and state are what `GroupOrVotingTransition` gives |
| TextParser.HandleSchulzeOptionState | stura_voting_utils/parser.py:170-189 | the collection and the returned name and state are what `SchulzeOptionTransition` gives |
| TextParser.FurtherSchulzeOption | stura_voting_utils/parser.py:172-182 | a further option line appends to the last Schulze voting and stays in the Schulze-option state |
| TextParser.NoFurtherSchulzeOption | stura_voting_utils/parser.py:183-188 | any other line is handled as a group or voting line, with the error reworded |
| TextParser.AppendOption | stura_voting_utils/parser.py:178-180 | the option is appended, in place, to the last Schulze voting of the last group |
| TextParser.HandleLine | stura_voting_utils/parser.py:78-97 | the body of the loop changes the collection and returns the state and name exactly as `Step` describes |
| TextParser.ParseNextLine | stura_voting_utils/parser.py:77-99 | one loop turn advances the run by one line, or returns the error of the whole file |
| TextParser.NewCollection | stura_voting_utils/parser.py:74 | the parser starts from a fresh valid collection with no name and no groups |
| TextParser.ParseLines | stura_voting_utils/parser.py:76-99 | the loop ends with the collection `Parse` describes, or with the error `Parse` reports |
| TextParser.ParseVotingCollection | stura_voting_utils/parser.py:73-99 | the result is a valid collection whose value is `Parse(lines)`, or exactly the error `Parse` reports |
| VotingShape.StepKeepsOneVotingShape | stura_voting_utils/parser.py:124-189 | on one-line input each step keeps every group at one voting at most |
| VotingShape.RunToKeepsOneVotingShape | stura_voting_utils/parser.py:77-99 | every run over one-line input keeps every group at one voting at most |
| VotingShape.ParsedGroupsHoldOneVoting | stura_voting_utils/parser.py:158-167 | on a file split into lines, every group of an accepted collection holds at most one voting |
| GrammarExamples.PlainHeading | stura_voting_utils/parser.py:31-33 | a heading line "hashes, space, title" is its own strip and has exactly the title as capture |
| GrammarExamples.HeadStep | stura_voting_utils/parser.py:81-86 | "# Budget" as first line names the collection Budget and leads to the group state |
| GrammarExamples.ChipsStep | stura_voting_utils/parser.py:134-141 | "* Chips" as first option opens the Schulze voting Snacks with option Chips |
| GrammarExamples.SodaStep | stura_voting_utils/parser.py:172-182 | "* Soda" adds Soda to the options of Snacks |
| GrammarExamples.SharedOpening | stura_voting_utils/parser.py:77-99 | after the head, a group, a voting and two options, the collection holds Snacks with both options in Committee |
| GrammarExamples.TripCostAsGroup | stura_voting_utils/parser.py:32 | "### Trip Cost" read as a group line is the group "# Trip Cost" |
| GrammarExamples.TripCostStep | stura_voting_utils/parser.py:158-189 | "### Trip Cost" after options opens the group "# Trip Cost" |
| GrammarExamples.MedianLineAmount | stura_voting_utils/parser.py:35-52 | "- 12,50€" is 1250 cents in euros |
| GrammarExamples.BudgetRejected | stura_voting_utils/parser.py:114-118 | a second `### voting` right after the options of the first makes the parse fail with "invalid voting" at line 7 |
| GrammarExamples.TripCostOptionStep | stura_voting_utils/parser.py:142-152 | "- 12,50€" as option adds the median voting Trip Cost of 1250 cents |
| GrammarExamples.BudgetTwoGroupsAccepted | stura_voting_utils/parser.py:73-99 | the same votings under their own groups are accepted with exactly those groups, votings, options and amounts |
| GrammarExamples.GroupLineAsHead | stura_voting_utils/parser.py:81-86 | the file "## X" is accepted as the collection "# X" without groups |

## Left out

- `stura_voting_utils/voting.py`, `setup.py` and `stura_voting_utils/__init__.py` are not part of this model.
- `WeightedVoter`, `currency_match`, `parse_csv` and `parse_currency`, which `stura_voting_utils/__init__.py:1-2` imports, are not modelled: neither `parser.py` nor `utils.py` defines them, so the package as written fails on that import, and the CSV reading they stand for has no source to model.
- Readers and files: the parsers take any iterable of lines. The model takes the lines as a sequence of strings, which may keep their final newline.
- Laziness: `parse_voters` is a generator. The model returns, at once, the voters it would yield before stopping, together with the error it stops with.
- Exceptions are modelled as `Err` results. The model has the kind of each error and its line number, but not its message text.
- Unicode: under Python 3, `\s`, `\d`, `str.strip` and `int()` also accept non-ASCII whitespace and digits. The model uses the ASCII whitespace set, including the separators `\x1c`-`\x1f`, and ASCII digits only.
- The `date` of `VotingCollection` is opaque. The parser never sets it, and the model keeps it as an optional string.
- List identity: the record lists are `seq` fields that are reassigned on append. Two records sharing one Python list are not modelled; the parser never creates one.
- `Recognizers.ParseCurrencyValue`: a cent part of another length than one or two is the `assert False` of parser.py:51. That is a precondition here, because the median pattern never captures one.
- `Recognizers.WeightAt`: its contract states that the weight is a digit string that follows the colon and ends the line. It does not state that the whitespace before the weight is maximal; the function's definition fixes that.
- `Recognizers.MatchVoter`: its contract does not say which colon the lazy name stops at. `Recognizers.LazyNameFinds` states it, and `Recognizers.VoterLineAccepted` states it for every line of the documented form.
- `Lexing.BacktrackRest`, `Lexing.SpacesThenRest`: in general their contracts bound where the capture starts; the exact start is stated only for text without newlines, in `Lexing.BacktrackRestOneLine` and `Lexing.SpacesThenRestOneLine`.
- `TextParser.ParseVotingCollection`: it returns the collection and strips each line, keeping the handler's pair order and staying in the Schulze-option state. The code as written fails at parser.py:78 on its first line, unpacks at 97 in the opposite order, stores a pair at 182 and never returns. These are modelled as intended, not as written.
- `TextGrammar.Step`: the source's states are strings, and any other value raises the internal error of parser.py:99. The model's closed `State` type has no other value, so that branch does not exist.
