/** `parse_voting_collection` and its handlers (stura_voting_utils/parser.py lines 57-189) as
    the source runs them: a loop over the lines that keeps the state and the last voting name
    in variables and grows one `VotingCollection` in place. Each handler is proved to do to
    the collection what the transition of the same name in TextGrammar does to its value,
    and the driver to return what `TextGrammar.Parse` describes. */
module TextParser {
  import opened Wrappers
  import opened Lexing
  import opened Recognizers
  import opened Errors
  import opened Records
  import opened TextGrammar

  // ---------------------------------------------------------------------------------------
  // The handlers.

  /** `_handle_group_state` (parser.py:102-111): a group line appends a new group with two
      empty lists to the end of the groups; any other line fails and `res` is unchanged. */
  method HandleGroupState(res: VotingCollection, line: string, n: nat) returns (r: Result<State, ParseError>)
    requires res.Valid()
    modifies res
    ensures res.Valid() && fresh(res.Repr - old(res.Repr))
    ensures match MatchGroup(line)
            case None => r == Err(ParseError(InvalidGroup, n)) && unchanged(res)
            case Some(g) => r == Ok(ExpectVoting) && res.Model() == AddGroup(old(res.Model()), g)
  {
    var m := MatchGroup(line);
    if m.None? {
      return Err(ParseError(InvalidGroup, n));
    }
    var group := new VotingGroup(m.value, [], [], |res.groups|);
    res.groups := res.groups + [group];
    res.Repr := res.Repr + {group};
    AppendedGroup(res, group);
    return Ok(ExpectVoting);
  }

  /** `_handle_voting_state` (parser.py:114-121): a voting line names the voting whose
      options follow. The handler reads `res` but never changes it. */
  method HandleVotingState(res: VotingCollection, line: string, n: nat)
    returns (r: Result<(Option<string>, State), ParseError>)
    ensures match MatchVoting(line)
            case None => r == Err(ParseError(InvalidVoting, n))
            case Some(v) => r == Ok((Some(v), ExpectOption))
  {
    var m := MatchVoting(line);
    if m.None? {
      return Err(ParseError(InvalidVoting, n));
    }
    return Ok((m, ExpectOption));
  }

  /** The two kinds of option line `_match_first` tells apart (parser.py:131). */
  datatype OptionLine = SchulzeLine(option: string) | MedianLine(amount: Amount)

  function AsSchulzeLine(s: string): Option<OptionLine> {
    match MatchSchulzeOption(s)
    case None => None
    case Some(option) => Some(SchulzeLine(option))
  }

  function AsMedianLine(s: string): Option<OptionLine> {
    match MatchMedianOption(s)
    case None => None
    case Some(amount) => Some(MedianLine(amount))
  }

  /** The machine a handler that returns only the next state leaves behind. */
  function WithState(r: Result<State, ParseError>, lastVoting: Option<string>, coll: Collection)
    : Result<Machine, ParseError>
  {
    match r
    case Ok(state) => Ok(Machine(state, lastVoting, coll))
    case Err(e) => Err(e)
  }

  /** The machine a handler that returns the voting name and the next state leaves behind. */
  function WithPair(r: Result<(Option<string>, State), ParseError>, coll: Collection)
    : Result<Machine, ParseError>
  {
    match r
    case Ok((lastVoting, state)) => Ok(Machine(state, lastVoting, coll))
    case Err(e) => Err(e)
  }

  /** The call `_match_first(line, _schulze_option_rx, _median_option_rx)` (parser.py:131):
      the Schulze form is tried first, and the index says which form matched. */
  method MatchOptionLine(line: string) returns (id: int, m: Option<OptionLine>)
    ensures -1 <= id <= 1 && (id == -1 <==> m.None?)
    ensures id == -1 ==> AsSchulzeLine(line).None? && AsMedianLine(line).None?
    ensures id == 0 ==> m == AsSchulzeLine(line) && m.value.SchulzeLine?
    ensures id == 1 ==> AsSchulzeLine(line).None? && m == AsMedianLine(line) && m.value.MedianLine?
  {
    var matchers := [AsSchulzeLine, AsMedianLine];
    id, m := MatchFirst(line, matchers);
    assert matchers[0](line) == AsSchulzeLine(line) && matchers[1](line) == AsMedianLine(line);
    if id == -1 {
      assert matchers[0](line).None? && matchers[1](line).None?;
    }
  }

  /** `_handle_option_state` (parser.py:124-155): the first option of a voting opens a
      Schulze voting with that option or adds a median voting with the amount in cents, both
      under the pending voting name, to the last group. */
  method HandleOptionState(res: VotingCollection, lastVoting: Option<string>, line: string, n: nat)
    returns (r: Result<State, ParseError>)
    requires res.Valid()
    modifies res.Repr
    ensures res.Valid() && fresh(res.Repr - old(res.Repr))
    ensures WithState(r, lastVoting, res.Model())
            == OptionTransition(Machine(ExpectOption, lastVoting, old(res.Model())), line, n)
  {
    ghost var before := Machine(ExpectOption, lastVoting, res.Model());
    if res.groups == [] || lastVoting.None? || lastVoting.value == "" {
      OptionWithoutVoting(before, line, n);
      return Err(ParseError(OptionStateInconsistent, n));
    }
    var id, m := MatchOptionLine(line);
    ModelUnchanged(res);
    r := AddOptionLine(res, lastVoting, line, n, id, m);
  }

  /** The option transition without a group or without a pending voting name. */
  lemma OptionWithoutVoting(m: Machine, line: string, n: nat)
    requires m.coll.groups == [] || m.lastVoting.None? || m.lastVoting.value == ""
    ensures OptionTransition(m, line, n) == Err(ParseError(OptionStateInconsistent, n))
  {
  }

  /** parser.py:132-155, once the line is matched: the option line `m`, of the form `id`,
      becomes a new voting of the last group. */
  method AddOptionLine(res: VotingCollection, lastVoting: Option<string>, line: string, n: nat,
                       id: int, m: Option<OptionLine>)
    returns (r: Result<State, ParseError>)
    requires res.Valid() && res.groups != [] && lastVoting.Some? && lastVoting.value != ""
    requires -1 <= id <= 1 && (id == -1 <==> m.None?)
    requires id == -1 ==> AsSchulzeLine(line).None? && AsMedianLine(line).None?
    requires id == 0 ==> m == AsSchulzeLine(line) && m.value.SchulzeLine?
    requires id == 1 ==> AsSchulzeLine(line).None? && m == AsMedianLine(line) && m.value.MedianLine?
    modifies res.Repr
    ensures res.Valid() && fresh(res.Repr - old(res.Repr))
    ensures WithState(r, lastVoting, res.Model())
            == OptionTransition(Machine(ExpectOption, lastVoting, old(res.Model())), line, n)
  {
    ghost var before := Machine(ExpectOption, lastVoting, res.Model());
    if id < 0 {
      NoOptionLine(before, line, n);
      return Err(ParseError(InvalidOption, n));
    } else if id == 0 {
      OpenSchulzeVoting(res, lastVoting.value, m.value.option);
      SchulzeOptionOpens(before, line, n, m.value.option);
      return Ok(ExpectSchulzeOption);
    } else {
      var parsed := ParseCurrencyValue(Some(m.value.amount));
      // Every amount the median form accepts converts, so the internal error of
      // parser.py:145-147 is never raised.
      MatchedAmountConverts(line);
      AddMedianVoting(res, lastVoting.value, parsed.value.0, parsed.value.1);
      MedianOptionAdds(before, line, n, m.value.amount, parsed.value.0, parsed.value.1);
      return Ok(ExpectGroupOrVoting);
    }
  }

  /** The option transition on a line that is no option. */
  lemma NoOptionLine(m: Machine, line: string, n: nat)
    requires m.coll.groups != [] && m.lastVoting.Some? && m.lastVoting.value != ""
    requires AsSchulzeLine(line).None? && AsMedianLine(line).None?
    ensures OptionTransition(m, line, n) == Err(ParseError(InvalidOption, n))
  {
  }

  /** The option transition on a Schulze option line. */
  lemma SchulzeOptionOpens(m: Machine, line: string, n: nat, option: string)
    requires m.coll.groups != [] && m.lastVoting.Some? && m.lastVoting.value != ""
    requires AsSchulzeLine(line) == Some(SchulzeLine(option))
    ensures OptionTransition(m, line, n)
            == Ok(Machine(ExpectSchulzeOption, m.lastVoting,
                          AddSchulze(m.coll, Schulze(m.lastVoting.value, [option]))))
  {
  }

  /** The option transition on a median option line whose amount reads as `value` cents. */
  lemma MedianOptionAdds(m: Machine, line: string, n: nat, amount: Amount, value: int,
                         currency: Option<char>)
    requires m.coll.groups != [] && m.lastVoting.Some? && m.lastVoting.value != ""
    requires AsSchulzeLine(line).None? && AsMedianLine(line) == Some(MedianLine(amount))
    requires ParseCurrencyValue(Some(amount)) == Some((value, currency))
    ensures OptionTransition(m, line, n)
            == Ok(Machine(ExpectGroupOrVoting, m.lastVoting,
                          AddMedian(m.coll, Median(m.lastVoting.value, value, currency))))
  {
  }

  /** parser.py:137-139: a new Schulze voting `name` with the single option `option` is
      appended to the Schulze votings of the last group. */
  method OpenSchulzeVoting(res: VotingCollection, name: string, option: string)
    requires res.Valid() && res.groups != []
    modifies res.Repr
    ensures res.Valid() && fresh(res.Repr - old(res.Repr))
    ensures res.Model() == AddSchulze(old(res.Model()), Schulze(name, [option]))
  {
    var group := res.groups[|res.groups| - 1];
    var skeleton := new SchulzeVotingSkeleton(name, [option], (|res.groups| - 1, |group.schulzeVotings|));
    group.schulzeVotings := group.schulzeVotings + [skeleton];
    res.Repr := res.Repr + {skeleton};
    AppendedSchulze(res, skeleton);
  }

  /** parser.py:148-150: a median voting `name` on `value` cents is appended to the median
      votings of the last group. */
  method AddMedianVoting(res: VotingCollection, name: string, value: int, currency: Option<char>)
    requires res.Valid() && res.groups != []
    modifies res.Repr
    ensures res.Valid() && res.Repr == old(res.Repr)
    ensures res.Model() == AddMedian(old(res.Model()), Median(name, value, currency))
  {
    var group := res.groups[|res.groups| - 1];
    var skeleton := new MedianVotingSkeleton(name, value, currency);
    group.medianVotings := group.medianVotings + [skeleton];
    AppendedMedian(res, skeleton);
  }

  /** `_handle_group_or_voting_state` (parser.py:158-167): after a median voting the next
      line is a group line or a voting line, tried in that order. */
  method HandleGroupOrVotingState(res: VotingCollection, lastVoting: Option<string>, line: string,
                                  n: nat)
    returns (r: Result<(Option<string>, State), ParseError>)
    requires res.Valid()
    modifies res
    ensures res.Valid() && fresh(res.Repr - old(res.Repr))
    ensures WithPair(r, res.Model())
            == GroupOrVotingTransition(Machine(ExpectGroupOrVoting, lastVoting, old(res.Model())), line, n)
  {
    var group := HandleGroupState(res, line, n);
    if group.Ok? {
      return Ok((lastVoting, group.value));
    }
    var voting := HandleVotingState(res, line, n);
    ModelUnchanged(res);
    if voting.Err? {
      return Err(ParseError(InvalidGroupOrVoting, n));
    }
    return voting;
  }

  /** `_handle_schulze_option_state` (parser.py:170-189): after a Schulze option the next
      line is a further option of the same voting, or else a group or voting line. */
  method HandleSchulzeOptionState(res: VotingCollection, lastVoting: Option<string>, line: string,
                                  n: nat)
    returns (r: Result<(Option<string>, State), ParseError>)
    requires res.Valid()
    modifies res.Repr
    ensures res.Valid() && fresh(res.Repr - old(res.Repr))
    ensures WithPair(r, res.Model())
            == SchulzeOptionTransition(Machine(ExpectSchulzeOption, lastVoting, old(res.Model())), line, n)
  {
    ghost var before := Machine(ExpectSchulzeOption, lastVoting, res.Model());
    var m := MatchSchulzeOption(line);
    if m.Some? {
      if res.groups == [] {
        return Err(ParseError(SchulzeOptionWithoutGroup, n));
      }
      var group := res.groups[|res.groups| - 1];
      if group.schulzeVotings == [] {
        // `last_group.schulze_votings[-1]` raises an IndexError here.
        return Err(ParseError(NoSchulzeVoting, n));
      }
      AppendOption(res, m.value);
      FurtherSchulzeOption(before, line, n, m.value);
      // Line 182 stores the pair (name, state) in `state`; the evident intent, kept here,
      // is to stay in the Schulze-option state.
      return Ok((lastVoting, ExpectSchulzeOption));
    }
    NoFurtherSchulzeOption(before, line, n);
    var next := HandleGroupOrVotingState(res, lastVoting, line, n);
    if next.Err? {
      return Err(ParseError(InvalidSchulzeOrNext, n));
    }
    return next;
  }

  /** The Schulze-option transition on a further option line. */
  lemma FurtherSchulzeOption(m: Machine, line: string, n: nat, option: string)
    requires m.coll.groups != [] && Last(m.coll.groups).schulzes != []
    requires MatchSchulzeOption(line) == Some(option)
    ensures SchulzeOptionTransition(m, line, n)
            == Ok(Machine(ExpectSchulzeOption, m.lastVoting, AddOption(m.coll, option)))
  {
  }

  /** The Schulze-option transition on any other line is the group-or-voting transition,
      with its error reworded. */
  lemma NoFurtherSchulzeOption(m: Machine, line: string, n: nat)
    requires MatchSchulzeOption(line).None?
    ensures SchulzeOptionTransition(m, line, n)
            == match GroupOrVotingTransition(m.(state := ExpectGroupOrVoting), line, n)
               case Ok(next) => Ok(next)
               case Err(_) => Err(ParseError(InvalidSchulzeOrNext, n))
  {
  }

  /** parser.py:178-180: `option` is appended to the options of the last Schulze voting of
      the last group. */
  method AppendOption(res: VotingCollection, option: string)
    requires res.Valid() && res.groups != [] && Last(res.groups).schulzeVotings != []
    modifies res.Repr
    ensures res.Valid() && res.Repr == old(res.Repr)
    ensures res.Model() == AddOption(old(res.Model()), option)
  {
    var group := res.groups[|res.groups| - 1];
    var skeleton := group.schulzeVotings[|group.schulzeVotings| - 1];
    skeleton.options := skeleton.options + [option];
    AppendedOption(res, option);
  }

  // ---------------------------------------------------------------------------------------
  // The driver.

  /** The body of the loop of `parse_voting_collection` (parser.py:77-99) for the line `raw`
      numbered `n`: blank lines are skipped, the head line names the collection, and every
      other line goes to the handler of the current state. */
  method HandleLine(res: VotingCollection, state: State, lastVoting: Option<string>, raw: string,
                    n: nat)
    returns (r: Result<(Option<string>, State), ParseError>)
    requires res.Valid()
    modifies res.Repr
    ensures res.Valid() && fresh(res.Repr - old(res.Repr))
    ensures WithPair(r, res.Model()) == Step(Machine(state, lastVoting, old(res.Model())), raw, n)
  {
    // Line 78 calls `line.sptrip()`; the evident intent is `strip`.
    var line := Strip(raw);
    if line == "" {
      return Ok((lastVoting, state));
    }
    match state
    case Start =>
      var title := MatchHead(line);
      if title.None? {
        return Err(ParseError(InvalidHead, n));
      }
      res.name := title.value;
      Renamed(res);
      return Ok((lastVoting, ExpectGroup));
    case ExpectGroup =>
      var next := HandleGroupState(res, line, n);
      return match next case Ok(s) => Ok((lastVoting, s)) case Err(e) => Err(e);
    case ExpectVoting =>
      r := HandleVotingState(res, line, n);
      ModelUnchanged(res);
    case ExpectOption =>
      var next := HandleOptionState(res, lastVoting, line, n);
      return match next case Ok(s) => Ok((lastVoting, s)) case Err(e) => Err(e);
    case ExpectGroupOrVoting =>
      r := HandleGroupOrVotingState(res, lastVoting, line, n);
    case ExpectSchulzeOption =>
      // Line 97 unpacks the pair the handler returns as (state, name); the handler returns
      // (name, state), and the model keeps that order.
      r := HandleSchulzeOptionState(res, lastVoting, line, n);
  }

  /** One turn of the loop of `parse_voting_collection`: the line numbered `i + 1` is handled
      in the machine the first `i` lines reached, and the result is either the machine after
      it or the error the whole parse ends with. */
  method ParseNextLine(res: VotingCollection, state: State, lastVoting: Option<string>,
                       lines: seq<string>, i: nat)
    returns (r: Result<(Option<string>, State), ParseError>)
    requires i < |lines| && res.Valid()
    requires RunTo(lines, i) == Ok(Machine(state, lastVoting, res.Model()))
    modifies res.Repr
    ensures res.Valid() && fresh(res.Repr - old(res.Repr))
    ensures r.Ok? ==> RunTo(lines, i + 1) == Ok(Machine(r.value.1, r.value.0, res.Model()))
    ensures r.Err? ==> Parse(lines) == Err(r.error)
  {
    ghost var before := Machine(state, lastVoting, res.Model());
    r := HandleLine(res, state, lastVoting, lines[i], i + 1);
    StepAdvances(lines, i, before, r, res.Model());
  }

  /** Handling the line numbered `i + 1` as `Step` does advances `RunTo` by one line, and an
      error there is the error of the whole file. */
  lemma StepAdvances(lines: seq<string>, i: nat, m: Machine,
                     r: Result<(Option<string>, State), ParseError>, c: Collection)
    requires i < |lines| && RunTo(lines, i) == Ok(m)
    requires WithPair(r, c) == Step(m, lines[i], i + 1)
    ensures r.Ok? ==> RunTo(lines, i + 1) == Ok(Machine(r.value.1, r.value.0, c))
    ensures r.Err? ==> Parse(lines) == Err(r.error)
  {
    RunToNext(lines, i + 1, m);
    if r.Err? {
      RunToErrorIsFinal(lines, i + 1);
    }
  }

  /** The empty collection `parse_voting_collection` starts from (parser.py:74). */
  method NewCollection() returns (res: VotingCollection)
    ensures res.Valid() && fresh(res.Repr)
    ensures res.Model() == Initial.coll
  {
    res := new VotingCollection("", None, []);
  }

  /** `parse_voting_collection` (parser.py:73-99): reads the lines in order, numbering them
      from 1, and stops at the first line that fails. The source never returns the
      collection; the evident intent, modelled here, is to return it once every line is
      read. */
  method ParseVotingCollection(lines: seq<string>) returns (r: Result<VotingCollection, ParseError>)
    ensures r.Ok? ==> r.value.Valid() && Parse(lines) == Ok(r.value.Model())
    ensures r.Err? ==> Parse(lines) == Err(r.error)
  {
    var res := NewCollection();
    var e := ParseLines(res, lines);
    r := if e.Some? then Err(e.value) else Ok(res);
  }

  /** The loop of `parse_voting_collection` (parser.py:76-99) on the empty collection `res`:
      the collection after every line, or the error of the first line that fails. */
  method ParseLines(res: VotingCollection, lines: seq<string>) returns (e: Option<ParseError>)
    requires res.Valid() && res.Model() == Initial.coll
    modifies res.Repr
    ensures res.Valid() && fresh(res.Repr - old(res.Repr))
    ensures e.None? ==> Parse(lines) == Ok(res.Model())
    ensures e.Some? ==> Parse(lines) == Err(e.value)
  {
    var state := Start;
    var lastVoting: Option<string> := None;
    var i := 0;
    ghost var m := Initial;
    while i < |lines|
      invariant i <= |lines|
      invariant res.Valid() && fresh(res.Repr - old(res.Repr))
      invariant m == Machine(state, lastVoting, res.Model())
      invariant RunTo(lines, i) == Ok(m)
    {
      var next := ParseNextLine(res, state, lastVoting, lines, i);
      if next.Err? {
        return Some(next.error);
      }
      lastVoting, state := next.value.0, next.value.1;
      m := Machine(state, lastVoting, res.Model());
      i := i + 1;
    }
    return None;
  }
}
