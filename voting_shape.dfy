/** A consequence of the order in which `_handle_group_or_voting_state` (parser.py:158-167)
    tries its patterns: on a file split into lines, each group ends up with one voting. */
module VotingShape {
  import opened Wrappers
  import opened Lexing
  import opened Recognizers
  import opened Errors
  import opened Records
  import opened TextGrammar

  function VotingCount(g: Group): nat {
    |g.medians| + |g.schulzes|
  }

  /** Every group holds at most one voting. */
  predicate AtMostOneVotingEach(c: Collection) {
    forall i :: 0 <= i < |c.groups| ==> VotingCount(c.groups[i]) <= 1
  }

  /** What a run over one-line inputs keeps: at most one voting in every group, and while
      the machine waits for a voting or its first option the last group has none yet. */
  predicate OneVotingShape(m: Machine) {
    AtMostOneVotingEach(m.coll)
    && ((m.state == ExpectVoting || m.state == ExpectOption) ==>
          m.coll.groups != [] && VotingCount(Last(m.coll.groups)) == 0)
  }

  /** A collection whose groups are those of `c` but the last, followed by `h`. */
  lemma ReplaceLastGroup(c: Collection, r: Collection, h: Group)
    requires c.groups != [] && |r.groups| == |c.groups|
    requires r.groups[..|c.groups| - 1] == c.groups[..|c.groups| - 1] && Last(r.groups) == h
    requires AtMostOneVotingEach(c) && VotingCount(h) <= 1
    ensures AtMostOneVotingEach(r)
  {
    forall i | 0 <= i < |r.groups| ensures VotingCount(r.groups[i]) <= 1 {
      if i < |c.groups| - 1 {
        assert r.groups[i] == r.groups[..|c.groups| - 1][i] == c.groups[..|c.groups| - 1][i];
      }
    }
  }

  lemma AddGroupKeepsOneVoting(c: Collection, name: string)
    requires AtMostOneVotingEach(c)
    ensures AtMostOneVotingEach(AddGroup(c, name))
  {
    var r := AddGroup(c, name);
    forall i | 0 <= i < |r.groups| ensures VotingCount(r.groups[i]) <= 1 {
      if i < |c.groups| {
        assert r.groups[i] == r.groups[..|c.groups|][i];
      }
    }
  }

  /** One step of a run over one-line inputs keeps the shape. */
  lemma StepKeepsOneVotingShape(m: Machine, raw: string, n: nat)
    requires Consistent(m) && OneVotingShape(m) && '\n' !in raw
    requires Step(m, raw, n).Ok?
    ensures OneVotingShape(Step(m, raw, n).value)
  {
    var line := Strip(raw);
    if line != "" {
      StripKeepsOneLine(raw);
      var c := m.coll;
      match m.state
      case Start =>
      case ExpectGroup =>
        AddGroupKeepsOneVoting(c, MatchGroup(line).value);
      case ExpectVoting =>
      case ExpectOption =>
        var name := m.lastVoting.value;
        if MatchSchulzeOption(line).Some? {
          var r := AddSchulze(c, Schulze(name, [MatchSchulzeOption(line).value]));
          ReplaceLastGroup(c, r, Last(r.groups));
        } else {
          var v := ParseCurrencyValue(MatchMedianOption(line)).value;
          var r := AddMedian(c, Median(name, v.0, v.1));
          ReplaceLastGroup(c, r, Last(r.groups));
        }
      case ExpectGroupOrVoting =>
        GroupOrVotingIsGroup(m, line, n);
        AddGroupKeepsOneVoting(c, MatchGroup(line).value);
      case ExpectSchulzeOption =>
        if MatchSchulzeOption(line).Some? {
          var r := AddOption(c, MatchSchulzeOption(line).value);
          ReplaceLastGroup(c, r, Last(r.groups));
        } else {
          GroupOrVotingIsGroup(m, line, n);
          AddGroupKeepsOneVoting(c, MatchGroup(line).value);
        }
    }
  }

  lemma {:induction false} RunToKeepsOneVotingShape(lines: seq<string>, j: nat)
    requires j <= |lines| && forall q :: 0 <= q < |lines| ==> '\n' !in lines[q]
    requires RunTo(lines, j).Ok?
    ensures OneVotingShape(RunTo(lines, j).value)
  {
    if j > 0 {
      RunToPrefixOk(lines, j);
      var m := RunTo(lines, j - 1).value;
      RunToKeepsOneVotingShape(lines, j - 1);
      RunToNext(lines, j, m);
      StepKeepsOneVotingShape(m, lines[j - 1], j);
    }
  }

  /** On a file split into lines, no group of an accepted collection holds more than one
      voting: the group-or-voting handler tries the group pattern first, and every `###`
      line also matches it, so a second voting always opens a new group instead. */
  lemma ParsedGroupsHoldOneVoting(lines: seq<string>)
    requires forall q :: 0 <= q < |lines| ==> '\n' !in lines[q]
    requires Parse(lines).Ok?
    ensures forall i :: 0 <= i < |Parse(lines).value.groups| ==>
              |Parse(lines).value.groups[i].medians| + |Parse(lines).value.groups[i].schulzes| <= 1
  {
    RunToKeepsOneVotingShape(lines, |lines|);
  }
}
