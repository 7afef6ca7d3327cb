/** Worked inputs for `parse_voting_collection`: the sample collection whose second voting
    is introduced by "### Trip Cost" right after the options of the first, and the layout
    that the parser accepts for the same votings. */
module GrammarExamples {
  import opened Wrappers
  import opened Lexing
  import opened Recognizers
  import opened Errors
  import opened Records
  import opened TextGrammar

  const Budget: seq<string> :=
    ["# Budget", "## Committee", "### Snacks", "* Chips", "* Soda", "### Trip Cost",
     "- 12,50\U{20AC}"]

  const BudgetTwoGroups: seq<string> :=
    ["# Budget", "## Committee", "### Snacks", "* Chips", "* Soda", "## Travel",
     "### Trip Cost", "- 12,50\U{20AC}"]

  const Committee := Group("Committee", [], [Schulze("Snacks", ["Chips", "Soda"])])

  const AfterSnacks := Machine(ExpectSchulzeOption, Some("Snacks"), Collection("Budget", None, [Committee]))

  // ---------------------------------------------------------------------------------------
  // The lines one by one.

  /** A heading line with one space after the hash signs and nothing around it. */
  lemma PlainHeading(d: nat, title: string)
    requires 0 < d && title != "" && !IsSpace(title[0]) && !IsSpace(title[|title| - 1])
    requires '\n' !in title
    ensures var s := Hashes(d) + " " + title; Strip(s) == s && MatchHeading(s, d) == Some(title)
  {
    var s := Hashes(d) + " " + title;
    HeadingLineAccepted("", d, " ", title);
    assert "" + Hashes(d) + " " + title == s;
    StripUnpadded(s);
  }

  lemma HeadStep()
    ensures Step(Initial, "# Budget", 1)
            == Ok(Machine(ExpectGroup, None, Collection("Budget", None, [])))
  {
    BudgetLine();
  }

  lemma BudgetLine()
    ensures Strip("# Budget") == "# Budget" && MatchHead("# Budget") == Some("Budget")
  {
    assert Hashes(1) + " " + "Budget" == "# Budget" by { assert Hashes(1) == "#"; }
    PlainHeading(1, "Budget");
  }

  lemma CommitteeLine()
    ensures Strip("## Committee") == "## Committee"
    ensures MatchGroup("## Committee") == Some("Committee")
  {
    assert Hashes(2) + " " + "Committee" == "## Committee" by { assert Hashes(2) == "##"; }
    PlainHeading(2, "Committee");
  }

  lemma TravelLine()
    ensures Strip("## Travel") == "## Travel" && MatchGroup("## Travel") == Some("Travel")
    ensures MatchSchulzeOption("## Travel").None?
  {
    assert Hashes(2) + " " + "Travel" == "## Travel" by { assert Hashes(2) == "##"; }
    PlainHeading(2, "Travel");
    assert SkipSpaces("## Travel", 0) == 0;
  }

  lemma SnacksLine()
    ensures Strip("### Snacks") == "### Snacks" && MatchVoting("### Snacks") == Some("Snacks")
  {
    assert Hashes(3) + " " + "Snacks" == "### Snacks" by { assert Hashes(3) == "###"; }
    PlainHeading(3, "Snacks");
  }

  lemma TripCostLine()
    ensures Strip("### Trip Cost") == "### Trip Cost"
    ensures MatchVoting("### Trip Cost") == Some("Trip Cost")
  {
    assert Hashes(3) + " " + "Trip Cost" == "### Trip Cost" by { assert Hashes(3) == "###"; }
    PlainHeading(3, "Trip Cost");
  }

  lemma ChipsLine()
    ensures Strip("* Chips") == "* Chips" && MatchSchulzeOption("* Chips") == Some("Chips")
  {
    assert "" + "*" + " " + "Chips" == "* Chips";
    StripUnpadded("* Chips");
    SchulzeOptionAccepted("", " ", "Chips");
  }

  lemma SodaLine()
    ensures Strip("* Soda") == "* Soda" && MatchSchulzeOption("* Soda") == Some("Soda")
  {
    assert "" + "*" + " " + "Soda" == "* Soda";
    StripUnpadded("* Soda");
    SchulzeOptionAccepted("", " ", "Soda");
  }

  /** "### Trip Cost" read as a group line is the group "# Trip Cost". */
  lemma TripCostAsGroup()
    ensures MatchGroup("### Trip Cost") == Some("# Trip Cost")
  {
    assert "" + Hashes(2) + "" + "# Trip Cost" == "### Trip Cost" by { assert Hashes(2) == "##"; }
    HeadingLineAccepted("", 2, "", "# Trip Cost");
  }

  lemma MedianLineShape()
    ensures Strip("- 12,50\U{20AC}") == "- 12,50\U{20AC}"
    ensures MatchSchulzeOption("- 12,50\U{20AC}").None?
    ensures MatchVoting("- 12,50\U{20AC}").None?
  {
    var s := "- 12,50\U{20AC}";
    StripUnpadded(s);
    assert SkipSpaces(s, 0) == 0;
    assert !AllHashes(s[0..3]) by { assert s[0..3][0] == '-'; }
  }

  lemma MedianLineMatch()
    ensures MatchMedianOption("- 12,50\U{20AC}") == Some(Amount("12", Some("50"), Some('\U{20AC}')))
  {
    assert "" + "-" + " " + AmountText("12", ',', Some("50")) + "" + ['\U{20AC}'] == "- 12,50\U{20AC}" by {
      assert AmountText("12", ',', Some("50")) == "12,50";
    }
    MedianOptionAccepted("", " ", "12", ',', Some("50"), "", Some('\U{20AC}'));
  }

  lemma MedianLineAmount()
    ensures ParseCurrencyValue(MatchMedianOption("- 12,50\U{20AC}")) == Some((1250, Some('\U{20AC}')))
  {
    MedianLineMatch();
    AmountValue(Amount("12", Some("50"), Some('\U{20AC}')));
    assert DigitsValue("12") == 12 by { assert "12"[..1] == "1" && "1"[..0] == ""; }
    assert DigitsValue("50") == 50 by { assert "50"[..1] == "5" && "5"[..0] == ""; }
  }

  // ---------------------------------------------------------------------------------------
  // The machine through the shared first five lines.

  lemma CommitteeStep()
    ensures Step(Machine(ExpectGroup, None, Budget1), "## Committee", 2)
            == Ok(Machine(ExpectVoting, None, Budget2))
  {
    CommitteeLine();
  }

  lemma SnacksStep()
    ensures Step(Machine(ExpectVoting, None, Budget2), "### Snacks", 3)
            == Ok(Machine(ExpectOption, Some("Snacks"), Budget2))
  {
    SnacksLine();
  }

  lemma ChipsStep(c: Collection)
    requires c == Budget2
    ensures Step(Machine(ExpectOption, Some("Snacks"), c), "* Chips", 4)
            == Ok(Machine(ExpectSchulzeOption, Some("Snacks"), Budget4))
  {
    ChipsLine();
    var v := Schulze("Snacks", ["Chips"]);
    var g := Group("Committee", [], []);
    assert Last(c.groups) == g && c.groups[..0] == [];
    assert g.schulzes + [v] == [v];
    assert c.groups[..0] + [g.(schulzes := g.schulzes + [v])] == Budget4.groups;
  }

  lemma SodaStep(c4: Collection)
    requires c4 == Budget4
    ensures Step(Machine(ExpectSchulzeOption, Some("Snacks"), c4), "* Soda", 5) == Ok(AfterSnacks)
  {
    SodaLine();
    var g := Last(c4.groups);
    var v := Last(g.schulzes);
    assert c4.groups[..0] == [] && g.schulzes[..0] == [];
    assert v.options + ["Soda"] == ["Chips", "Soda"];
    var g' := g.(schulzes := g.schulzes[..0] + [v.(options := v.options + ["Soda"])]);
    assert g' == Committee;
    assert c4.groups[..0] + [g'] == [Committee];
  }

  const Budget1 := Collection("Budget", None, [])
  const Budget2 := Collection("Budget", None, [Group("Committee", [], [])])
  const Budget4 := Collection("Budget", None, [Group("Committee", [], [Schulze("Snacks", ["Chips"])])])

  /** The first five lines of both sample files. */
  predicate SharedFirstLines(lines: seq<string>) {
    5 <= |lines| && lines[0] == "# Budget" && lines[1] == "## Committee"
    && lines[2] == "### Snacks" && lines[3] == "* Chips" && lines[4] == "* Soda"
  }

  lemma OpeningTo1(lines: seq<string>)
    requires SharedFirstLines(lines)
    ensures RunTo(lines, 1) == Ok(Machine(ExpectGroup, None, Budget1))
  {
    HeadStep();
    RunToNext(lines, 1, Initial);
  }

  lemma OpeningTo2(lines: seq<string>)
    requires SharedFirstLines(lines)
    ensures RunTo(lines, 2) == Ok(Machine(ExpectVoting, None, Budget2))
  {
    OpeningTo1(lines);
    CommitteeStep();
    RunToNext(lines, 2, Machine(ExpectGroup, None, Budget1));
  }

  lemma OpeningTo3(lines: seq<string>)
    requires SharedFirstLines(lines)
    ensures RunTo(lines, 3) == Ok(Machine(ExpectOption, Some("Snacks"), Budget2))
  {
    OpeningTo2(lines);
    SnacksStep();
    RunToNext(lines, 3, Machine(ExpectVoting, None, Budget2));
  }

  lemma OpeningTo4(lines: seq<string>)
    requires SharedFirstLines(lines)
    ensures RunTo(lines, 4) == Ok(Machine(ExpectSchulzeOption, Some("Snacks"), Budget4))
  {
    OpeningTo3(lines);
    ChipsStep(Budget2);
    RunToNext(lines, 4, Machine(ExpectOption, Some("Snacks"), Budget2));
  }

  /** After "# Budget", "## Committee", "### Snacks", "* Chips" and "* Soda" the collection
      holds the Schulze voting Snacks in group Committee, and more Snacks options may follow. */
  lemma SharedOpening(lines: seq<string>)
    requires SharedFirstLines(lines)
    ensures RunTo(lines, 5) == Ok(AfterSnacks)
  {
    OpeningTo4(lines);
    SodaStep(Budget4);
    RunToNext(lines, 5, Machine(ExpectSchulzeOption, Some("Snacks"), Budget4));
  }

  /** "### Trip Cost" after the Snacks options opens the group "# Trip Cost". */
  lemma TripCostStep()
    ensures Step(AfterSnacks, "### Trip Cost", 6)
            == Ok(Machine(ExpectVoting, Some("Snacks"), AddGroup(AfterSnacks.coll, "# Trip Cost")))
  {
    TripCostLine();
    TripCostAsGroup();
    VotingAfterOptionOpensGroup(AfterSnacks, "### Trip Cost", 6);
  }

  /** The sample file as printed is rejected: "### Trip Cost" after the Snacks options is a
      group line (for the group "# Trip Cost"), so "- 12,50€" comes where a voting line is
      required and line 7 fails. */
  lemma BudgetRejected()
    ensures Parse(Budget) == Err(ParseError(InvalidVoting, 7))
  {
    SharedOpening(Budget);
    TripCostStep();
    var m6 := Machine(ExpectVoting, Some("Snacks"), AddGroup(AfterSnacks.coll, "# Trip Cost"));
    RunToNext(Budget, 6, AfterSnacks);
    PriceLineIsNoVoting(m6, Budget[6]);
    RunToNext(Budget, 7, m6);
  }

  /** Where a voting line is expected, "- 12,50€" fails. */
  lemma PriceLineIsNoVoting(m: Machine, raw: string)
    requires m.state == ExpectVoting && raw == "- 12,50\U{20AC}"
    ensures Step(m, raw, 7) == Err(ParseError(InvalidVoting, 7))
  {
    MedianLineShape();
  }

  lemma TravelStep()
    ensures Step(AfterSnacks, "## Travel", 6)
            == Ok(Machine(ExpectVoting, Some("Snacks"), AddGroup(AfterSnacks.coll, "Travel")))
  {
    TravelLine();
  }

  lemma TripCostVotingStep(c6: Collection)
    requires c6 == AddGroup(AfterSnacks.coll, "Travel")
    ensures Step(Machine(ExpectVoting, Some("Snacks"), c6), "### Trip Cost", 7)
            == Ok(Machine(ExpectOption, Some("Trip Cost"), c6))
  {
    TripCostLine();
  }

  lemma TripCostOptionStep(c6: Collection)
    requires c6 == AddGroup(AfterSnacks.coll, "Travel")
    ensures Step(Machine(ExpectOption, Some("Trip Cost"), c6), "- 12,50\U{20AC}", 8)
            == Ok(Machine(ExpectGroupOrVoting, Some("Trip Cost"),
                          AddMedian(c6, Median("Trip Cost", 1250, Some('\U{20AC}')))))
  {
    MedianLineShape();
    MedianLineAmount();
    MedianOptionStep(Machine(ExpectOption, Some("Trip Cost"), c6), "- 12,50\U{20AC}", 8,
                     1250, Some('\U{20AC}'));
  }

  const Travel6 := AddGroup(AfterSnacks.coll, "Travel")

  lemma TwoGroupsTo7()
    ensures RunTo(BudgetTwoGroups, 7) == Ok(Machine(ExpectOption, Some("Trip Cost"), Travel6))
  {
    var lines := BudgetTwoGroups;
    SharedOpening(lines);
    TravelStep();
    TripCostVotingStep(Travel6);
    RunToNext(lines, 6, AfterSnacks);
    RunToNext(lines, 7, Machine(ExpectVoting, Some("Snacks"), Travel6));
  }

  const TripCost := Median("Trip Cost", 1250, Some('\U{20AC}'))

  lemma TwoGroupsTo8()
    ensures RunTo(BudgetTwoGroups, 8)
            == Ok(Machine(ExpectGroupOrVoting, Some("Trip Cost"), AddMedian(Travel6, TripCost)))
  {
    TwoGroupsTo7();
    TripCostOptionStep(Travel6);
    RunToNext(BudgetTwoGroups, 8, Machine(ExpectOption, Some("Trip Cost"), Travel6));
  }

  lemma TwoGroupsCollection()
    ensures AddMedian(Travel6, TripCost)
            == Collection("Budget", None, [Committee, Group("Travel", [TripCost], [])])
  {
    var g := Group("Travel", [], []);
    assert Travel6.groups == [Committee, g];
    assert Travel6.groups[..1] == [Committee];
    assert Last(Travel6.groups) == g;
    assert g.medians + [TripCost] == [TripCost];
  }

  /** With a group line before the second voting the same votings are read: Snacks with
      its two options in Committee, and Trip Cost at 1250 cents in euros in Travel. */
  lemma BudgetTwoGroupsAccepted()
    ensures Parse(BudgetTwoGroups)
            == Ok(Collection("Budget", None,
                             [Committee,
                              Group("Travel", [Median("Trip Cost", 1250, Some('\U{20AC}'))], [])]))
  {
    TwoGroupsTo8();
    TwoGroupsCollection();
    assert |BudgetTwoGroups| == 8;
  }

  /** A group line is a valid first line: "## X" names the collection "# X". */
  lemma GroupLineAsHead()
    ensures Parse(["## X"]) == Ok(Collection("# X", None, []))
  {
    StripUnpadded("## X");
    GroupLineIsHead();
    RunToNext(["## X"], 1, Initial);
  }
}
