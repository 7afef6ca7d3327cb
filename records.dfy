/** The record classes of stura_voting_utils/utils.py. The parser builds them and grows their
    lists in place, so the skeletons, groups and the collection are classes; each has a value
    view (the datatypes below) that the specification of the parser is stated in. */
module Records {
  import opened Wrappers

  /** utils.py `SimpleVoter`: a voter and their weight. The parser only ever creates voters
      and never changes them, so the record is a value. */
  datatype SimpleVoter = SimpleVoter(name: string, weight: nat)

  // ---------------------------------------------------------------------------------------
  // Value views.

  datatype Median = Median(name: string, value: int, currency: Option<char>)

  datatype Schulze = Schulze(name: string, options: seq<string>)

  datatype Group = Group(name: string, medians: seq<Median>, schulzes: seq<Schulze>)

  datatype Collection = Collection(name: string, date: Option<string>, groups: seq<Group>)

  function Last<T>(s: seq<T>): T
    requires s != []
  {
    s[|s| - 1]
  }

  /** The collection after a new group with empty lists is appended to its groups. */
  function AddGroup(c: Collection, name: string): (r: Collection)
    ensures r.name == c.name && r.date == c.date && |r.groups| == |c.groups| + 1
    ensures r.groups[..|c.groups|] == c.groups
    ensures Last(r.groups) == Group(name, [], [])
  {
    c.(groups := c.groups + [Group(name, [], [])])
  }

  /** The collection after `v` is appended to the Schulze votings of its last group. */
  function AddSchulze(c: Collection, v: Schulze): (r: Collection)
    requires c.groups != []
    ensures r.name == c.name && r.date == c.date && |r.groups| == |c.groups|
    ensures r.groups[..|c.groups| - 1] == c.groups[..|c.groups| - 1]
    ensures Last(r.groups).name == Last(c.groups).name
    ensures Last(r.groups).medians == Last(c.groups).medians
    ensures Last(r.groups).schulzes == Last(c.groups).schulzes + [v]
  {
    var g := Last(c.groups);
    c.(groups := c.groups[..|c.groups| - 1] + [g.(schulzes := g.schulzes + [v])])
  }

  /** The collection after `v` is appended to the median votings of its last group. */
  function AddMedian(c: Collection, v: Median): (r: Collection)
    requires c.groups != []
    ensures r.name == c.name && r.date == c.date && |r.groups| == |c.groups|
    ensures r.groups[..|c.groups| - 1] == c.groups[..|c.groups| - 1]
    ensures Last(r.groups).name == Last(c.groups).name
    ensures Last(r.groups).medians == Last(c.groups).medians + [v]
    ensures Last(r.groups).schulzes == Last(c.groups).schulzes
  {
    var g := Last(c.groups);
    c.(groups := c.groups[..|c.groups| - 1] + [g.(medians := g.medians + [v])])
  }

  /** The collection after `option` is appended to the options of the last Schulze voting
      of the last group: every other group, voting and option stays as it was. */
  function AddOption(c: Collection, option: string): (r: Collection)
    requires c.groups != [] && Last(c.groups).schulzes != []
    ensures r.name == c.name && r.date == c.date && |r.groups| == |c.groups|
    ensures r.groups[..|c.groups| - 1] == c.groups[..|c.groups| - 1]
    ensures Last(r.groups).name == Last(c.groups).name
    ensures Last(r.groups).medians == Last(c.groups).medians
    ensures |Last(r.groups).schulzes| == |Last(c.groups).schulzes|
    ensures Last(r.groups).schulzes[..|Last(c.groups).schulzes| - 1]
            == Last(c.groups).schulzes[..|Last(c.groups).schulzes| - 1]
    ensures Last(Last(r.groups).schulzes).name == Last(Last(c.groups).schulzes).name
    ensures Last(Last(r.groups).schulzes).options == Last(Last(c.groups).schulzes).options + [option]
  {
    var g := Last(c.groups);
    var s := Last(g.schulzes);
    var g' := g.(schulzes := g.schulzes[..|g.schulzes| - 1] + [s.(options := s.options + [option])]);
    c.(groups := c.groups[..|c.groups| - 1] + [g'])
  }

  // ---------------------------------------------------------------------------------------
  // The classes.

  /** utils.py `MedianVotingSkeleton`: a voting on an amount in cents. The source calls the
      symbol field `concurrency`. Nothing changes a skeleton once it is made. */
  class MedianVotingSkeleton {
    const name: string
    const value: int
    const currency: Option<char>

    constructor (name: string, value: int, currency: Option<char>)
      ensures this.name == name && this.value == value && this.currency == currency
    {
      this.name := name;
      this.value := value;
      this.currency := currency;
    }

    function Value(): Median {
      Median(name, value, currency)
    }
  }

  /** utils.py `SchulzeVotingSkeleton`: a ranked voting whose option list the parser grows. */
  class SchulzeVotingSkeleton {
    const name: string
    var options: seq<string>
    /** Ghost: the indices of the group and of the place in its list that hold the skeleton. */
    ghost const slot: (nat, nat)

    constructor (name: string, options: seq<string>, ghost slot: (nat, nat))
      ensures this.name == name && this.options == options && this.slot == slot
    {
      this.name := name;
      this.options := options;
      this.slot := slot;
    }

    ghost function Value(): Schulze
      reads this
    {
      Schulze(name, options)
    }
  }

  /** utils.py `VotingGroup`: the two lists are the group's own and the parser appends to
      them; in the model the fields are reassigned with the longer list. */
  class VotingGroup {
    const name: string
    var medianVotings: seq<MedianVotingSkeleton>
    var schulzeVotings: seq<SchulzeVotingSkeleton>
    /** Ghost: the index of the group in the groups of its collection. */
    ghost const slot: nat

    constructor (name: string, medianVotings: seq<MedianVotingSkeleton>,
                 schulzeVotings: seq<SchulzeVotingSkeleton>, ghost slot: nat)
      ensures this.name == name && this.medianVotings == medianVotings
      ensures this.schulzeVotings == schulzeVotings && this.slot == slot
    {
      this.name := name;
      this.medianVotings := medianVotings;
      this.schulzeVotings := schulzeVotings;
      this.slot := slot;
    }

    ghost function Value(): Group
      reads this, schulzeVotings
    {
      Group(name, MedianValues(medianVotings), SchulzeValues(schulzeVotings))
    }
  }

  function MedianValues(ms: seq<MedianVotingSkeleton>): (r: seq<Median>)
    ensures |r| == |ms| && forall k :: 0 <= k < |ms| ==> r[k] == ms[k].Value()
  {
    if ms == [] then [] else MedianValues(ms[..|ms| - 1]) + [Last(ms).Value()]
  }

  ghost function SchulzeValues(ss: seq<SchulzeVotingSkeleton>): (r: seq<Schulze>)
    reads ss
    ensures |r| == |ss|
  {
    if ss == [] then [] else SchulzeValues(ss[..|ss| - 1]) + [Last(ss).Value()]
  }

  /** Every Schulze skeleton held by one of the groups. */
  ghost function SchulzesOf(gs: seq<VotingGroup>): set<SchulzeVotingSkeleton>
    reads gs
  {
    set i, k | 0 <= i < |gs| && 0 <= k < |gs[i].schulzeVotings| :: gs[i].schulzeVotings[k]
  }

  ghost function GroupValues(gs: seq<VotingGroup>): (r: seq<Group>)
    reads gs, SchulzesOf(gs)
    ensures |r| == |gs|
  {
    if gs == [] then []
    else
      assert SchulzesOf(gs[..|gs| - 1]) <= SchulzesOf(gs) by {
        forall o | o in SchulzesOf(gs[..|gs| - 1]) ensures o in SchulzesOf(gs) {
          var i, k :| 0 <= i < |gs| - 1 && 0 <= k < |gs[i].schulzeVotings| && o == gs[i].schulzeVotings[k];
        }
      }
      GroupValues(gs[..|gs| - 1]) + [Last(gs).Value()]
  }

  /** `gs` and their Schulze skeletons lie in `repr`, and every group and every Schulze
      skeleton records the place that holds it, so no object is held twice and appending to
      one of them changes no other part of the groups. */
  ghost predicate GroupsWellFormed(gs: seq<VotingGroup>, repr: set<object>)
    reads gs
  {
    (forall i :: 0 <= i < |gs| ==> gs[i].slot == i)
    && (forall i, k :: 0 <= i < |gs| && 0 <= k < |gs[i].schulzeVotings|
                       ==> gs[i].schulzeVotings[k] in repr && gs[i].schulzeVotings[k].slot == (i, k))
  }

  /** A new group without Schulze votings, at the next slot, keeps the groups well formed. */
  lemma AppendGroupWellFormed(gs: seq<VotingGroup>, repr: set<object>, g: VotingGroup)
    requires GroupsWellFormed(gs, repr) && g.slot == |gs| && g.schulzeVotings == []
    ensures GroupsWellFormed(gs + [g], repr + {g})
  {
    var gs' := gs + [g];
    forall i | 0 <= i < |gs'| ensures gs'[i].slot == i {
      if i < |gs| {
        assert gs'[i] == gs[i];
      }
    }
    forall i, k | 0 <= i < |gs'| && 0 <= k < |gs'[i].schulzeVotings|
      ensures gs'[i].schulzeVotings[k] in repr + {g} && gs'[i].schulzeVotings[k].slot == (i, k)
    {
      assert gs'[i] == gs[i];
    }
  }

  /** The values of groups depend on nothing but the groups and their Schulze skeletons. */
  twostate lemma GroupValuesUnchanged(gs: seq<VotingGroup>)
    requires forall i :: 0 <= i < |gs| ==> unchanged(gs[i])
    requires forall i, k :: 0 <= i < |gs| && 0 <= k < |gs[i].schulzeVotings|
                            ==> unchanged(gs[i].schulzeVotings[k])
    ensures GroupValues(gs) == old(GroupValues(gs))
    decreases |gs|
  {
    if gs != [] {
      var p := gs[..|gs| - 1];
      forall i | 0 <= i < |p| ensures unchanged(p[i]) {
        assert p[i] == gs[i];
      }
      forall i, k | 0 <= i < |p| && 0 <= k < |p[i].schulzeVotings|
        ensures unchanged(p[i].schulzeVotings[k])
      {
        assert p[i] == gs[i];
      }
      GroupValuesUnchanged(p);
      SchulzeValuesUnchanged(Last(gs).schulzeVotings);
    }
  }

  /** The values of groups with one group appended. */
  lemma GroupValuesAppend(gs: seq<VotingGroup>, g: VotingGroup)
    ensures GroupValues(gs + [g]) == GroupValues(gs) + [g.Value()]
  {
    assert (gs + [g])[..|gs|] == gs;
  }

  /** utils.py `VotingCollection`: a title, an opaque date the parser leaves empty, and the
      groups, which the parser appends to. `Repr` holds the objects the collection is made
      of. */
  class VotingCollection {
    var name: string
    const date: Option<string>
    var groups: seq<VotingGroup>
    ghost var Repr: set<object>

    constructor (name: string, date: Option<string>, groups: seq<VotingGroup>)
      ensures this.name == name && this.date == date && this.groups == groups
      ensures Repr == {this} + (set g | g in groups :: g as object) + SchulzesOf(groups)
    {
      this.name := name;
      this.date := date;
      this.groups := groups;
      Repr := {this} + (set g | g in groups :: g as object) + SchulzesOf(groups);
    }

    /** `Repr` holds the collection, its groups and their Schulze skeletons, none of them
        held twice. */
    ghost predicate Valid()
      reads this, Repr
    {
      this in Repr && (forall i :: 0 <= i < |groups| ==> groups[i] in Repr)
      && GroupsWellFormed(groups, Repr)
    }

    /** The collection as a value. */
    ghost function Model(): Collection
      reads this, groups, SchulzesOf(groups)
    {
      Collection(name, date, GroupValues(groups))
    }
  }

  // ---------------------------------------------------------------------------------------
  // What the parser's appends do to the value of a collection.

  /** The values of Schulze skeletons depend on nothing but the skeletons. */
  twostate lemma SchulzeValuesUnchanged(ss: seq<SchulzeVotingSkeleton>)
    requires forall k :: 0 <= k < |ss| ==> unchanged(ss[k])
    ensures SchulzeValues(ss) == old(SchulzeValues(ss))
  {
  }

  /** A collection none of whose objects changed has the same value. */
  twostate lemma ModelUnchanged(c: VotingCollection)
    requires old(c.Valid()) && unchanged(old(c.Repr))
    ensures c.Valid() && c.Repr == old(c.Repr)
    ensures c.Model() == old(c.Model())
  {
    assert c in old(c.Repr);
    forall i | 0 <= i < |c.groups| ensures unchanged(c.groups[i]) {
      assert c.groups[i] in old(c.Repr);
    }
    forall i, k | 0 <= i < |c.groups| && 0 <= k < |c.groups[i].schulzeVotings|
      ensures unchanged(c.groups[i].schulzeVotings[k])
    {
      assert old(c.groups[i].schulzeVotings[k] in c.Repr);
    }
    GroupValuesUnchanged(c.groups);
  }

  /** A new title changes the name of the value and nothing else. */
  twostate lemma Renamed(c: VotingCollection)
    requires old(c.Valid()) && c.groups == old(c.groups) && c.Repr == old(c.Repr)
    requires forall o :: o in old(c.Repr) && o != c ==> unchanged(o)
    ensures c.Valid()
    ensures c.Model() == old(c.Model()).(name := c.name)
  {
    forall i | 0 <= i < |c.groups| ensures unchanged(c.groups[i]) {
      assert c.groups[i] in old(c.Repr);
    }
    forall i, k | 0 <= i < |c.groups| && 0 <= k < |c.groups[i].schulzeVotings|
      ensures unchanged(c.groups[i].schulzeVotings[k])
    {
      assert old(c.groups[i].schulzeVotings[k] in c.Repr);
    }
    GroupValuesUnchanged(c.groups);
    assert old(GroupsWellFormed(c.groups, c.Repr));
  }

  /** Appending a new group `g` without votings adds a group with empty lists to the value
      and changes nothing else. */
  twostate lemma AppendedGroup(c: VotingCollection, new g: VotingGroup)
    requires old(c.Valid()) && g.medianVotings == [] && g.schulzeVotings == []
    requires g.slot == |old(c.groups)|
    requires c.groups == old(c.groups) + [g] && c.name == old(c.name)
    requires c.Repr == old(c.Repr) + {g}
    requires forall i :: 0 <= i < |old(c.groups)| ==> unchanged(old(c.groups[i]))
    requires forall i, k :: 0 <= i < |old(c.groups)| && 0 <= k < |old(c.groups[i].schulzeVotings)|
                            ==> unchanged(old(c.groups[i].schulzeVotings[k]))
    ensures c.Valid()
    ensures c.Model() == AddGroup(old(c.Model()), g.name)
  {
    AppendedGroupValid(c, g);
    AppendedGroupModel(c, g);
  }

  twostate lemma AppendedGroupValid(c: VotingCollection, new g: VotingGroup)
    requires old(c.Valid()) && g.schulzeVotings == [] && g.slot == |old(c.groups)|
    requires c.groups == old(c.groups) + [g] && c.Repr == old(c.Repr) + {g}
    requires forall i :: 0 <= i < |old(c.groups)| ==> unchanged(old(c.groups[i]))
    ensures c.Valid()
  {
    var gs := old(c.groups);
    assert old(GroupsWellFormed(gs, c.Repr - {g}));
    assert GroupsWellFormed(gs, c.Repr - {g}) by {
      forall i | 0 <= i < |gs| ensures gs[i].schulzeVotings == old(gs[i].schulzeVotings) {
        assert unchanged(gs[i]);
      }
    }
    AppendGroupWellFormed(gs, c.Repr - {g}, g);
  }

  twostate lemma AppendedGroupModel(c: VotingCollection, new g: VotingGroup)
    requires g.medianVotings == [] && g.schulzeVotings == []
    requires c.groups == old(c.groups) + [g] && c.name == old(c.name)
    requires forall i :: 0 <= i < |old(c.groups)| ==> unchanged(old(c.groups[i]))
    requires forall i, k :: 0 <= i < |old(c.groups)| && 0 <= k < |old(c.groups[i].schulzeVotings)|
                            ==> unchanged(old(c.groups[i].schulzeVotings[k]))
    ensures c.Model() == AddGroup(old(c.Model()), g.name)
  {
    var gs := old(c.groups);
    GroupValuesUnchanged(gs);
    GroupValuesAppend(gs, g);
  }

  /** Appending a new Schulze skeleton `s` to the list of the last group adds its value to
      the last group and changes nothing else. */
  twostate lemma AppendedSchulze(c: VotingCollection, new s: SchulzeVotingSkeleton)
    requires old(c.Valid()) && old(c.groups) != []
    requires c.groups == old(c.groups) && c.name == old(c.name) && c.Repr == old(c.Repr) + {s}
    requires Last(c.groups).schulzeVotings == old(Last(c.groups).schulzeVotings) + [s]
    requires s.slot == (|c.groups| - 1, |old(Last(c.groups).schulzeVotings)|)
    requires Last(c.groups).medianVotings == old(Last(c.groups).medianVotings)
    requires forall i :: 0 <= i < |c.groups| - 1 ==> unchanged(c.groups[i])
    requires forall i, k :: 0 <= i < |c.groups| && 0 <= k < |old(c.groups[i].schulzeVotings)|
                            ==> unchanged(old(c.groups[i].schulzeVotings[k]))
    ensures c.Valid()
    ensures c.Model() == AddSchulze(old(c.Model()), s.Value())
  {
    AppendedSchulzeValid(c, s);
    AppendedSchulzeModel(c, s);
  }

  twostate lemma AppendedSchulzeModel(c: VotingCollection, new s: SchulzeVotingSkeleton)
    requires old(c.groups) != []
    requires c.groups == old(c.groups) && c.name == old(c.name)
    requires Last(c.groups).schulzeVotings == old(Last(c.groups).schulzeVotings) + [s]
    requires Last(c.groups).medianVotings == old(Last(c.groups).medianVotings)
    requires forall i :: 0 <= i < |c.groups| - 1 ==> unchanged(c.groups[i])
    requires forall i, k :: 0 <= i < |c.groups| && 0 <= k < |old(c.groups[i].schulzeVotings)|
                            ==> unchanged(old(c.groups[i].schulzeVotings[k]))
    ensures c.Model() == AddSchulze(old(c.Model()), s.Value())
  {
    var g := Last(c.groups);
    var ss := old(g.schulzeVotings);
    LastGroupGrown(c.groups);
    SchulzeValuesUnchanged(ss);
    assert (ss + [s])[..|ss|] == ss;
  }

  twostate lemma AppendedSchulzeValid(c: VotingCollection, new s: SchulzeVotingSkeleton)
    requires old(c.Valid()) && old(c.groups) != []
    requires c.groups == old(c.groups) && c.Repr == old(c.Repr) + {s}
    requires Last(c.groups).schulzeVotings == old(Last(c.groups).schulzeVotings) + [s]
    requires s.slot == (|c.groups| - 1, |old(Last(c.groups).schulzeVotings)|)
    requires forall i :: 0 <= i < |c.groups| - 1 ==> unchanged(c.groups[i])
    ensures c.Valid()
  {
    var gs := c.groups;
    var n := |gs|;
    var ss := old(gs[n - 1].schulzeVotings);
    forall i, k | 0 <= i < n && 0 <= k < |gs[i].schulzeVotings|
      ensures gs[i].schulzeVotings[k] in c.Repr && gs[i].schulzeVotings[k].slot == (i, k)
    {
      if i < n - 1 || k < |ss| {
        assert gs[i].schulzeVotings[k] == old(gs[i].schulzeVotings[k]);
      }
    }
  }

  /** Appending a median skeleton `m` to the list of the last group adds its value to the
      last group and changes nothing else. */
  twostate lemma AppendedMedian(c: VotingCollection, new m: MedianVotingSkeleton)
    requires old(c.Valid()) && old(c.groups) != []
    requires c.groups == old(c.groups) && c.name == old(c.name) && c.Repr == old(c.Repr)
    requires Last(c.groups).medianVotings == old(Last(c.groups).medianVotings) + [m]
    requires Last(c.groups).schulzeVotings == old(Last(c.groups).schulzeVotings)
    requires forall i :: 0 <= i < |c.groups| - 1 ==> unchanged(c.groups[i])
    requires forall i, k :: 0 <= i < |c.groups| && 0 <= k < |c.groups[i].schulzeVotings|
                            ==> unchanged(c.groups[i].schulzeVotings[k])
    ensures c.Valid()
    ensures c.Model() == AddMedian(old(c.Model()), m.Value())
  {
    AppendedMedianModel(c, m);
    AppendedMedianValid(c, m);
  }

  twostate lemma AppendedMedianValid(c: VotingCollection, new m: MedianVotingSkeleton)
    requires old(c.Valid()) && old(c.groups) != []
    requires c.groups == old(c.groups) && c.Repr == old(c.Repr)
    requires Last(c.groups).schulzeVotings == old(Last(c.groups).schulzeVotings)
    requires forall i :: 0 <= i < |c.groups| - 1 ==> unchanged(c.groups[i])
    ensures c.Valid()
  {
    var gs := c.groups;
    forall i | 0 <= i < |gs| ensures gs[i].schulzeVotings == old(gs[i].schulzeVotings) {
      if i < |gs| - 1 {
        assert unchanged(gs[i]);
      }
    }
    assert GroupsWellFormed(gs, c.Repr) by {
      assert old(GroupsWellFormed(gs, c.Repr));
    }
  }

  twostate lemma AppendedMedianModel(c: VotingCollection, new m: MedianVotingSkeleton)
    requires old(c.groups) != []
    requires c.groups == old(c.groups) && c.name == old(c.name)
    requires Last(c.groups).medianVotings == old(Last(c.groups).medianVotings) + [m]
    requires Last(c.groups).schulzeVotings == old(Last(c.groups).schulzeVotings)
    requires forall i :: 0 <= i < |c.groups| - 1 ==> unchanged(c.groups[i])
    requires forall i, k :: 0 <= i < |c.groups| && 0 <= k < |c.groups[i].schulzeVotings|
                            ==> unchanged(c.groups[i].schulzeVotings[k])
    ensures c.Model() == AddMedian(old(c.Model()), m.Value())
  {
    var g := Last(c.groups);
    var ms := old(g.medianVotings);
    LastGroupGrown(c.groups);
    SchulzeValuesUnchanged(g.schulzeVotings);
    assert (ms + [m])[..|ms|] == ms;
  }

  /** Appending `option` to the options of the last Schulze skeleton of the last group
      changes that voting's value and nothing else. */
  twostate lemma AppendedOption(c: VotingCollection, new option: string)
    requires old(c.Valid()) && old(c.groups) != [] && old(Last(c.groups).schulzeVotings) != []
    requires c.groups == old(c.groups) && c.name == old(c.name) && c.Repr == old(c.Repr)
    requires forall i :: 0 <= i < |c.groups| ==> unchanged(c.groups[i])
    requires forall i, k :: 0 <= i < |c.groups| - 1 && 0 <= k < |c.groups[i].schulzeVotings|
                            ==> unchanged(c.groups[i].schulzeVotings[k])
    requires forall k :: 0 <= k < |Last(c.groups).schulzeVotings| - 1
                         ==> unchanged(Last(c.groups).schulzeVotings[k])
    requires Last(Last(c.groups).schulzeVotings).options
             == old(Last(Last(c.groups).schulzeVotings).options) + [option]
    ensures c.Valid()
    ensures c.Model() == AddOption(old(c.Model()), option)
  {
    var g := Last(c.groups);
    var ss := g.schulzeVotings;
    LastGroupGrown(c.groups);
    LastSchulzeGrown(ss);
    UnchangedGroupsValid(c);
  }

  /** A collection whose groups keep their objects and their lists stays valid. */
  twostate lemma UnchangedGroupsValid(c: VotingCollection)
    requires old(c.Valid()) && c.groups == old(c.groups) && c.Repr == old(c.Repr)
    requires forall i :: 0 <= i < |c.groups| ==> unchanged(c.groups[i])
    ensures c.Valid()
  {
    assert old(GroupsWellFormed(c.groups, c.Repr));
  }

  /** The values of groups when every group but the last, with its Schulze skeletons, is
      unchanged. */
  twostate lemma LastGroupGrown(gs: seq<VotingGroup>)
    requires gs != [] && forall i :: 0 <= i < |gs| - 1 ==> unchanged(gs[i])
    requires forall i, k :: 0 <= i < |gs| - 1 && 0 <= k < |gs[i].schulzeVotings|
                            ==> unchanged(gs[i].schulzeVotings[k])
    ensures GroupValues(gs) == old(GroupValues(gs))[..|gs| - 1] + [Last(gs).Value()]
  {
    var p := gs[..|gs| - 1];
    forall i | 0 <= i < |p| ensures unchanged(p[i]) {
      assert p[i] == gs[i];
    }
    forall i, k | 0 <= i < |p| && 0 <= k < |p[i].schulzeVotings|
      ensures unchanged(p[i].schulzeVotings[k])
    {
      assert p[i] == gs[i];
    }
    GroupValuesUnchanged(p);
    assert old(GroupValues(gs))[..|gs| - 1] == old(GroupValues(p));
  }

  /** The values of Schulze skeletons when every one but the last is unchanged. */
  twostate lemma LastSchulzeGrown(ss: seq<SchulzeVotingSkeleton>)
    requires ss != [] && forall k :: 0 <= k < |ss| - 1 ==> unchanged(ss[k])
    ensures SchulzeValues(ss) == old(SchulzeValues(ss))[..|ss| - 1] + [Last(ss).Value()]
  {
    var q := ss[..|ss| - 1];
    forall k | 0 <= k < |q| ensures unchanged(q[k]) {
      assert q[k] == ss[k];
    }
    SchulzeValuesUnchanged(q);
    assert old(SchulzeValues(ss))[..|ss| - 1] == old(SchulzeValues(q));
  }
}
