/** What the list of conversations shows of the groups, whatever their records say. */
module GroupListLaws {
  import opened Options
  import opened GroupAccess
  import opened GroupAccessProofs
  import GroupAccessLaws
  import opened HomeGroupAccessFacade

  predicate DistinctGroups(items: seq<Item>) {
    forall i, j :: 0 <= i < j < |items| && items[i].Group? && items[j].Group? ==> items[i].id != items[j].id
  }

  /** The shown entries of a group. */
  function EntriesOf(shown: seq<Item>, group: GroupId): seq<Item> {
    if shown == [] then []
    else (if shown[0].Group? && shown[0].id == group then [shown[0]] else []) + EntriesOf(shown[1..], group)
  }

  lemma {:induction false} EntriesOfConcat(a: seq<Item>, b: seq<Item>, group: GroupId)
    ensures EntriesOf(a + b, group) == EntriesOf(a, group) + EntriesOf(b, group)
    decreases |a|
  {
    if a == [] {
      assert a + b == b;
    } else {
      assert (a + b)[0] == a[0] && (a + b)[1..] == a[1..] + b;
      EntriesOfConcat(a[1..], b, group);
    }
  }

  /** What a group's own record lets a list show of it. */
  function Showing(s: Access, revision: int, group: GroupId, cached: map<GroupId, int>): seq<Item> {
    var e := Step(s, OnListed(revision));
    if exists o <- e.outcomes :: Granted(o) then [Group(group, revision)]
    else if e.outcomes == [] && !e.state.quarantined && (s.removed.None? || s.removed.value == 0) && group in cached
    then [Group(group, cached[group])]
    else []
  }

  lemma {:induction false} ShownIsShowing(s: Access, item: Item, cached: map<GroupId, int>)
    requires item.Group?
    ensures Shown(s, item, cached) == Showing(s, item.revision, item.id, cached)
  {
    GroupAccessLaws.CachedIsKeptExactly(s, item.revision);
    ListedStepIs(s, item.revision);
    hide KeepsCached, Listed, Step;
  }

  lemma ListedStepIs(s: Access, revision: int)
    ensures Step(s, OnListed(revision)) == Listed(s, revision)
  {
    hide Listed;
  }

  lemma {:induction false} OthersStay(w: World, c: Command, group: GroupId)
    requires c.group != group
    ensures StateOf(On(w, c), group) == StateOf(w, group)
  {
    hide Step;
  }

  lemma {:induction false} OwnStep(w: World, c: Command)
    ensures StateOf(On(w, c), c.group) == Step(StateOf(w, c.group), c.event).state
  {
    hide Step;
  }

  lemma {:induction false} UnlistedGroups(w: World, items: seq<Item>, cached: map<GroupId, int>, group: GroupId)
    requires forall item <- items :: item.Group? ==> item.id != group
    ensures EntriesOf(Projected(w, items, cached), group) == []
    ensures StateOf(RunAll(w, ListCommands(items)), group) == StateOf(w, group)
    decreases |items|
  {
    hide On, Shown, StateOf;
    if items != [] {
      var item := items[0];
      ListedFirst(w, items, cached);
      if item.Group? {
        ShownIsShowing(StateOf(w, item.id), item, cached);
        OthersStay(w, Command(item.id, OnListed(item.revision)), group);
        UnlistedGroups(On(w, Command(item.id, OnListed(item.revision))), items[1..], cached, group);
        EntriesOfConcat(Shown(StateOf(w, item.id), item, cached),
                        Projected(On(w, Command(item.id, OnListed(item.revision))), items[1..], cached), group);
        OtherEntries(StateOf(w, item.id), item.revision, item.id, cached, group);
      } else {
        UnlistedGroups(w, items[1..], cached, group);
        EntriesOfConcat([item], Projected(w, items[1..], cached), group);
        assert EntriesOf([item], group) == [];
      }
      hide Projected, RunAll, EntriesOf, Showing;
    }
  }

  lemma OtherEntries(s: Access, revision: int, group: GroupId, cached: map<GroupId, int>, other: GroupId)
    ensures EntriesOf(Showing(s, revision, group, cached), other) == if other == group then Showing(s, revision, group, cached) else []
  {
    hide Step;
  }

  lemma ListedFirst(w: World, items: seq<Item>, cached: map<GroupId, int>)
    requires items != []
    ensures var item := items[0];
            if item.Direct? then
              && Projected(w, items, cached) == [item] + Projected(w, items[1..], cached)
              && RunAll(w, ListCommands(items)) == RunAll(w, ListCommands(items[1..]))
            else
              var x := On(w, Command(item.id, OnListed(item.revision)));
              && Projected(w, items, cached) == Shown(StateOf(w, item.id), item, cached) + Projected(x, items[1..], cached)
              && RunAll(w, ListCommands(items)) == RunAll(x, ListCommands(items[1..]))
  {
    hide On, Shown, StateOf;
    if items[0].Group? {
      var commands := ListCommands(items);
      assert commands[0] == Command(items[0].id, OnListed(items[0].revision)) && commands[1..] == ListCommands(items[1..]);
    } else {
      assert [] + ListCommands(items[1..]) == ListCommands(items[1..]);
    }
  }

  /** A list shows of each group exactly what the group's own record lets it show, whatever
      the other entries are: the listed projection when it is granted, the cached one when
      nothing changes and the group is neither hidden nor removed, and otherwise nothing. */
  lemma {:induction false} ListShowsExactly(w: World, items: seq<Item>, cached: map<GroupId, int>, i: nat)
    requires DistinctGroups(items) && i < |items| && items[i].Group?
    ensures EntriesOf(Projected(w, items, cached), items[i].id) ==
            Showing(StateOf(w, items[i].id), items[i].revision, items[i].id, cached)
    ensures StateOf(RunAll(w, ListCommands(items)), items[i].id) ==
            Step(StateOf(w, items[i].id), OnListed(items[i].revision)).state
    decreases |items|
  {
    hide On, Shown, StateOf, Step;
    var item, group := items[0], items[i].id;
    ListedFirst(w, items, cached);
    RestIsDistinct(items);
    if item.Direct? {
      ListShowsExactly(w, items[1..], cached, i - 1);
      EntriesOfConcat([item], Projected(w, items[1..], cached), group);
      assert EntriesOf([item], group) == [];
    } else {
      var c := Command(item.id, OnListed(item.revision));
      ShownIsShowing(StateOf(w, item.id), item, cached);
      OtherEntries(StateOf(w, item.id), item.revision, item.id, cached, group);
      EntriesOfConcat(Shown(StateOf(w, item.id), item, cached), Projected(On(w, c), items[1..], cached), group);
      if i == 0 {
        OwnStep(w, c);
        UnlistedGroups(On(w, c), items[1..], cached, group);
      } else {
        OthersStay(w, c, group);
        ListShowsExactly(On(w, c), items[1..], cached, i - 1);
      }
    }
    hide Projected, RunAll, EntriesOf, Showing;
  }

  lemma RestIsDistinct(items: seq<Item>)
    requires DistinctGroups(items) && items != []
    ensures DistinctGroups(items[1..])
    ensures items[0].Group? ==> forall item <- items[1..] :: item.Group? ==> item.id != items[0].id
  {
    forall k | 0 <= k < |items[1..]| && items[0].Group? && items[1..][k].Group? ensures items[1..][k].id != items[0].id {
      assert items[1..][k] == items[k + 1];
    }
  }

  /** So no list shows a group that is hidden or known to be removed afterwards. */
  lemma {:induction false} NothingHiddenIsShown(w: World, items: seq<Item>, cached: map<GroupId, int>, i: nat)
    requires DistinctGroups(items) && i < |items| && items[i].Group?
    requires EntriesOf(Projected(w, items, cached), items[i].id) != []
    ensures var t := StateOf(RunAll(w, ListCommands(items)), items[i].id);
            !t.quarantined && (t.removed.None? || t.removed.value == 0)
  {
    ListShowsExactly(w, items, cached, i);
    var s := StateOf(w, items[i].id);
    GroupAccessLaws.CachedIsKeptExactly(s, items[i].revision);
    GrantedIsVisible(s, items[i].revision);
    hide Step, StateOf, Projected, RunAll, KeepsCached;
  }

  lemma {:induction false} GrantedIsVisible(s: Access, revision: int)
    ensures var e := Step(s, OnListed(revision));
            (exists o <- e.outcomes :: Granted(o)) ==> !e.state.quarantined && e.state.removed.None?
  {
  }

  /** The cached projection of a group is that of its last entry. */
  lemma {:induction false} LastCachedCounts(cached: seq<Cached>, i: nat)
    requires i < |cached| && forall j :: i < j < |cached| ==> cached[j].id != cached[i].id
    ensures cached[i].id in CachedAs(cached) && CachedAs(cached)[cached[i].id] == cached[i].revision
    decreases |cached|
  {
    if i < |cached| - 1 { LastCachedCounts(cached[..|cached| - 1], i); }
  }

  lemma {:induction false} OnlyCachedCount(cached: seq<Cached>, group: GroupId)
    requires forall c <- cached :: c.id != group
    ensures group !in CachedAs(cached)
    decreases |cached|
  {
    if cached != [] { OnlyCachedCount(cached[..|cached| - 1], group); }
  }

  // ----- Groups missing from an authoritative list -----

  lemma {:induction false} AbsenceStays(w: World, cached: seq<Cached>, incoming: set<GroupId>, group: GroupId)
    requires StateOf(w, group).quarantined || StateOf(w, group).removed.Some?
    ensures StateOf(RunAll(w, AbsenceCommands(cached, incoming)), group) == StateOf(w, group)
    decreases |cached|
  {
    hide On, StateOf;
    if cached != [] {
      AbsentFirstIs(w, cached, incoming);
      if cached[0].id !in incoming {
        var c := Command(cached[0].id, OnAbsent(cached[0].revision));
        if cached[0].id == group { AbsentTwice(w, c); } else { OthersStay(w, c, group); }
        AbsenceStays(On(w, c), cached[1..], incoming, group);
      } else {
        AbsenceStays(w, cached[1..], incoming, group);
      }
      hide RunAll;
    }
  }

  lemma AbsentTwice(w: World, c: Command)
    requires c.event.OnAbsent? && (StateOf(w, c.group).quarantined || StateOf(w, c.group).removed.Some?)
    ensures StateOf(On(w, c), c.group) == StateOf(w, c.group)
  {
  }

  lemma AbsentFirstIs(w: World, cached: seq<Cached>, incoming: set<GroupId>)
    requires cached != []
    ensures RunAll(w, AbsenceCommands(cached, incoming)) ==
            if cached[0].id in incoming then RunAll(w, AbsenceCommands(cached[1..], incoming))
            else RunAll(On(w, Command(cached[0].id, OnAbsent(cached[0].revision))), AbsenceCommands(cached[1..], incoming))
  {
    hide On;
    var commands := AbsenceCommands(cached, incoming);
    if cached[0].id !in incoming {
      assert commands[0] == Command(cached[0].id, OnAbsent(cached[0].revision)) && commands[1..] == AbsenceCommands(cached[1..], incoming);
    } else {
      assert [] + AbsenceCommands(cached[1..], incoming) == AbsenceCommands(cached[1..], incoming);
    }
  }

  /** Every cached group that an authoritative list leaves out is hidden or known to be
      removed afterwards, and every group it names is left alone. */
  lemma {:induction false} MissingGroupsAreGone(w: World, cached: seq<Cached>, incoming: set<GroupId>, group: GroupId)
    ensures var t := StateOf(RunAll(w, AbsenceCommands(cached, incoming)), group);
            if group in incoming || (forall c <- cached :: c.id != group) then t == StateOf(w, group)
            else t.quarantined || t.removed.Some?
    decreases |cached|
  {
    hide On, StateOf;
    if cached != [] {
      AbsentFirstIs(w, cached, incoming);
      assert forall c :: c in cached <==> c == cached[0] || c in cached[1..];
      if cached[0].id !in incoming {
        var c := Command(cached[0].id, OnAbsent(cached[0].revision));
        if cached[0].id == group {
          AbsentIsGone(w, c);
          AbsenceStays(On(w, c), cached[1..], incoming, group);
        } else {
          OthersStay(w, c, group);
          MissingGroupsAreGone(On(w, c), cached[1..], incoming, group);
        }
      } else {
        MissingGroupsAreGone(w, cached[1..], incoming, group);
      }
      hide RunAll;
    }
  }

  lemma AbsentIsGone(w: World, c: Command)
    requires c.event.OnAbsent?
    ensures var t := StateOf(On(w, c), c.group); t.quarantined || t.removed.Some?
  {
  }
}
