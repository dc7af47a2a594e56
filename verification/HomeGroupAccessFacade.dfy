/** The facade that keeps one access record for each group, in the form it has in the
    source: statements on records held in a map, and a loop over listed groups. */
module HomeGroupAccessFacade {
  import opened Options
  import opened GroupAccess
  import opened GroupAccessProofs

  type GroupId = nat

  datatype World = World(states: map<GroupId, Access>, announced: seq<(GroupId, Outcome)>)

  datatype Command = Command(group: GroupId, event: Event)

  function StateOf(w: World, group: GroupId): Access {
    if group in w.states then w.states[group] else Unknown()
  }

  function Tagged(group: GroupId, outcomes: seq<Outcome>): seq<(GroupId, Outcome)> {
    if outcomes == [] then [] else [(group, outcomes[0])] + Tagged(group, outcomes[1..])
  }

  function After(w: World, group: GroupId, e: Effect): World {
    World(w.states[group := e.state], w.announced + Tagged(group, e.outcomes))
  }

  predicate Grants(e: Effect) {
    exists o <- e.outcomes :: Granted(o)
  }

  function On(w: World, c: Command): World {
    After(w, c.group, Step(StateOf(w, c.group), c.event))
  }

  function RunAll(w: World, commands: seq<Command>): World
    decreases |commands|
  {
    if commands == [] then w else RunAll(On(w, commands[0]), commands[1..])
  }

  // ----- Groups do not disturb each other -----

  function EventsOf(commands: seq<Command>, group: GroupId): seq<Event> {
    if commands == [] then []
    else if commands[0].group == group then [commands[0].event] + EventsOf(commands[1..], group)
    else EventsOf(commands[1..], group)
  }

  function AnnouncedFor(announced: seq<(GroupId, Outcome)>, group: GroupId): seq<Outcome> {
    if announced == [] then []
    else if announced[0].0 == group then [announced[0].1] + AnnouncedFor(announced[1..], group)
    else AnnouncedFor(announced[1..], group)
  }

  lemma {:induction false} AnnouncedForConcat(a: seq<(GroupId, Outcome)>, b: seq<(GroupId, Outcome)>, group: GroupId)
    ensures AnnouncedFor(a + b, group) == AnnouncedFor(a, group) + AnnouncedFor(b, group)
    decreases |a|
  {
    if a == [] {
      assert a + b == b;
    } else {
      assert (a + b)[0] == a[0] && (a + b)[1..] == a[1..] + b;
      AnnouncedForConcat(a[1..], b, group);
    }
  }

  lemma {:induction false} AnnouncedForTagged(group: GroupId, outcomes: seq<Outcome>, other: GroupId)
    ensures AnnouncedFor(Tagged(group, outcomes), other) == if other == group then outcomes else []
    decreases |outcomes|
  {
    if outcomes != [] {
      var tagged := Tagged(group, outcomes);
      assert tagged[1..] == Tagged(group, outcomes[1..]);
      AnnouncedForTagged(group, outcomes[1..], other);
    }
  }

  /** A group's record and announcements over a run of the facade are those of the events
      that concern it, so what is proved of one record holds of every group. */
  lemma {:induction false} GroupsAreIndependent(w: World, commands: seq<Command>, group: GroupId)
    ensures var r := Run(StateOf(w, group), EventsOf(commands, group));
            && StateOf(RunAll(w, commands), group) == r.state
            && AnnouncedFor(RunAll(w, commands).announced, group) == AnnouncedFor(w.announced, group) + r.outcomes
    decreases |commands|
  {
    hide Step;
    if commands != [] {
      var c := commands[0];
      var x := On(w, c);
      var outcomes := Step(StateOf(w, c.group), c.event).outcomes;
      GroupsAreIndependent(x, commands[1..], group);
      AnnouncedForConcat(w.announced, Tagged(c.group, outcomes), group);
      AnnouncedForTagged(c.group, outcomes, group);
      var events := EventsOf(commands, group);
      if c.group == group {
        assert events[0] == c.event && events[1..] == EventsOf(commands[1..], group);
      }
    }
  }

  // ----- Lists -----

  /** A listed conversation: direct, or a group with its membership revision. */
  datatype Item = Direct(id: nat) | Group(id: GroupId, revision: int)

  datatype Cached = Cached(id: GroupId, revision: int)

  function Groups(items: seq<Item>): set<GroupId> {
    set item <- items | item.Group? :: item.id
  }

  function ListCommands(items: seq<Item>): seq<Command> {
    if items == [] then []
    else (if items[0].Group? then [Command(items[0].id, OnListed(items[0].revision))] else []) + ListCommands(items[1..])
  }

  function AbsenceCommands(cached: seq<Cached>, incoming: set<GroupId>): seq<Command> {
    if cached == [] then []
    else (if cached[0].id !in incoming then [Command(cached[0].id, OnAbsent(cached[0].revision))] else [])
         + AbsenceCommands(cached[1..], incoming)
  }

  /** The last cached entry of a group, as a map built from the list holds it. */
  function CachedAs(cached: seq<Cached>): map<GroupId, int> {
    if cached == [] then map[] else CachedAs(cached[..|cached| - 1])[cached[|cached| - 1].id := cached[|cached| - 1].revision]
  }

  /** What the list shows for one entry: the entry itself when it is granted, otherwise the
      cached group when that may stay. */
  function Shown(s: Access, item: Item, cached: map<GroupId, int>): seq<Item> {
    if item.Direct? then [item]
    else if Grants(Listed(s, item.revision)) then [item]
    else if KeepsCached(s, item.revision) && item.id in cached then [Group(item.id, cached[item.id])]
    else []
  }

  function Projected(w: World, items: seq<Item>, cached: map<GroupId, int>): seq<Item>
    decreases |items|
  {
    if items == [] then []
    else if items[0].Direct? then [items[0]] + Projected(w, items[1..], cached)
    else Shown(StateOf(w, items[0].id), items[0], cached)
         + Projected(On(w, Command(items[0].id, OnListed(items[0].revision))), items[1..], cached)
  }

  lemma {:induction false} RunAllOfConcat(w: World, a: seq<Command>, b: seq<Command>)
    ensures RunAll(w, a + b) == RunAll(RunAll(w, a), b)
    decreases |a|
  {
    hide On;
    if a == [] {
      assert a + b == b;
    } else {
      assert (a + b)[0] == a[0] && (a + b)[1..] == a[1..] + b;
      RunAllOfConcat(On(w, a[0]), a[1..], b);
    }
  }

  class HomeGroupAccessFacade {
    var states: map<GroupId, Access>
    var announced: seq<(GroupId, Outcome)>

    function View(): World
      reads this
    {
      World(states, announced)
    }

    constructor ()
      ensures View() == World(map[], [])
    {
      states, announced := map[], [];
    }

    /** The stored record, or a new one. */
    method StateFor(group: GroupId) returns (state: Access)
      ensures state == StateOf(View(), group)
    {
      state := Unknown();
      if group in states {
        state := states[group];
      }
    }

    method Store(group: GroupId, state: Access)
      modifies this`states
      ensures View() == After(old(View()), group, Effect(state, []))
    {
      states := states[group := state];
    }

    /** Store the record and announce an outcome. */
    method Emit(group: GroupId, state: Access, outcome: Outcome)
      modifies this
      ensures View() == After(old(View()), group, Effect(state, [outcome]))
    {
      states := states[group := state];
      announced := announced + [(group, outcome)];
      assert Tagged(group, [outcome]) == [(group, outcome)];
    }

    method CancelLookup(group: GroupId)
      modifies this`states
      ensures View() == After(old(View()), group, Effect(Cancel(StateOf(old(View()), group)), []))
    {
      hide After, StateOf;
      var state := StateFor(group);
      if state.current.Some? {
        state := state.(live := state.live - {state.current.value});
      }
      state := state.(current := None, inFlight := false);
      Store(group, state);
    }

    method HideGroup(group: GroupId, context: Context)
      modifies this
      ensures View() == After(old(View()), group, Quarantine(StateOf(old(View()), group), context))
    {
      hide After, StateOf;
      var state := StateFor(group);
      if !state.quarantined {
        state := state.(quarantined := true, failed := false, context := Some(context));
        Emit(group, state, Quarantined(context.selected));
      } else {
        if state.context.None? && context.selected {
          state := state.(context := Some(context));
        }
        Store(group, state);
      }
    }

    method DropGroup(group: GroupId, revision: int)
      modifies this
      ensures View() == After(old(View()), group, Remove(StateOf(old(View()), group), revision))
    {
      hide After, StateOf;
      var state := StateFor(group);
      var removal := Max(revision, state.revision);
      state := state.(revision := removal);
      if state.inFlight {
        state := state.(requestRevision := state.requestRevision + 1);
      }
      var earlier := 0;
      if state.removed.Some? {
        earlier := state.removed.value;
      }
      state := state.(inFlight := false, removed := Some(Max(earlier, removal)), quarantined := false, failed := false,
                      reconciliationRequired := false, context := None);
      Emit(group, state, Removed(state.revision));
    }

    method FetchLatest(group: GroupId)
      modifies this`states
      ensures View() == After(old(View()), group, Effect(Fetch(StateOf(old(View()), group)), []))
    {
      hide After, StateOf;
      var state := StateFor(group);
      var lookup := Lookup(state.requestRevision, state.departureGeneration, state.requestedRevision);
      state := state.(inFlight := true, live := state.live[state.lookups := lookup], current := Some(state.lookups));
      state := state.(lookups := state.lookups + 1);
      Store(group, state);
    }

    method RequestGroup(group: GroupId, requested: int, context: Option<Context>)
      modifies this`states
      ensures View() == After(old(View()), group, Effect(Request(StateOf(old(View()), group), requested, context), []))
    {
      hide After, StateOf, Fetch;
      var state := StateFor(group);
      if context.Some? && state.context.None? {
        state := state.(context := context);
      }
      var latest := Max(state.requestedRevision, requested);
      if !state.inFlight {
        state := state.(requestRevision := state.requestRevision + 1);
      } else if latest > state.requestedRevision {
        state := state.(requestRevision := state.requestRevision + 1);
      }
      state := state.(requestedRevision := latest);
      Store(group, state);
      if state.inFlight { return; }
      AfterAfter(old(View()), group, Effect(state, []), Effect(Fetch(state), []));
      FetchLatest(group);
    }

    // ----- Projections -----

    method MarkGroupAuthorized(group: GroupId, revision: int)
      modifies this`states
      ensures View() == On(old(View()), Command(group, OnMarkAuthorized(revision)))
    {
      hide After, StateOf;
      var state := StateFor(group);
      if revision > state.revision {
        state := state.(revision := revision);
      }
      Store(group, state);
    }

    /** Unsubscribe from the lookup and remove the group. */
    method RemoveGroup(group: GroupId, revision: int)
      modifies this
      ensures View() == After(old(View()), group, Remove(Cancel(StateOf(old(View()), group)), revision))
    {
      hide After, StateOf, Cancel, Remove;
      ghost var cancelled := Cancel(StateOf(View(), group));
      CancelLookup(group);
      AfterAfter(old(View()), group, Effect(cancelled, []), Remove(cancelled, revision));
      DropGroup(group, revision);
    }

    method RemoveDefinitively(group: GroupId, revision: int)
      modifies this
      ensures View() == On(old(View()), Command(group, OnDefinitiveRemoval(revision)))
    {
      hide After, StateOf, Cancel, Remove;
      var state := StateFor(group);
      if state.removed.Some? && state.removed.value >= Max(revision, state.revision) && !state.quarantined {
        Store(group, state);
        return;
      }
      RemoveGroup(group, revision);
    }

    method AcceptProjection(group: GroupId, revision: int) returns (accepted: bool)
      modifies this
      ensures View() == On(old(View()), Command(group, OnAccept(revision)))
      ensures accepted == Grants(Accept(StateOf(old(View()), group), revision))
    {
      hide After, StateOf;
      var state := StateFor(group);
      AcceptGrants(state, revision);
      hide Grants;
      if revision < state.revision || (state.removed.Some? && revision <= state.removed.value) {
        Store(group, state);
        return false;
      }
      var wasCurrent := revision == state.revision;
      if revision > state.revision {
        state := state.(revision := revision);
        if state.inFlight {
          state := state.(requestedRevision := Max(state.requestedRevision, revision), requestRevision := state.requestRevision + 1);
        }
      }
      if state.removed.Some? && revision > state.removed.value {
        state := state.(removed := None);
      }
      accepted := !state.quarantined && (wasCurrent || revision == state.revision);
      if accepted {
        Emit(group, state, Accepted(revision));
      } else {
        Store(group, state);
      }
    }

    /** One group of an authorized list. */
    method ProjectGroup(group: GroupId, revision: int) returns (shown: bool, cachedStays: bool)
      modifies this
      ensures View() == On(old(View()), Command(group, OnListed(revision)))
      ensures shown == Grants(Listed(StateOf(old(View()), group), revision))
      ensures cachedStays == KeepsCached(StateOf(old(View()), group), revision)
    {
      hide After, StateOf, Cancel, Accept, Quarantine;
      var state := StateFor(group);
      ListedGrants(state, revision);
      hide Grants;
      if state.departure.Some? && revision > state.departure.value.revision {
        var context := state.departure.value.context;
        if state.context.Some? {
          context := state.context.value;
        }
        state := state.(revision := Max(state.revision, revision));
        Store(group, state);
        AfterAfter(old(View()), group, Effect(state, []), Quarantine(state, context));
        HideGroup(group, context);
        return false, false;
      }
      if state.quarantined && !Fenced(state) && revision >= state.revision && (state.removed.None? || revision > state.removed.value) {
        var context := state.context;
        state := state.(requestedRevision := Max(state.requestedRevision, revision), requestRevision := state.requestRevision + 1);
        Store(group, state);
        ghost var cancelled := Cancel(state);
        AfterAfter(old(View()), group, Effect(state, []), Effect(cancelled, []));
        CancelLookup(group);
        AfterIs(old(View()), group, Effect(cancelled, []));
        state := StateFor(group);
        state := state.(revision := revision, removed := None, quarantined := false, failed := false,
                        reconciliationRequired := false, context := None);
        var outcome := Authorized(revision, context.Some? && context.value.selected);
        AfterAfter(old(View()), group, Effect(cancelled, []), Effect(state, [outcome]));
        Emit(group, state, outcome);
        return true, false;
      }
      if state.quarantined {
        Store(group, state);
        return false, false;
      }
      shown := AcceptProjection(group, revision);
      AcceptRefusedKeeps(state, revision);
      var after := StateFor(group);
      AfterAfter(old(View()), group, Accept(state, revision), Effect(after, []));
      cachedStays := !shown && (after.removed.None? || after.removed.value == 0);
    }

    method ProjectConversationList(items: seq<Item>, current: seq<Cached>, authoritativeAbsence: bool) returns (projected: seq<Item>)
      modifies this
      ensures View() == RunAll(old(View()), ListCommands(items)
                               + if authoritativeAbsence then AbsenceCommands(current, Groups(items)) else [])
      ensures projected == Projected(old(View()), items, CachedAs(current))
    {
      hide On, Shown, Groups, CachedAs;
      var cached := MapOf(current);
      projected := ProjectItems(items, cached);
      var incoming := GroupIds(items);
      if authoritativeAbsence {
        RunAllOfConcat(old(View()), ListCommands(items), AbsenceCommands(current, incoming));
        ProjectAbsences(current, incoming);
      } else {
        assert ListCommands(items) + [] == ListCommands(items);
      }
    }

    method ProjectItems(items: seq<Item>, cached: map<GroupId, int>) returns (projected: seq<Item>)
      modifies this
      ensures View() == RunAll(old(View()), ListCommands(items))
      ensures projected == Projected(old(View()), items, cached)
    {
      hide On, Shown, ListCommands, RunAll, Projected, StateOf;
      projected := [];
      NothingListed(items, cached);
      for i := 0 to |items|
        invariant RunAll(View(), ListCommands(items[i..])) == RunAll(old(View()), ListCommands(items))
        invariant projected + Projected(View(), items[i..], cached) == Projected(old(View()), items, cached)
      {
        var item := items[i];
        assert items[i..][0] == item && items[i..][1..] == items[i + 1..];
        ListedStep(View(), items[i..], cached);
        if item.Direct? {
          projected := projected + [item];
          continue;
        }
        ghost var before := View();
        var shown, cachedStays := ProjectGroup(item.id, item.revision);
        ShownIs(StateOf(before, item.id), item, cached, shown, cachedStays);
        if shown {
          projected := projected + [item];
        } else if cachedStays && item.id in cached {
          projected := projected + [Group(item.id, cached[item.id])];
        }
      }
      NothingListed(items, cached);
    }

    method ProjectAbsences(current: seq<Cached>, incoming: set<GroupId>)
      modifies this
      ensures View() == RunAll(old(View()), AbsenceCommands(current, incoming))
    {
      hide On;
      for i := 0 to |current|
        invariant RunAll(View(), AbsenceCommands(current[i..], incoming)) == RunAll(old(View()), AbsenceCommands(current, incoming))
      {
        assert current[i..][0] == current[i] && current[i..][1..] == current[i + 1..];
        AbsentFirst(current[i..], incoming);
        if current[i].id !in incoming {
          ProjectAbsent(current[i].id, current[i].revision);
        }
      }
    }

    method ProjectAbsent(group: GroupId, cachedRevision: int)
      modifies this
      ensures View() == On(old(View()), Command(group, OnAbsent(cachedRevision)))
    {
      hide After, StateOf, Remove;
      var state := StateFor(group);
      if !state.quarantined && state.removed.None? {
        DropGroup(group, cachedRevision);
      } else {
        Store(group, state);
      }
    }

    /** Hide the group and look it up at a revision. */
    method HideAndRequest(group: GroupId, context: Context, revision: int)
      modifies this
      ensures var q := Quarantine(StateOf(old(View()), group), context);
              View() == After(old(View()), group, Effect(Request(q.state, revision, None), q.outcomes))
    {
      hide After, StateOf, Quarantine, Request;
      ghost var q := Quarantine(StateOf(View(), group), context);
      HideGroup(group, context);
      AfterAfter(old(View()), group, q, Effect(Request(q.state, revision, None), []));
      RequestGroup(group, revision, None);
    }

    method MembershipEvent(group: GroupId, revision: int, deleted: bool, context: Context)
      modifies this
      ensures View() == On(old(View()), Command(group, OnMembershipChanged(revision, deleted, context)))
    {
      hide After, StateOf, Cancel, Remove, Quarantine, Request;
      var state := StateFor(group);
      var previous := Max(state.revision, context.projectionRevision);
      if revision <= previous {
        Store(group, state);
        return;
      }
      state := state.(revision := revision);
      if state.inFlight {
        state := state.(requestedRevision := Max(state.requestedRevision, revision), requestRevision := state.requestRevision + 1);
      }
      if deleted {
        if state.departure.Some? && previous == state.departure.value.revision {
          state := state.(departure := Some(state.departure.value.(removalObserved := true)));
        }
        Store(group, state);
        AfterAfter(old(View()), group, Effect(state, []), Remove(Cancel(state), revision));
        RemoveGroup(group, revision);
      } else {
        if state.removed.Some? && revision > state.removed.value {
          state := state.(removed := None);
        }
        Store(group, state);
        ghost var q := Quarantine(state, context);
        AfterAfter(old(View()), group, Effect(state, []), Effect(Request(q.state, revision, None), q.outcomes));
        HideAndRequest(group, context, revision);
      }
    }

    method CreatedEvent(group: GroupId, context: Context)
      modifies this`states
      ensures View() == On(old(View()), Command(group, OnConversationCreated(context)))
    {
      hide After, StateOf, Request;
      var state := StateFor(group);
      RequestGroup(group, Max(0, state.revision), Some(context));
    }

    method QuarantineGroupForVerification(group: GroupId, context: Context)
      modifies this
      ensures View() == On(old(View()), Command(group, OnQuarantineForVerification(context)))
      ensures View() == After(old(View()), group, QuarantineForVerification(StateOf(old(View()), group), context))
    {
      hide After, StateOf;
      var state := StateFor(group);
      if !state.quarantined {
        HideGroup(group, context);
      } else {
        if state.context.None? && context.selected {
          state := state.(context := Some(context));
        }
        Store(group, state);
      }
    }

    method VerifyGroup(group: GroupId, context: Context)
      modifies this
      ensures View() == On(old(View()), Command(group, OnVerify(context)))
    {
      hide After, StateOf, Request, QuarantineForVerification;
      ghost var q := QuarantineForVerification(StateOf(View(), group), context);
      QuarantineGroupForVerification(group, context);
      AfterAfter(old(View()), group, q, Effect(Request(q.state, q.state.revision, Some(context)), []));
      var state := StateFor(group);
      if !state.inFlight {
        RequestGroup(group, state.revision, Some(context));
      }
    }

    method RetryQuarantined()
      modifies this`states
      ensures states == map group | group in old(states) :: Retry(old(states)[group])
      ensures announced == old(announced)
    {
      hide Request;
      var left := states.Keys;
      while left != {}
        invariant left <= old(states).Keys && announced == old(announced)
        invariant states == map group | group in old(states) :: if group in left then old(states)[group] else Retry(old(states)[group])
        decreases |left|
      {
        var group :| group in left;
        var state := states[group];
        if (state.quarantined || (state.departure.Some? && state.departure.value.removalObserved)) && !state.inFlight {
          RequestGroup(group, state.revision, None);
        }
        left := left - {group};
      }
    }

    // ----- Departures -----

    method BeginDeparture(group: GroupId, projectionRevision: int, context: Context)
      modifies this
      ensures View() == On(old(View()), Command(group, OnDepart(projectionRevision, context)))
    {
      hide After, StateOf, Cancel;
      var state := StateFor(group);
      if state.departure.Some? {
        Store(group, state);
        return;
      }
      state := state.(revision := Max(state.revision, projectionRevision));
      state := state.(departure := Some(Departure(state.departures, state.revision, context, false)),
                      departures := state.departures + 1, context := None);
      Emit(group, state, DeparturePending);
      AfterAfter(old(View()), group, Effect(state, [DeparturePending]), Effect(Cancel(state), []));
      CancelLookup(group);
    }

    method FinishDeparture(group: GroupId, failed: bool)
      modifies this
      ensures var s := StateOf(old(View()), group);
              View() == After(old(View()), group, Effect(s.(departure := None), [DepartureFinished(failed)]))
    {
      hide After, StateOf;
      var state := StateFor(group);
      Emit(group, state.(departure := None), DepartureFinished(failed));
    }

    /** The leave succeeded although the projection has changed since it began. */
    method ReconcileDeparture(group: GroupId)
      requires StateOf(View(), group).departure.Some?
      modifies this
      ensures View() == After(old(View()), group, Effect(RaiseFence(StateOf(old(View()), group)), [DepartureFinished(false)]))
    {
      hide After, StateOf, Cancel, Fetch;
      var state := StateFor(group);
      var departure := state.departure.value;
      state := state.(quarantined := true, failed := false, context := Some(departure.context),
                      departureGeneration := state.departureGeneration + 1);
      state := state.(fence := Some(Fence(state.departureGeneration, departure.revision)), reconciliationRequired := true,
                      requestRevision := state.requestRevision + 1);
      Store(group, state);
      AfterAfter(old(View()), group, Effect(state, []), Effect(Cancel(state), []));
      CancelLookup(group);
      ghost var left := Cancel(state).(departure := None);
      AfterAfter(old(View()), group, Effect(Cancel(state), []), Effect(left, [DepartureFinished(false)]));
      FinishDeparture(group, false);
      AfterAfter(old(View()), group, Effect(left, [DepartureFinished(false)]), Effect(Fetch(left), []));
      FetchLatest(group);
    }

    method DepartureCompleted(group: GroupId, id: DepartureId)
      modifies this
      ensures View() == On(old(View()), Command(group, OnDepartureSucceeded(id)))
    {
      hide After, StateOf, Remove, RaiseFence;
      var state := StateFor(group);
      if state.departure.None? || state.departure.value.id != id {
        Store(group, state);
        return;
      }
      var departure := state.departure.value;
      if departure.removalObserved && state.removed.Some? {
        FinishDeparture(group, false);
        return;
      }
      if state.revision > departure.revision {
        ReconcileDeparture(group);
        return;
      }
      if state.revision == departure.revision {
        ghost var r := Remove(state, departure.revision);
        RemoveAtRevision(state);
        assert r.outcomes + [DepartureFinished(false)] == [Removed(departure.revision), DepartureFinished(false)];
        AfterAfter(old(View()), group, r, Effect(r.state.(departure := None), [DepartureFinished(false)]));
        DropGroup(group, departure.revision);
      }
      FinishDeparture(group, false);
    }

    /** The response to the leave is ambiguous: hide the group and look it up afresh. */
    method RestartDeparture(group: GroupId, context: Context)
      modifies this
      ensures var q := Quarantine(StateOf(old(View()), group), context);
              View() == After(old(View()), group, Effect(Restart(q.state), q.outcomes + [DepartureFinished(true)]))
    {
      hide After, StateOf, Cancel, Fetch, Quarantine;
      ghost var q := Quarantine(StateOf(View(), group), context);
      HideGroup(group, context);
      AfterAfter(old(View()), group, q, Effect(Cancel(q.state), []));
      CancelLookup(group);
      var state := StateFor(group);
      state := state.(requestRevision := state.requestRevision + 1);
      AfterAfter(old(View()), group, Effect(Cancel(q.state), q.outcomes), Effect(state, []));
      Store(group, state);
      AfterAfter(old(View()), group, Effect(state, q.outcomes), Effect(Fetch(state), []));
      FetchLatest(group);
      AfterAfter(old(View()), group, Effect(Fetch(state), q.outcomes), Effect(Fetch(state).(departure := None), [DepartureFinished(true)]));
      FinishDeparture(group, true);
    }

    method DepartureRejected(group: GroupId, id: DepartureId)
      modifies this
      ensures View() == On(old(View()), Command(group, OnDepartureFailed(id)))
    {
      hide After, StateOf, Restart, Quarantine;
      var state := StateFor(group);
      if state.departure.None? || state.departure.value.id != id {
        Store(group, state);
        return;
      }
      if !state.departure.value.removalObserved {
        RestartDeparture(group, state.departure.value.context);
      } else {
        FinishDeparture(group, true);
      }
    }

    // ----- Lookups -----

    /** The subscription of a lookup is over. */
    method FinishLookup(group: GroupId, id: LookupId, retryAfterCompletion: bool)
      modifies this`states
      ensures View() == After(old(View()), group, Effect(Finish(StateOf(old(View()), group), id, retryAfterCompletion), []))
    {
      hide After, StateOf, Fetch;
      var state := StateFor(group);
      state := state.(live := state.live - {id}, inFlight := false);
      if retryAfterCompletion && !(state.removed.Some? && !state.quarantined) {
        Store(group, state);
        AfterAfter(old(View()), group, Effect(state, []), Effect(Fetch(state), []));
        FetchLatest(group);
        return;
      }
      if state.current == Some(id) {
        state := state.(current := None);
      }
      Store(group, state);
    }

    /** The answer no longer fits. */
    method LookupMismatched(group: GroupId, lookup: Lookup, sameGroup: bool, revision: int) returns (retryAfterCompletion: bool)
      modifies this
      ensures var h := Mismatched(StateOf(old(View()), group), lookup, sameGroup, revision);
              View() == After(old(View()), group, Effect(h.state, h.outcomes)) && retryAfterCompletion == h.retry
    {
      hide After, StateOf;
      var state := StateFor(group);
      var superseded := lookup.fetchRevision != state.requestRevision;
      if sameGroup && revision > state.revision && superseded && (state.removed.None? || revision > state.removed.value) {
        state := state.(revision := revision);
        if Fenced(state) || (state.fence.Some? && lookup.departureGeneration < state.fence.value.generation
                             && revision > state.fence.value.revision)
        {
          state := state.(quarantined := true, failed := false);
          Store(group, state);
        } else {
          state := state.(removed := None, quarantined := false, failed := false);
          Emit(group, state, Authorized(revision, false));
        }
      } else if !superseded {
        state := state.(failed := state.quarantined);
        Emit(group, state, Retryable(state.quarantined));
      } else {
        Store(group, state);
      }
      retryAfterCompletion := superseded && state.departure.None? && !(state.removed.Some? && !state.quarantined);
    }

    /** The answer is the one the record asked for. */
    method LookupMatched(group: GroupId, lookup: Lookup, revision: int)
      modifies this
      ensures var h := Matched(StateOf(old(View()), group), lookup, revision);
              View() == After(old(View()), group, Effect(h.state, h.outcomes)) && !h.retry
    {
      hide After, StateOf;
      var state := StateFor(group);
      if state.departure.Some? && state.revision > state.departure.value.revision {
        Store(group, state.(revision := revision, failed := false));
        return;
      }
      state := state.(revision := revision, removed := None, quarantined := false, failed := false);
      if state.fence.Some? && lookup.departureGeneration >= state.fence.value.generation {
        state := state.(reconciliationRequired := false);
      }
      var context := state.context;
      state := state.(context := None);
      Emit(group, state, Authorized(revision, context.Some? && context.value.selected));
    }

    method LookupAnswered(group: GroupId, lookup: Lookup, sameGroup: bool, revision: int) returns (retryAfterCompletion: bool)
      modifies this
      ensures var h := GroupFound(StateOf(old(View()), group), lookup, sameGroup, revision);
              View() == After(old(View()), group, Effect(h.state, h.outcomes)) && retryAfterCompletion == h.retry
    {
      hide After, StateOf, Mismatched, Matched, Remove, Quarantine;
      var state := StateFor(group);
      if state.departure.Some? && sameGroup && revision > state.departure.value.revision {
        var context := if state.context.Some? then state.context.value else state.departure.value.context;
        state := state.(revision := Max(state.revision, revision));
        Store(group, state);
        AfterAfter(old(View()), group, Effect(state, []), Quarantine(state, context));
        HideGroup(group, context);
        return false;
      }
      if state.fence.Some? && lookup.departureGeneration < state.fence.value.generation && sameGroup
         && revision > state.fence.value.revision
      {
        state := state.(revision := Max(state.revision, revision), quarantined := true, failed := false);
        Store(group, state);
        return lookup.fetchRevision != state.requestRevision;
      }
      var observed := state.departure.Some? && state.departure.value.removalObserved;
      if observed && state.removed.Some? {
        FinishDeparture(group, false);
        return false;
      }
      if observed && !state.quarantined {
        DropGroup(group, Max(lookup.target, state.revision));
        return false;
      }
      if !sameGroup || revision < Max(lookup.target, state.revision) || (state.removed.Some? && revision <= state.removed.value)
         || lookup.fetchRevision != state.requestRevision
      {
        retryAfterCompletion := LookupMismatched(group, lookup, sameGroup, revision);
      } else {
        LookupMatched(group, lookup, revision);
        retryAfterCompletion := false;
      }
    }

    /** A lookup failed while the changed group was being left: the departure is over. */
    method AbandonDeparture(group: GroupId)
      requires StateOf(View(), group).departure.Some?
      modifies this
      ensures var s := StateOf(old(View()), group);
              var q := Quarantine(s, s.departure.value.context);
              View() == After(old(View()), group, Effect(q.state.(failed := true, departure := None), q.outcomes + [DepartureFinished(true)]))
    {
      hide After, StateOf, Quarantine;
      var state := StateFor(group);
      ghost var q := Quarantine(state, state.departure.value.context);
      HideGroup(group, state.departure.value.context);
      AfterAfter(old(View()), group, q, Effect(q.state, []));
      state := StateFor(group);
      state := state.(failed := true);
      AfterAfter(old(View()), group, q, Effect(state, []));
      Store(group, state);
      AfterAfter(old(View()), group, Effect(state, q.outcomes), Effect(state.(departure := None), [DepartureFinished(true)]));
      FinishDeparture(group, true);
    }

    method LookupRejected(group: GroupId, lookup: Lookup, missing: bool) returns (retryAfterCompletion: bool)
      modifies this
      ensures var h := LookupFailed(StateOf(old(View()), group), lookup, missing);
              View() == After(old(View()), group, Effect(h.state, h.outcomes)) && retryAfterCompletion == h.retry
    {
      hide After, StateOf, Quarantine, Remove;
      var state := StateFor(group);
      if lookup.fetchRevision != state.requestRevision {
        Store(group, state);
        return true;
      }
      ghost var told: seq<Outcome> := [];
      if state.departure.Some? && state.revision > state.departure.value.revision && !state.departure.value.removalObserved {
        ghost var q := Quarantine(state, state.departure.value.context);
        told := q.outcomes + [DepartureFinished(true)];
        AbandonDeparture(group);
        AfterAfter(old(View()), group, Effect(q.state.(failed := true, departure := None), told), Effect(q.state, []));
        state := StateFor(group);
      } else {
        Store(group, state);
      }
      if missing {
        AfterAfter(old(View()), group, Effect(state, told), Remove(state, Max(lookup.target, state.revision)));
        DropGroup(group, Max(lookup.target, state.revision));
        return false;
      }
      ghost var before := Effect(state, told);
      if state.departure.Some? && state.departure.value.removalObserved {
        state := state.(failed := true);
      } else {
        state := state.(failed := state.quarantined);
      }
      AfterAfter(old(View()), group, before, Effect(state, [Retryable(state.quarantined)]));
      Emit(group, state, Retryable(state.quarantined));
      return false;
    }

    /** A lookup still subscribed delivers its answer, and its subscription ends. */
    method LookupResponds(group: GroupId, id: LookupId, answer: Answer)
      modifies this
      ensures View() == On(old(View()), Command(group, OnAnswer(id, answer)))
    {
      hide After, StateOf, GroupFound, LookupFailed, Finish;
      var state := StateFor(group);
      if id !in state.live {
        Store(group, state);
        return;
      }
      var retry;
      ghost var h;
      match answer {
        case Found(sameGroup, revision) =>
          h := GroupFound(state, state.live[id], sameGroup, revision);
          retry := LookupAnswered(group, state.live[id], sameGroup, revision);
        case Missing =>
          h := LookupFailed(state, state.live[id], true);
          retry := LookupRejected(group, state.live[id], true);
        case Unavailable =>
          h := LookupFailed(state, state.live[id], false);
          retry := LookupRejected(group, state.live[id], false);
      }
      AfterAfter(old(View()), group, Effect(h.state, h.outcomes), Effect(Finish(h.state, id, retry), []));
      FinishLookup(group, id, retry);
    }
  }

  /** The cached groups by identifier. */
  method MapOf(current: seq<Cached>) returns (cached: map<GroupId, int>)
    ensures cached == CachedAs(current)
  {
    cached := map[];
    for i := 0 to |current|
      invariant cached == CachedAs(current[..i])
    {
      assert current[..i + 1][..i] == current[..i];
      cached := cached[current[i].id := current[i].revision];
    }
    assert current[..|current|] == current;
  }

  method GroupIds(items: seq<Item>) returns (incoming: set<GroupId>)
    ensures incoming == Groups(items)
  {
    incoming := {};
    for i := 0 to |items|
      invariant incoming == Groups(items[..i])
    {
      GroupsGrow(items, i);
      if items[i].Group? {
        incoming := incoming + {items[i].id};
      }
    }
    assert items[..|items|] == items;
  }

  // ----- What the methods need to know about the functions -----

  lemma AfterIs(w: World, group: GroupId, e: Effect)
    ensures StateOf(After(w, group, e), group) == e.state
  {
    hide Tagged;
  }

  /** Two effects on one group are one effect. */
  lemma AfterAfter(w: World, group: GroupId, first: Effect, second: Effect)
    ensures StateOf(After(w, group, first), group) == first.state
    ensures After(After(w, group, first), group, second) == After(w, group, Effect(second.state, first.outcomes + second.outcomes))
    ensures first.outcomes + [] == first.outcomes && [] + second.outcomes == second.outcomes
  {
    TaggedConcat(group, first.outcomes, second.outcomes);
    hide Tagged;
    assert (w.announced + Tagged(group, first.outcomes)) + Tagged(group, second.outcomes)
        == w.announced + (Tagged(group, first.outcomes) + Tagged(group, second.outcomes));
    assert w.states[group := first.state][group := second.state] == w.states[group := second.state];
  }

  lemma AcceptGrants(s: Access, revision: int)
    ensures Grants(Accept(s, revision)) == (!Refused(s, revision) && !s.quarantined)
  {
    if !Refused(s, revision) && !s.quarantined {
      var o := Accept(s, revision).outcomes[0];
      assert o in Accept(s, revision).outcomes && Granted(o);
    }
  }

  lemma ListedGrants(s: Access, revision: int)
    ensures Grants(Listed(s, revision)) ==
            if s.departure.Some? && revision > s.departure.value.revision then false
            else if s.quarantined then !Fenced(s) && revision >= s.revision && Above(revision, s.removed)
            else !Refused(s, revision)
    ensures !s.quarantined && !(s.departure.Some? && revision > s.departure.value.revision)
            ==> Grants(Listed(s, revision)) == Grants(Accept(s, revision))
  {
    AcceptGrants(s, revision);
    if s.quarantined && Listed(s, revision).outcomes != [] {
      assert Listed(s, revision).outcomes[0] in Listed(s, revision).outcomes;
    }
  }

  lemma AcceptRefusedKeeps(s: Access, revision: int)
    ensures Grants(Accept(s, revision)) == (!Refused(s, revision) && !s.quarantined)
    ensures Refused(s, revision) ==> Accept(s, revision).state == s
  {
    AcceptGrants(s, revision);
  }

  lemma NothingListed(items: seq<Item>, cached: map<GroupId, int>)
    ensures items[0..] == items && items[|items|..] == []
    ensures forall w :: RunAll(w, ListCommands([])) == w && Projected(w, [], cached) == []
  {
  }

  /** How the rest of a list is processed after its first entry. */
  lemma ListedStep(w: World, items: seq<Item>, cached: map<GroupId, int>)
    requires items != []
    ensures items[0].Direct? ==>
      && RunAll(w, ListCommands(items)) == RunAll(w, ListCommands(items[1..]))
      && Projected(w, items, cached) == [items[0]] + Projected(w, items[1..], cached)
    ensures items[0].Group? ==>
      var x := On(w, Command(items[0].id, OnListed(items[0].revision)));
      && RunAll(w, ListCommands(items)) == RunAll(x, ListCommands(items[1..]))
      && Projected(w, items, cached) == Shown(StateOf(w, items[0].id), items[0], cached) + Projected(x, items[1..], cached)
  {
    hide On, Shown, StateOf;
    ListedFirst(items);
  }

  lemma RemoveAtRevision(s: Access)
    ensures Remove(s, s.revision).outcomes == [Removed(s.revision)]
  {
  }

  lemma {:induction false} TaggedConcat(group: GroupId, a: seq<Outcome>, b: seq<Outcome>)
    ensures Tagged(group, a + b) == Tagged(group, a) + Tagged(group, b)
    decreases |a|
  {
    if a == [] {
      assert a + b == b;
    } else {
      assert (a + b)[0] == a[0] && (a + b)[1..] == a[1..] + b;
      TaggedConcat(group, a[1..], b);
    }
  }

  lemma GroupsGrow(items: seq<Item>, i: nat)
    requires i < |items|
    ensures Groups(items[..i + 1]) == Groups(items[..i]) + if items[i].Group? then {items[i].id} else {}
  {
    assert items[..i + 1] == items[..i] + [items[i]];
    assert forall item :: item in items[..i + 1] <==> item in items[..i] || item == items[i];
  }

  lemma ShownIs(s: Access, item: Item, cached: map<GroupId, int>, shown: bool, cachedStays: bool)
    requires item.Group?
    requires shown == Grants(Listed(s, item.revision))
    requires cachedStays == KeepsCached(s, item.revision)
    ensures Shown(s, item, cached) == if shown then [item]
                                      else if cachedStays && item.id in cached then [Group(item.id, cached[item.id])] else []
  {
  }

  lemma ListedFirst(items: seq<Item>)
    requires items != []
    ensures items[0].Direct? ==> ListCommands(items) == ListCommands(items[1..])
    ensures items[0].Group? ==>
      var first := Command(items[0].id, OnListed(items[0].revision));
      ListCommands(items) != [] && ListCommands(items)[0] == first && ListCommands(items)[1..] == ListCommands(items[1..])
  {
  }

  lemma AbsentFirst(cached: seq<Cached>, incoming: set<GroupId>)
    requires cached != []
    ensures AbsenceCommands(cached, incoming) ==
            (if cached[0].id !in incoming then [Command(cached[0].id, OnAbsent(cached[0].revision))] else [])
            + AbsenceCommands(cached[1..], incoming)
    ensures cached[0].id !in incoming ==>
      var all := AbsenceCommands(cached, incoming);
      && all != [] && all[0] == Command(cached[0].id, OnAbsent(cached[0].revision))
      && all[1..] == AbsenceCommands(cached[1..], incoming)
    ensures cached[0].id in incoming ==> AbsenceCommands(cached, incoming) == AbsenceCommands(cached[1..], incoming)
  {
  }
}
