/** What a group's access record keeps over every interleaving of lists, events, lookups
    and departures. */
module GroupAccessProofs {
  import opened Options
  import opened GroupAccess

  /** Fences are raised one generation at a time, below the revision of their moment, and
      every live lookup remembers a generation that was current once. */
  ghost predicate Inv(s: Access) {
    && 0 <= s.revision
    && (s.removed.Some? ==> s.removed.value <= s.revision)
    && (s.departure.Some? ==> s.departure.value.revision <= s.revision)
    && (s.fence.None? <==> s.departureGeneration == 0)
    && (s.fence.Some? ==> s.fence.value.revision < s.revision && s.fence.value.generation == s.departureGeneration)
    && 0 <= s.departureGeneration
    && (forall id <- s.live :: id < s.lookups && s.live[id].departureGeneration <= s.departureGeneration)
  }

  /** No projection at or below the barrier can be granted any more. */
  function Barrier(s: Access): int {
    if s.removed.Some? then s.removed.value else s.revision - 1
  }

  predicate Granted(o: Outcome) {
    o.Accepted? || o.Authorized?
  }

  ghost predicate Advances(s: Access, t: Access) {
    && s.revision <= t.revision
    && Barrier(s) <= Barrier(t)
    && s.departureGeneration <= t.departureGeneration
    && s.lookups <= t.lookups
    && (forall id <- t.live :: if id < s.lookups then id in s.live && t.live[id] == s.live[id]
                               else t.live[id].departureGeneration >= s.departureGeneration)
  }

  /** What one step may announce: grants above the barrier it started from, removals up to
      the barrier it leaves, and no grant after a removal. */
  ghost predicate Announces(s: Access, t: Access, outcomes: seq<Outcome>) {
    && (forall o <- outcomes :: Granted(o) ==> Barrier(s) < o.revision <= t.revision)
    && (forall o <- outcomes :: o.Removed? ==> o.revision <= Barrier(t))
    && (forall i, j :: 0 <= i < j < |outcomes| && outcomes[i].Removed? ==> !Granted(outcomes[j]))
  }

  ghost predicate StepOk(s: Access, e: Effect) {
    Inv(e.state) && Advances(s, e.state) && Announces(s, e.state, e.outcomes)
  }

  // ----- Small changes -----

  lemma {:induction false} Quiet(s: Access, t: Access)
    requires Inv(s)
    requires t.revision == s.revision && t.removed == s.removed && t.fence == s.fence
             && t.departureGeneration == s.departureGeneration && t.lookups == s.lookups
    requires t.departure.None? || t.departure == s.departure
             || (s.departure.Some? && t.departure.value.revision == s.departure.value.revision)
    requires forall id <- t.live :: id in s.live && t.live[id] == s.live[id]
    ensures StepOk(s, Effect(t, []))
  {
  }

  lemma {:induction false} FetchOk(s: Access)
    requires Inv(s)
    ensures StepOk(s, Effect(Fetch(s), []))
  {
  }

  lemma {:induction false} Chain(s: Access, t: Access, u: Access, outcomes: seq<Outcome>)
    requires StepOk(s, Effect(t, outcomes)) && StepOk(t, Effect(u, []))
    ensures StepOk(s, Effect(u, outcomes))
  {
    hide Barrier, Granted, Inv;
  }

  lemma {:induction false} ChainQuiet(s: Access, t: Access, u: Access, outcomes: seq<Outcome>)
    requires StepOk(s, Effect(t, [])) && StepOk(t, Effect(u, outcomes))
    ensures StepOk(s, Effect(u, outcomes))
  {
    hide Barrier, Granted, Inv;
  }

  lemma {:induction false} RequestOk(s: Access, requested: int, context: Option<Context>)
    requires Inv(s)
    ensures StepOk(s, Effect(Request(s, requested, context), []))
  {
    var t := s.(context := Request(s, requested, context).context,
                requestRevision := Request(s, requested, context).requestRevision,
                requestedRevision := Request(s, requested, context).requestedRevision);
    Quiet(s, t);
    if !s.inFlight {
      FetchOk(t);
      assert Request(s, requested, context) == Fetch(t);
      Chain(s, t, Fetch(t), []);
    }
    hide StepOk, Fetch;
  }

  /** The revision goes up; a removal below it may be forgotten. */
  lemma {:induction false} RaiseRevision(s: Access, t: Access)
    requires Inv(s) && s.revision <= t.revision
    requires t.removed == s.removed || (t.removed.None? && Above(t.revision, s.removed))
    requires t.fence == s.fence && t.departureGeneration == s.departureGeneration && t.lookups == s.lookups && t.live == s.live
    requires t.departure.None? || (s.departure.Some? && t.departure.value.revision == s.departure.value.revision)
    ensures StepOk(s, Effect(t, []))
  {
  }

  lemma StepInv(s: Access, e: Effect)
    requires StepOk(s, e)
    ensures Inv(e.state)
  {
  }

  lemma {:induction false} Finished(s: Access, e: Effect, failed: bool)
    requires StepOk(s, e)
    ensures StepOk(s, Effect(e.state, e.outcomes + [DepartureFinished(failed)]))
  {
    hide Barrier, Inv, Advances;
  }

  lemma LeaveOver(s: Access, failed: bool)
    requires Inv(s)
    ensures StepOk(s, Effect(s.(departure := None), [DepartureFinished(failed)]))
  {
  }

  /** Announcements that grant and remove nothing may stand anywhere. */
  lemma {:induction false} Told(s: Access, t: Access, told: seq<Outcome>, e: Effect)
    requires StepOk(s, Effect(t, told)) && StepOk(t, e)
    requires forall o <- told :: !Granted(o) && !o.Removed?
    ensures StepOk(s, Effect(e.state, told + e.outcomes))
  {
    hide Barrier, Inv, Granted;
    assert Advances(s, e.state);
    hide Advances;
  }

  lemma {:induction false} RemoveOk(s: Access, revision: int)
    requires Inv(s)
    ensures StepOk(s, Remove(s, revision))
  {
  }

  lemma {:induction false} QuarantineOk(s: Access, context: Context)
    requires Inv(s)
    ensures StepOk(s, Quarantine(s, context))
    ensures var t := Quarantine(s, context).state;
            t.revision == s.revision && t.removed == s.removed && t.departure == s.departure
  {
    Quiet(s, Quarantine(s, context).state);
  }

  lemma {:induction false} CancelOk(s: Access)
    requires Inv(s)
    ensures StepOk(s, Effect(Cancel(s), []))
  {
    Quiet(s, Cancel(s));
    hide StepOk;
  }

  /** Taking over a newer or equal projection clears the removal it supersedes. */
  lemma {:induction false} Grant(s: Access, t: Access, revision: int, outcomes: seq<Outcome>)
    requires Inv(s) && revision >= s.revision && Above(revision, s.removed)
    requires t.revision == revision && t.removed.None? && t.fence == s.fence && t.departure == s.departure
             && t.departureGeneration == s.departureGeneration && t.lookups == s.lookups
    requires forall id <- t.live :: id in s.live && t.live[id] == s.live[id]
    requires |outcomes| <= 1 && forall o <- outcomes :: Granted(o) && o.revision == revision
    ensures StepOk(s, Effect(t, outcomes))
  {
  }

  // ----- The events -----

  lemma {:induction false} AcceptOk(s: Access, revision: int)
    requires Inv(s)
    ensures StepOk(s, Accept(s, revision))
  {
    Quiet(s, s);
    if !Refused(s, revision) {
      Grant(s, Accept(s, revision).state, revision, Accept(s, revision).outcomes);
    }
    hide StepOk;
  }

  lemma {:induction false} ListedOk(s: Access, revision: int)
    requires Inv(s)
    ensures StepOk(s, Listed(s, revision))
  {
    Quiet(s, s);
    AcceptOk(s, revision);
    hide StepOk, Accept;
    if s.departure.Some? && revision > s.departure.value.revision {
      var t := s.(revision := Max(s.revision, revision));
      var context := if s.context.Some? then s.context.value else s.departure.value.context;
      RaiseRevision(s, t);
      StepInv(s, Effect(t, []));
      QuarantineOk(t, context);
      ChainQuiet(s, t, Quarantine(t, context).state, Quarantine(t, context).outcomes);
    } else if s.quarantined && !Fenced(s) && revision >= s.revision && Above(revision, s.removed) {
      Grant(s, Listed(s, revision).state, revision, Listed(s, revision).outcomes);
    }
  }

  lemma {:induction false} DeletedOk(s: Access, u: Access, revision: int)
    requires Inv(s) && StepOk(s, Effect(u, []))
    ensures StepOk(s, Remove(Cancel(u), revision))
  {
    hide Inv, Cancel, Remove, StepOk;
    StepInv(s, Effect(u, []));
    CancelOk(u);
    StepInv(u, Effect(Cancel(u), []));
    RemoveOk(Cancel(u), revision);
    var e := Remove(Cancel(u), revision);
    ChainQuiet(u, Cancel(u), e.state, e.outcomes);
    ChainQuiet(s, u, e.state, e.outcomes);
  }

  lemma {:induction false} ChangedOk(s: Access, u: Access, revision: int, context: Context)
    requires Inv(s) && StepOk(s, Effect(u, []))
    ensures var q := Quarantine(u, context); StepOk(s, Effect(Request(q.state, revision, None), q.outcomes))
  {
    hide Inv, Quarantine, Request, StepOk;
    StepInv(s, Effect(u, []));
    QuarantineOk(u, context);
    var q := Quarantine(u, context);
    StepInv(u, q);
    RequestOk(q.state, revision, None);
    ChainQuiet(s, u, q.state, q.outcomes);
    Chain(s, q.state, Request(q.state, revision, None), q.outcomes);
  }

  lemma {:induction false} MembershipChangedOk(s: Access, revision: int, deleted: bool, context: Context)
    requires Inv(s)
    ensures StepOk(s, MembershipChanged(s, revision, deleted, context))
  {
    hide StepOk, Inv, Quarantine, Request, Cancel, Remove;
    var previous := Max(s.revision, context.projectionRevision);
    QuietStep(s);
    if revision > previous {
      var t := s.(revision := revision, requestedRevision := if s.inFlight then Max(s.requestedRevision, revision) else s.requestedRevision,
                  requestRevision := s.requestRevision + if s.inFlight then 1 else 0);
      if deleted {
        var u := if t.departure.Some? && previous == t.departure.value.revision
                 then t.(departure := Some(t.departure.value.(removalObserved := true))) else t;
        RaiseRevision(s, u);
        DeletedOk(s, u, revision);
      } else {
        var u := t.(removed := if Above(revision, t.removed) then None else t.removed);
        RaiseRevision(s, u);
        ChangedOk(s, u, revision, context);
      }
    }
  }

  lemma {:induction false} VerifyOk(s: Access, context: Context)
    requires Inv(s)
    ensures StepOk(s, VerifyQuarantined(s, context)) && StepOk(s, QuarantineForVerification(s, context))
  {
    QuarantineOk(s, context);
    var q := QuarantineForVerification(s, context);
    assert q == Quarantine(s, context);
    RequestOk(q.state, q.state.revision, Some(context));
    Chain(s, q.state, Request(q.state, q.state.revision, Some(context)), q.outcomes);
    hide StepOk, Quarantine, Request;
  }

  lemma {:induction false} DepartOk(s: Access, projectionRevision: int, context: Context)
    requires Inv(s)
    ensures StepOk(s, Depart(s, projectionRevision, context))
  {
  }

  lemma {:induction false} RaiseFenceOk(s: Access)
    requires Inv(s) && s.departure.Some? && s.departure.value.revision < s.revision
    ensures StepOk(s, Effect(RaiseFence(s), [DepartureFinished(false)]))
  {
  }

  lemma {:induction false} LeftAndRemovedOk(s: Access, revision: int)
    requires Inv(s) && revision == s.revision
    ensures var r := Remove(s, revision);
            StepOk(s, Effect(r.state.(departure := None), [Removed(revision), DepartureFinished(false)]))
  {
    var r := Remove(s, revision);
    assert r.outcomes + [DepartureFinished(false)] == [Removed(revision), DepartureFinished(false)];
    RemoveOk(s, revision);
    hide StepOk, Inv, Remove;
    StepInv(s, r);
    Quiet(r.state, r.state.(departure := None));
    Chain(s, r.state, r.state.(departure := None), r.outcomes);
    Finished(s, Effect(r.state.(departure := None), r.outcomes), false);
  }

  lemma {:induction false} DepartureSucceededOk(s: Access, id: DepartureId)
    requires Inv(s)
    ensures StepOk(s, DepartureSucceeded(s, id))
  {
    hide StepOk, Inv, Remove, RaiseFence;
    QuietStep(s);
    if Pending(s, id) {
      LeaveOver(s, false);
      if s.revision > s.departure.value.revision {
        RaiseFenceOk(s);
      } else if s.revision == s.departure.value.revision {
        LeftAndRemovedOk(s, s.departure.value.revision);
      }
    }
  }

  lemma {:induction false} RestartOk(s: Access)
    requires Inv(s)
    ensures StepOk(s, Effect(Restart(s), []))
  {
    hide StepOk, Inv, Fetch;
    var t := Cancel(s).(requestRevision := Cancel(s).requestRevision + 1);
    Quiet(s, t);
    hide Cancel;
    StepInv(s, Effect(t, []));
    FetchOk(t);
    StepInv(t, Effect(Fetch(t), []));
    Quiet(Fetch(t), Fetch(t).(departure := None));
    Chain(s, t, Fetch(t), []);
    Chain(s, Fetch(t), Fetch(t).(departure := None), []);
  }

  lemma {:induction false} DepartureFailedOk(s: Access, id: DepartureId)
    requires Inv(s)
    ensures StepOk(s, DepartureFailed(s, id))
  {
    hide StepOk, Inv, Quarantine, Restart;
    QuietStep(s);
    if Pending(s, id) {
      LeaveOver(s, true);
      var q := Quarantine(s, s.departure.value.context);
      QuarantineOk(s, s.departure.value.context);
      StepInv(s, q);
      RestartOk(q.state);
      Chain(s, q.state, Restart(q.state), q.outcomes);
      Finished(s, Effect(Restart(q.state), q.outcomes), true);
    }
  }

  // ----- Lookups -----

  /** A handler adds no lookup and keeps the invariant. */
  ghost predicate HandledOk(s: Access, h: Handled) {
    StepOk(s, Effect(h.state, h.outcomes))
  }

  lemma {:induction false} MismatchedOk(s: Access, l: Lookup, sameGroup: bool, revision: int)
    requires Inv(s)
    ensures HandledOk(s, Mismatched(s, l, sameGroup, revision))
  {
  }

  lemma {:induction false} MatchedOk(s: Access, l: Lookup, revision: int)
    requires Inv(s) && revision >= s.revision && Above(revision, s.removed)
    ensures HandledOk(s, Matched(s, l, revision))
  {
  }

  lemma {:induction false} FoundWhileDeparting(s: Access, revision: int, context: Context)
    requires Inv(s)
    ensures StepOk(s, Quarantine(s.(revision := Max(s.revision, revision)), context))
  {
    var t := s.(revision := Max(s.revision, revision));
    RaiseRevision(s, t);
    hide StepOk, Inv, Quarantine;
    StepInv(s, Effect(t, []));
    QuarantineOk(t, context);
    ChainQuiet(s, t, Quarantine(t, context).state, Quarantine(t, context).outcomes);
  }

  lemma {:induction false} GroupFoundOk(s: Access, l: Lookup, sameGroup: bool, revision: int)
    requires Inv(s)
    ensures HandledOk(s, GroupFound(s, l, sameGroup, revision))
  {
    hide StepOk, Inv, Mismatched, Matched, Quarantine, Remove;
    if s.departure.Some? && sameGroup && revision > s.departure.value.revision {
      FoundWhileDeparting(s, revision, if s.context.Some? then s.context.value else s.departure.value.context);
    } else if BegunBeforeFence(s, l) && sameGroup && revision > s.fence.value.revision {
      RaiseRevision(s, s.(revision := Max(s.revision, revision), quarantined := true, failed := false));
    } else if Observed(s) && s.removed.Some? {
      LeaveOver(s, false);
    } else if Observed(s) && !s.quarantined {
      RemoveOk(s, Max(l.target, s.revision));
    } else if !sameGroup || revision < Max(l.target, s.revision) || !Above(revision, s.removed) || l.fetchRevision != s.requestRevision {
      MismatchedOk(s, l, sameGroup, revision);
    } else {
      MatchedOk(s, l, revision);
    }
  }

  /** A lookup that fails while the changed group is being left ends the departure. */
  lemma {:induction false} StuckOk(s: Access)
    requires Inv(s) && s.departure.Some?
    ensures var q := Quarantine(s, s.departure.value.context);
            StepOk(s, Effect(q.state.(failed := true, departure := None), q.outcomes + [DepartureFinished(true)]))
  {
    var q := Quarantine(s, s.departure.value.context);
    var t := q.state.(failed := true, departure := None);
    QuarantineOk(s, s.departure.value.context);
    Quiet(q.state, t);
    hide StepOk, Inv, Quarantine;
    Chain(s, q.state, t, q.outcomes);
    Finished(s, Effect(t, q.outcomes), true);
  }

  lemma {:induction false} FailedAfter(s: Access, t: Access, told: seq<Outcome>, l: Lookup, failed: bool)
    requires Inv(s) && StepOk(s, Effect(t, told))
    requires forall o <- told :: !Granted(o) && !o.Removed?
    ensures var r := Remove(t, Max(l.target, t.revision)); StepOk(s, Effect(r.state, told + r.outcomes))
    ensures StepOk(s, Effect(t.(failed := failed), told + [Retryable(t.quarantined)]))
  {
    StepInv(s, Effect(t, told));
    RemoveOk(t, Max(l.target, t.revision));
    Told(s, t, told, Remove(t, Max(l.target, t.revision)));
    Quiet(t, t.(failed := failed));
    assert StepOk(t, Effect(t.(failed := failed), [Retryable(t.quarantined)]));
    hide StepOk, Inv, Remove;
    Told(s, t, told, Effect(t.(failed := failed), [Retryable(t.quarantined)]));
  }

  lemma {:induction false} LookupFailedOk(s: Access, l: Lookup, missing: bool)
    requires Inv(s)
    ensures HandledOk(s, LookupFailed(s, l, missing))
  {
    hide StepOk, Inv, Remove;
    QuietStep(s);
    if l.fetchRevision == s.requestRevision {
      var stuck := s.departure.Some? && s.revision > s.departure.value.revision && !s.departure.value.removalObserved;
      if stuck {
        StuckOk(s);
        var q := Quarantine(s, s.departure.value.context);
        var t := q.state.(failed := true, departure := None);
        FailedAfter(s, t, q.outcomes + [DepartureFinished(true)], l, t.quarantined);
      } else {
        FailedAfter(s, s, [], l, if Observed(s) then true else s.quarantined);
        assert [] + [Retryable(s.quarantined)] == [Retryable(s.quarantined)];
        assert [] + Remove(s, Max(l.target, s.revision)).outcomes == Remove(s, Max(l.target, s.revision)).outcomes;
      }
    }
  }

  lemma {:induction false} FinishOk(s: Access, id: LookupId, retry: bool)
    requires Inv(s)
    ensures StepOk(s, Effect(Finish(s, id, retry), []))
  {
    var t := s.(live := s.live - {id}, inFlight := false);
    Quiet(s, t);
    FetchOk(t);
    Chain(s, t, Fetch(t), []);
    Quiet(s, t.(current := None));
    hide StepOk, Fetch;
  }

  lemma {:induction false} RespondOk(s: Access, id: LookupId, answer: Answer)
    requires Inv(s)
    ensures StepOk(s, Respond(s, id, answer))
  {
    Quiet(s, s);
    if id in s.live {
      var l := s.live[id];
      var h := match answer
               case Found(sameGroup, revision) => GroupFound(s, l, sameGroup, revision)
               case Missing => LookupFailed(s, l, true)
               case Unavailable => LookupFailed(s, l, false);
      match answer {
        case Found(sameGroup, revision) => GroupFoundOk(s, l, sameGroup, revision);
        case Missing => LookupFailedOk(s, l, true);
        case Unavailable => LookupFailedOk(s, l, false);
      }
      FinishOk(h.state, id, h.retry);
      Chain(s, h.state, Finish(h.state, id, h.retry), h.outcomes);
    }
    hide StepOk, GroupFound, LookupFailed, Finish;
  }

  lemma {:induction false} EveryStepOk(s: Access, e: Event)
    requires Inv(s)
    ensures StepOk(s, Step(s, e))
  {
    hide StepOk, Inv, Request, Remove, Cancel, Accept, Listed, MembershipChanged, VerifyQuarantined, QuarantineForVerification,
      Depart, DepartureSucceeded, DepartureFailed, Respond;
    QuietStep(s);
    match e
    case OnMarkAuthorized(revision) => if revision > s.revision { RaiseRevision(s, s.(revision := revision)); }
    case OnDefinitiveRemoval(revision) =>
      CancelOk(s);
      StepInv(s, Effect(Cancel(s), []));
      RemoveOk(Cancel(s), revision);
      var r := Remove(Cancel(s), revision);
      ChainQuiet(s, Cancel(s), r.state, r.outcomes);
    case OnAccept(revision) => AcceptOk(s, revision);
    case OnListed(revision) => ListedOk(s, revision);
    case OnAbsent(cachedRevision) => RemoveOk(s, cachedRevision);
    case OnMembershipChanged(revision, deleted, context) => MembershipChangedOk(s, revision, deleted, context);
    case OnConversationCreated(context) => RequestOk(s, Max(0, s.revision), Some(context));
    case OnVerify(context) => VerifyOk(s, context);
    case OnQuarantineForVerification(context) => VerifyOk(s, context);
    case OnRetry => RequestOk(s, s.revision, None);
    case OnDepart(projectionRevision, context) => DepartOk(s, projectionRevision, context);
    case OnDepartureSucceeded(id) => DepartureSucceededOk(s, id);
    case OnDepartureFailed(id) => DepartureFailedOk(s, id);
    case OnAnswer(lookup, answer) => RespondOk(s, lookup, answer);
  }

  lemma QuietStep(s: Access)
    requires Inv(s)
    ensures StepOk(s, Effect(s, []))
  {
    Quiet(s, s);
  }

  // ----- Whole runs -----

  lemma {:induction false} RunOfConcat(s: Access, a: seq<Event>, b: seq<Event>)
    ensures Run(s, a + b).state == Run(Run(s, a).state, b).state
    ensures Run(s, a + b).outcomes == Run(s, a).outcomes + Run(Run(s, a).state, b).outcomes
    decreases |a|
  {
    hide Step;
    if a == [] {
      assert a + b == b;
    } else {
      assert (a + b)[0] == a[0] && (a + b)[1..] == a[1..] + b;
      RunOfConcat(Step(s, a[0]).state, a[1..], b);
    }
  }

  ghost predicate InOrder(outcomes: seq<Outcome>) {
    forall i, j :: 0 <= i < j < |outcomes| && outcomes[i].Removed? && Granted(outcomes[j]) ==> outcomes[i].revision < outcomes[j].revision
  }

  lemma {:induction false} RunKeeps(s: Access, events: seq<Event>)
    requires Inv(s)
    ensures var r := Run(s, events);
            && Inv(r.state) && Advances(s, r.state) && InOrder(r.outcomes)
            && (forall o <- r.outcomes :: Granted(o) ==> Barrier(s) < o.revision <= r.state.revision)
            && (forall o <- r.outcomes :: o.Removed? ==> o.revision <= Barrier(r.state))
    decreases |events|
  {
    hide Step, Barrier, Granted;
    if events != [] {
      var first := Step(s, events[0]);
      EveryStepOk(s, events[0]);
      RunKeeps(first.state, events[1..]);
      var rest := Run(first.state, events[1..]);
    }
  }

  // ----- The results -----

  /** Over any events a group's revision never decreases. */
  lemma {:induction false} RevisionNeverDecreases(a: seq<Event>, b: seq<Event>)
    ensures 0 <= Run(Unknown(), a).state.revision <= Run(Unknown(), a + b).state.revision
  {
    hide Step, Run;
    RunKeeps(Unknown(), a);
    RunOfConcat(Unknown(), a, b);
    RunKeeps(Run(Unknown(), a).state, b);
  }

  /** After a removal at some revision every accepted or authorized projection is newer. */
  lemma {:induction false} NothingReturnsBelowARemoval(events: seq<Event>, i: nat, j: nat)
    requires i < j < |Run(Unknown(), events).outcomes|
    requires Run(Unknown(), events).outcomes[i].Removed? && Granted(Run(Unknown(), events).outcomes[j])
    ensures Run(Unknown(), events).outcomes[i].revision < Run(Unknown(), events).outcomes[j].revision
  {
    hide Step, Run, Granted;
    RunKeeps(Unknown(), events);
  }

  lemma {:induction false} BegunBeforeStays(s: Access, l: Lookup, sameGroup: bool, revision: int)
    requires Inv(s) && BegunBeforeFence(s, l)
    ensures var h := GroupFound(s, l, sameGroup, revision);
            && (forall o <- h.outcomes :: !Granted(o))
            && (s.quarantined ==> h.state.quarantined || (exists o <- h.outcomes :: o.Removed?))
  {
    RemoveTells(s, Max(l.target, s.revision));
    hide Remove;
  }

  lemma RemoveTells(s: Access, revision: int)
    ensures exists o <- Remove(s, revision).outcomes :: o.Removed?
    ensures forall o <- Remove(s, revision).outcomes :: o.Removed?
  {
    assert Remove(s, revision).outcomes[0].Removed?;
  }

  /** A lookup under way when a departure raises its fence never authorizes, whatever it
      answers and whenever its answer comes, and it does not lift the quarantine. */
  lemma {:induction false} StaleLookupNeverAuthorizes(a: seq<Event>, b: seq<Event>, id: LookupId, answer: Answer)
    requires id in Run(Unknown(), a).state.live && id in Run(Unknown(), a + b).state.live
    requires Run(Unknown(), a).state.departureGeneration < Run(Unknown(), a + b).state.departureGeneration
    ensures var s := Run(Unknown(), a + b).state;
            var e := Step(s, OnAnswer(id, answer));
            && (forall o <- e.outcomes :: !Granted(o))
            && (s.quarantined ==> e.state.quarantined || (exists o <- e.outcomes :: o.Removed?))
  {
    var early, s := Run(Unknown(), a).state, Run(Unknown(), a + b).state;
    assert Inv(early) && Inv(s) && Advances(early, s) by {
      hide Step, Run;
      RunKeeps(Unknown(), a);
      RunOfConcat(Unknown(), a, b);
      RunKeeps(early, b);
    }
    hide Run;
    var l := s.live[id];
    assert BegunBeforeFence(s, l);
    match answer {
      case Found(sameGroup, revision) =>
        BegunBeforeStays(s, l, sameGroup, revision);
        hide GroupFound;
      case Missing => FailureGrantsNothing(s, l, true);
      case Unavailable => FailureGrantsNothing(s, l, false);
    }
  }

  lemma {:induction false} FailureGrantsNothing(s: Access, l: Lookup, missing: bool)
    ensures var h := LookupFailed(s, l, missing);
            && (forall o <- h.outcomes :: !Granted(o))
            && (s.quarantined ==> h.state.quarantined || (exists o <- h.outcomes :: o.Removed?))
  {
    if l.fetchRevision == s.requestRevision {
      var stuck := s.departure.Some? && s.revision > s.departure.value.revision && !s.departure.value.removalObserved;
      var t := if stuck then Quarantine(s, s.departure.value.context).state.(failed := true, departure := None) else s;
      RemoveTells(t, Max(l.target, t.revision));
      hide Remove;
      if missing {
        var o :| o in Remove(t, Max(l.target, t.revision)).outcomes && o.Removed?;
        assert o in LookupFailed(s, l, missing).outcomes;
      }
    }
  }

  /** While a departure is pending nothing newer than the projection being left is
      authorized. */
  lemma {:induction false} DepartingSeesNothingNewer(events: seq<Event>, e: Event)
    requires Run(Unknown(), events).state.departure.Some?
    ensures var s := Run(Unknown(), events).state;
            forall o <- Step(s, e).outcomes :: o.Authorized? ==> o.revision == s.departure.value.revision
  {
    var s := Run(Unknown(), events).state;
    assert Inv(s) by {
      hide Step, Run;
      RunKeeps(Unknown(), events);
    }
    hide Run;
    DepartingStep(s, e);
  }

  lemma {:induction false} DepartingStep(s: Access, e: Event)
    requires Inv(s) && s.departure.Some?
    ensures forall o <- Step(s, e).outcomes :: o.Authorized? ==> o.revision == s.departure.value.revision
  {
    hide Request, Fetch, Cancel, Finish, RaiseFence, Restart, MarkRemoved;
    if e.OnAnswer? && e.lookup in s.live {
      var l := s.live[e.lookup];
      match e.answer {
        case Found(sameGroup, revision) => DepartingLookup(s, l, sameGroup, revision);
        case Missing => FailureGrantsNothing(s, l, true);
        case Unavailable => FailureGrantsNothing(s, l, false);
      }
      hide GroupFound, LookupFailed;
    }
  }

  lemma {:induction false} DepartingLookup(s: Access, l: Lookup, sameGroup: bool, revision: int)
    requires Inv(s) && s.departure.Some?
    ensures forall o <- GroupFound(s, l, sameGroup, revision).outcomes :: o.Authorized? ==> o.revision == s.departure.value.revision
  {
    RemoveTells(s, Max(l.target, s.revision));
    hide Remove;
  }

  /** Leaving succeeds while the projection is the one that was left: the group is removed
      at that revision and stays out until a newer one. */
  lemma {:induction false} LeavingRemoves(events: seq<Event>, id: DepartureId)
    requires var s := Run(Unknown(), events).state;
             Pending(s, id) && s.revision == s.departure.value.revision && !(Observed(s) && s.removed.Some?)
    ensures var s := Run(Unknown(), events).state;
            var e := DepartureSucceeded(s, id);
            && Removed(s.revision) in e.outcomes
            && Barrier(e.state) == s.revision && e.state.departure.None? && !e.state.quarantined
  {
    assert Inv(Run(Unknown(), events).state) by {
      hide Step, Run;
      RunKeeps(Unknown(), events);
    }
    hide Run;
    assert Removed(Run(Unknown(), events).state.revision) == DepartureSucceeded(Run(Unknown(), events).state, id).outcomes[0];
  }

  /** When a superseded lookup authorizes, in every reachable record: exactly if it answers
      with a newer projection above the last removal, no departure is pending or waits for
      its reconciliation, and the lookup did not begin before a raised fence. */
  lemma {:induction false} SupersededLookupAuthorizes(events: seq<Event>, id: LookupId, sameGroup: bool, revision: int)
    requires id in Run(Unknown(), events).state.live
    requires Run(Unknown(), events).state.live[id].fetchRevision != Run(Unknown(), events).state.requestRevision
    ensures var s := Run(Unknown(), events).state;
            (exists o <- Step(s, OnAnswer(id, Found(sameGroup, revision))).outcomes :: o.Authorized?) <==>
              && sameGroup && revision > s.revision && Above(revision, s.removed)
              && !Fenced(s) && !BegunBeforeFence(s, s.live[id])
  {
    var s := Run(Unknown(), events).state;
    assert Inv(s) by {
      hide Step, Run;
      RunKeeps(Unknown(), events);
    }
    hide Run;
    SupersededFound(s, s.live[id], sameGroup, revision);
    hide GroupFound;
  }

  lemma {:induction false} SupersededFound(s: Access, l: Lookup, sameGroup: bool, revision: int)
    requires Inv(s) && l.fetchRevision != s.requestRevision
    ensures (exists o <- GroupFound(s, l, sameGroup, revision).outcomes :: o.Authorized?) <==>
              && sameGroup && revision > s.revision && Above(revision, s.removed)
              && !Fenced(s) && !BegunBeforeFence(s, l)
  {
    RemoveTells(s, Max(l.target, s.revision));
    hide Remove;
    var h := GroupFound(s, l, sameGroup, revision);
    if sameGroup && revision > s.revision && Above(revision, s.removed) && !Fenced(s) && !BegunBeforeFence(s, l) {
      assert h.outcomes[0].Authorized?;
    }
  }

  /** So being superseded alone does not stop a lookup: here one begun for an older event
      authorizes although a later event has superseded it. */
  lemma {:induction false} SupersededLookupMayAuthorize(context: Context)
    requires context.projectionRevision == 0
    ensures var s := Run(Unknown(), [OnMembershipChanged(1, false, context), OnMembershipChanged(2, false, context)]).state;
            && s.fence.None? && s.quarantined && 0 in s.live && s.live[0].fetchRevision < s.requestRevision
            && Authorized(3, false) in Step(s, OnAnswer(0, Found(true, 3))).outcomes
  {
    var first, second := OnMembershipChanged(1, false, context), OnMembershipChanged(2, false, context);
    var s1 := Step(Unknown(), first).state;
    var s2 := Step(s1, second).state;
    assert [first, second][1..] == [second] && [second][1..] == [];
    assert Run(s1, [second]).state == s2;
    assert Run(Unknown(), [first, second]).state == s2;
    hide Run;
    assert s2.live[0] == Lookup(1, 0, 1) && s2.requestRevision == 2;
    assert Step(s2, OnAnswer(0, Found(true, 3))).outcomes == [Authorized(3, false)];
  }
}
