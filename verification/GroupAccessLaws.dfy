/** When a group's access record grants, hides, removes and looks up: what each event does to
    every reachable record. */
module GroupAccessLaws {
  import opened Options
  import opened GroupAccess
  import opened GroupAccessProofs

  /** The record after a run. */
  function At(events: seq<Event>): Access {
    Run(Unknown(), events).state
  }

  lemma AtOk(events: seq<Event>)
    ensures Inv(At(events))
  {
    hide Step, Run, Inv;
    assert Inv(Unknown()) by { StartOk(); }
    RunKeeps(Unknown(), events);
  }

  lemma StartOk()
    ensures Inv(Unknown())
  {
  }

  // ----- Answers to lookups -----

  /** Whether a pending departure stands in the way of a projection. */
  predicate LeavingBefore(s: Access, revision: int) {
    s.departure.Some? && (revision > s.departure.value.revision || s.revision > s.departure.value.revision)
  }

  /** A removal observed while leaving is settled by the next answer, whatever it says. */
  predicate RemovalSettles(s: Access) {
    s.departure.Some? && s.departure.value.removalObserved && (s.removed.Some? || !s.quarantined)
  }

  /** The lookup began before a fence, and its answer is above the fence. */
  predicate FencedNews(s: Access, l: Lookup, sameGroup: bool, revision: int) {
    sameGroup && s.fence.Some? && l.departureGeneration < s.fence.value.generation && revision > s.fence.value.revision
  }

  /** When the answer to the latest request authorizes: exactly if it is about the group, not
      older than the lookup's target and the record, above the last removal, not overtaken
      by a departure or a fence, and no observed removal settles it first.  Then the record
      shows that projection. */
  lemma {:induction false} CurrentLookupAuthorizesExactly(events: seq<Event>, id: LookupId, sameGroup: bool, revision: int)
    requires id in At(events).live && At(events).live[id].fetchRevision == At(events).requestRevision
    ensures var s := At(events);
            var l := s.live[id];
            var e := Step(s, OnAnswer(id, Found(sameGroup, revision)));
            && ((exists o <- e.outcomes :: o.Authorized?) <==>
                  && sameGroup && revision >= l.target && revision >= s.revision && Above(revision, s.removed)
                  && !LeavingBefore(s, revision) && !RemovalSettles(s)
                  && !FencedNews(s, l, true, revision))
            && ((exists o <- e.outcomes :: o.Authorized?) ==>
                  && e.outcomes == [Authorized(revision, s.context.Some? && s.context.value.selected)]
                  && e.state.revision == revision && !e.state.quarantined && !e.state.failed && e.state.removed.None?
                  && e.state.context.None? && !e.state.inFlight && id !in e.state.live
                  && e.state.reconciliationRequired ==
                       (s.reconciliationRequired && !(s.fence.Some? && l.departureGeneration >= s.fence.value.generation)))
  {
    AtOk(events);
    hide Run;
    CurrentFound(At(events), At(events).live[id], sameGroup, revision);
    hide GroupFound;
  }

  lemma {:induction false} CurrentFound(s: Access, l: Lookup, sameGroup: bool, revision: int)
    requires Inv(s) && l.fetchRevision == s.requestRevision
    ensures var h := GroupFound(s, l, sameGroup, revision);
            && ((exists o <- h.outcomes :: o.Authorized?) <==>
                  && sameGroup && revision >= l.target && revision >= s.revision && Above(revision, s.removed)
                  && !LeavingBefore(s, revision) && !RemovalSettles(s)
                  && !FencedNews(s, l, true, revision))
            && ((exists o <- h.outcomes :: o.Authorized?) ==>
                  && h.outcomes == [Authorized(revision, s.context.Some? && s.context.value.selected)]
                  && h.state.revision == revision && !h.state.quarantined && !h.state.failed && h.state.removed.None?
                  && h.state.context.None? && !h.retry && h.state.live == s.live
                  && h.state.reconciliationRequired ==
                       (s.reconciliationRequired && !(s.fence.Some? && l.departureGeneration >= s.fence.value.generation)))
  {
    RemoveTells(s, Max(l.target, s.revision));
    hide Remove;
    var h := GroupFound(s, l, sameGroup, revision);
    if h.outcomes == [Authorized(revision, s.context.Some? && s.context.value.selected)] { assert h.outcomes[0].Authorized?; }
  }

  /** A fresh lookup for at least this revision is under way and its answer will be current. */
  ghost predicate LookingUp(s: Access, t: Access, revision: int) {
    && t.inFlight
    && (if s.inFlight then t.requestRevision > s.requestRevision
        else s.lookups in t.live && t.current == Some(s.lookups) && t.live[s.lookups].fetchRevision == t.requestRevision
             && t.live[s.lookups].target >= revision)
  }

  /** A current lookup that finds no group removes it; one that fails otherwise is reported
      and leaves the group as hidden or shown as it was.  A departure the group has moved on
      from ends with it and hides the group. */
  lemma {:induction false} CurrentLookupFails(events: seq<Event>, id: LookupId, answer: Answer)
    requires id in At(events).live && At(events).live[id].fetchRevision == At(events).requestRevision && !answer.Found?
    ensures var s := At(events);
            var e := Step(s, OnAnswer(id, answer));
            var overtaken := s.departure.Some? && s.revision > s.departure.value.revision && !s.departure.value.removalObserved;
            && id !in e.state.live && !e.state.inFlight
            && (overtaken ==> DepartureFinished(true) in e.outcomes && e.state.departure.None?)
            && (!overtaken ==> e.state.departure == s.departure)
            && (if answer.Missing?
                then Removed(Max(s.live[id].target, s.revision)) in e.outcomes && !e.state.quarantined
                     && e.state.removed.Some? && e.state.removed.value == Max(s.live[id].target, s.revision)
                else Retryable(s.quarantined || overtaken) in e.outcomes && e.state.quarantined == (s.quarantined || overtaken)
                     && e.state.revision == s.revision && e.state.removed == s.removed)
  {
    AtOk(events);
    hide Run;
    FailureDoes(At(events), At(events).live[id], answer.Missing?);
    hide LookupFailed, At;
  }

  lemma {:induction false} FailureDoes(s: Access, l: Lookup, missing: bool)
    requires Inv(s) && l.fetchRevision == s.requestRevision
    ensures var h := LookupFailed(s, l, missing);
            var overtaken := s.departure.Some? && s.revision > s.departure.value.revision && !s.departure.value.removalObserved;
            && !h.retry && h.state.live == s.live
            && (overtaken ==> DepartureFinished(true) in h.outcomes && h.state.departure.None?)
            && (!overtaken ==> h.state.departure == s.departure)
            && (if missing
                then Removed(Max(l.target, s.revision)) in h.outcomes && !h.state.quarantined
                     && h.state.removed.Some? && h.state.removed.value == Max(l.target, s.revision)
                else Retryable(s.quarantined || overtaken) in h.outcomes && h.state.quarantined == (s.quarantined || overtaken)
                     && h.state.revision == s.revision && h.state.removed == s.removed)
  {
    var h := LookupFailed(s, l, missing);
    assert h.outcomes[|h.outcomes| - 1] in h.outcomes;
    var overtaken := s.departure.Some? && s.revision > s.departure.value.revision && !s.departure.value.removalObserved;
    if overtaken {
      var n := |Quarantine(s, s.departure.value.context).outcomes|;
      assert h.outcomes[n] == DepartureFinished(true);
    }
  }

  /** A superseded lookup that fails is repeated, unless the group is known to be removed. */
  lemma {:induction false} SupersededFailureIsRepeated(events: seq<Event>, id: LookupId, answer: Answer)
    requires id in At(events).live && At(events).live[id].fetchRevision != At(events).requestRevision && !answer.Found?
    ensures var s := At(events);
            var e := Step(s, OnAnswer(id, answer));
            && e.outcomes == []
            && (if s.removed.Some? && !s.quarantined then !e.state.inFlight
                else e.state.inFlight && s.lookups in e.state.live && e.state.live[s.lookups].fetchRevision == e.state.requestRevision)
  {
    AtOk(events);
    hide At, Inv;
  }

  /** An answer about a group that has moved on from the projection being left hides it, under
      the revision found, and is not repeated. */
  lemma {:induction false} OvertakingAnswerHides(events: seq<Event>, id: LookupId, revision: int)
    requires id in At(events).live && At(events).departure.Some? && revision > At(events).departure.value.revision
    ensures var s := At(events);
            var e := Step(s, OnAnswer(id, Found(true, revision)));
            && e.state.quarantined && e.state.revision == Max(s.revision, revision) && !e.state.inFlight && id !in e.state.live
            && e.state.departure == s.departure && e.state.removed == s.removed
            && e.outcomes == if s.quarantined then []
                             else [Quarantined(if s.context.Some? then s.context.value.selected else s.departure.value.context.selected)]
  {
    hide At;
  }

  /** An answer of a lookup from before a fence, about a revision above the fence, hides the
      group without a word; it is repeated when it is not the latest request's. */
  lemma {:induction false} FencedAnswerHides(events: seq<Event>, id: LookupId, revision: int)
    requires var s := At(events);
             && id in s.live && !(s.departure.Some? && revision > s.departure.value.revision)
             && FencedNews(s, s.live[id], true, revision)
    ensures var s := At(events);
            var e := Step(s, OnAnswer(id, Found(true, revision)));
            && e.outcomes == [] && e.state.quarantined && e.state.revision == Max(s.revision, revision) && e.state.removed == s.removed
            && e.state.context == s.context && e.state.inFlight == (s.live[id].fetchRevision != s.requestRevision)
  {
    hide At;
  }

  /** A removal observed while leaving is settled by the next answer. */
  lemma {:induction false} AnswerSettlesRemoval(events: seq<Event>, id: LookupId, sameGroup: bool, revision: int)
    requires var s := At(events);
             && id in s.live && RemovalSettles(s) && !(sameGroup && revision > s.departure.value.revision)
             && !FencedNews(s, s.live[id], sameGroup, revision)
    ensures var s := At(events);
            var e := Step(s, OnAnswer(id, Found(sameGroup, revision)));
            && !e.state.inFlight && id !in e.state.live && e.state.removed.Some?
            && (if s.removed.Some? then e.outcomes == [DepartureFinished(false)] && e.state.departure.None? && e.state.removed == s.removed
                else e.outcomes == [Removed(Max(s.live[id].target, s.revision))] && Forgotten(e.state))
  {
    AtOk(events);
    hide At;
  }

  /** A current answer that does not fit is reported, so that it can be retried by hand. */
  lemma {:induction false} UnfitAnswerIsReported(events: seq<Event>, id: LookupId, sameGroup: bool, revision: int)
    requires id in At(events).live && At(events).live[id].fetchRevision == At(events).requestRevision
    requires Unfit(At(events), At(events).live[id], sameGroup, revision)
    ensures var s := At(events);
            var e := Step(s, OnAnswer(id, Found(sameGroup, revision)));
            && e.outcomes == [Retryable(s.quarantined)] && e.state.failed == s.quarantined && !e.state.inFlight && id !in e.state.live
            && e.state.revision == s.revision && e.state.quarantined == s.quarantined && e.state.removed == s.removed
            && e.state.departure == s.departure
  {
    UnfitIs(At(events), At(events).live[id], sameGroup, revision);
    hide At, GroupFound, Unfit;
  }

  /** About another group, too old or removed, and with nothing else to settle first. */
  predicate Unfit(s: Access, l: Lookup, sameGroup: bool, revision: int) {
    && !RemovalSettles(s) && !FencedNews(s, l, sameGroup, revision)
    && !(sameGroup && s.departure.Some? && revision > s.departure.value.revision)
    && (!sameGroup || revision < l.target || revision < s.revision || !Above(revision, s.removed))
  }

  lemma {:induction false} UnfitIs(s: Access, l: Lookup, sameGroup: bool, revision: int)
    requires l.fetchRevision == s.requestRevision && Unfit(s, l, sameGroup, revision)
    ensures GroupFound(s, l, sameGroup, revision) == Handled(s.(failed := s.quarantined), [Retryable(s.quarantined)], false)
  {
  }

  /** A superseded answer that does not end a departure is repeated, except while leaving or
      when the group is known to be removed and the answer is no news. */
  lemma {:induction false} SupersededAnswerIsRepeated(events: seq<Event>, id: LookupId, sameGroup: bool, revision: int)
    requires var s := At(events);
             && id in s.live && s.live[id].fetchRevision != s.requestRevision && !RemovalSettles(s)
             && !(sameGroup && s.departure.Some? && revision > s.departure.value.revision)
    ensures var s := At(events);
            var e := Step(s, OnAnswer(id, Found(sameGroup, revision)));
            && (e.state.inFlight <==>
                  || FencedNews(s, s.live[id], sameGroup, revision)
                  || (s.departure.None? && ((sameGroup && revision > s.revision && Above(revision, s.removed)) || s.quarantined || s.removed.None?)))
            && (e.state.inFlight ==>
                  && e.state.current == Some(s.lookups) && s.lookups in e.state.live
                  && e.state.live[s.lookups] == Lookup(s.requestRevision, s.departureGeneration, s.requestedRevision))
  {
    SupersededIs(At(events), At(events).live[id], sameGroup, revision);
    hide At, GroupFound, FencedNews, RemovalSettles;
  }

  lemma {:induction false} SupersededIs(s: Access, l: Lookup, sameGroup: bool, revision: int)
    requires l.fetchRevision != s.requestRevision && !RemovalSettles(s)
    requires !(sameGroup && s.departure.Some? && revision > s.departure.value.revision)
    ensures var h := GroupFound(s, l, sameGroup, revision);
            && h.state.live == s.live && h.state.requestRevision == s.requestRevision && h.state.requestedRevision == s.requestedRevision
            && h.state.departureGeneration == s.departureGeneration && h.state.lookups == s.lookups
            && (h.retry && !(h.state.removed.Some? && !h.state.quarantined) <==>
                  || FencedNews(s, l, sameGroup, revision)
                  || (s.departure.None? && ((sameGroup && revision > s.revision && Above(revision, s.removed)) || s.quarantined || s.removed.None?)))
  {
  }

  // ----- Membership events and lists -----

  /** After a removal nothing is hidden, retried, reconciled or waiting to be selected again. */
  predicate Forgotten(s: Access) {
    !s.quarantined && !s.failed && !s.reconciliationRequired && s.context.None?
  }

  /** Loading a projection elsewhere raises the known revision and does nothing else. */
  lemma {:induction false} KnownRevisionIsRaised(events: seq<Event>, revision: int)
    ensures Step(At(events), OnMarkAuthorized(revision)) ==
            Effect(At(events).(revision := if revision > At(events).revision then revision else At(events).revision), [])
  {
    hide At;
  }

  /** A list keeps showing the cached group exactly when it changes nothing, the group is not
      hidden and no removal is known. */
  lemma {:induction false} CachedIsKeptExactly(s: Access, revision: int)
    ensures var e := Step(s, OnListed(revision));
            KeepsCached(s, revision) <==>
              && e.outcomes == [] && !e.state.quarantined && (s.removed.None? || s.removed.value == 0)
    ensures KeepsCached(s, revision) ==> Step(s, OnListed(revision)).state == s
  {
  }

  /** News hides the group and looks it up; a deletion removes it; anything not newer than
      what is known does nothing. */
  lemma {:induction false} MembershipNews(events: seq<Event>, revision: int, deleted: bool, context: Context)
    ensures var s := At(events);
            var e := Step(s, OnMembershipChanged(revision, deleted, context));
            if revision <= s.revision || revision <= context.projectionRevision then e == Effect(s, [])
            else if deleted then
              e.outcomes == [Removed(revision)] && e.state.revision == revision && e.state.removed == Some(revision)
              && Forgotten(e.state) && !e.state.inFlight
              && (e.state.departure.Some? ==> s.departure.Some? && (e.state.departure.value.removalObserved <==>
                    s.departure.value.removalObserved || s.departure.value.revision == Max(s.revision, context.projectionRevision)))
            else
              e.outcomes == (if s.quarantined then [] else [Quarantined(context.selected)])
              && e.state.revision == revision && e.state.quarantined && e.state.removed.None? && LookingUp(s, e.state, revision)
              && e.state.requestedRevision >= revision
              && (!s.quarantined ==> e.state.context == Some(context))
  {
    AtOk(events);
    hide At;
  }

  /** A projection that arrives by itself is taken exactly when it is not older than the
      record and above the last removal, and shown when the group is not hidden. */
  lemma {:induction false} ProjectionTakenExactly(events: seq<Event>, revision: int)
    ensures var s := At(events);
            var e := Step(s, OnAccept(revision));
            && ((exists o <- e.outcomes :: Granted(o)) <==> revision >= s.revision && Above(revision, s.removed) && !s.quarantined)
            && (revision >= s.revision && Above(revision, s.removed) ==>
                  && e.state.revision == revision && e.state.removed.None? && e.state.quarantined == s.quarantined
                  && (s.inFlight && revision > s.revision ==>
                        e.state.requestRevision > s.requestRevision && e.state.requestedRevision >= revision))
            && (!(revision >= s.revision && Above(revision, s.removed)) ==> e == Effect(s, []))
  {
    hide At;
    if !Refused(At(events), revision) && !At(events).quarantined {
      assert Accepted(revision) in Step(At(events), OnAccept(revision)).outcomes && Granted(Accepted(revision));
    }
  }

  /** An authorized list restores a hidden group exactly when no departure or reconciliation
      stands in the way and its revision is current; it cancels the lookup then.  While the
      group is being left a newer revision hides it instead. */
  lemma {:induction false} ListRestoresExactly(events: seq<Event>, revision: int)
    ensures var s := At(events);
            var e := Step(s, OnListed(revision));
            var overtaking := s.departure.Some? && revision > s.departure.value.revision;
            && (s.quarantined ==>
                  ((exists o <- e.outcomes :: Granted(o)) <==>
                     !s.reconciliationRequired && s.departure.None? && revision >= s.revision && Above(revision, s.removed)))
            && (s.quarantined && (exists o <- e.outcomes :: Granted(o)) ==>
                  && e.outcomes == [Authorized(revision, s.context.Some? && s.context.value.selected)]
                  && e.state.revision == revision && !e.state.quarantined && e.state.removed.None? && !e.state.inFlight
                  && (s.current.Some? ==> s.current.value !in e.state.live) && e.state.requestRevision > s.requestRevision)
            && (!s.quarantined && !overtaking ==> e == Step(s, OnAccept(revision)))
            && (overtaking ==> e.state.quarantined && e.state.revision == Max(s.revision, revision)
                               && (!s.quarantined ==>
                                     e.outcomes == [Quarantined(if s.context.Some? then s.context.value.selected else s.departure.value.context.selected)]))
  {
    hide At, Accept;
    var s := At(events);
    var e := Step(s, OnListed(revision));
    if e.outcomes != [] { assert e.outcomes[0] in e.outcomes; }
    AcceptGrants(s, revision);
  }

  lemma {:induction false} AcceptGrants(s: Access, revision: int)
    ensures s.quarantined ==> Accept(s, revision).outcomes == []
  {
  }

  /** A cached group missing from an authoritative list is removed, unless it is hidden or
      known to be removed. */
  lemma {:induction false} MissingIsRemovedExactly(events: seq<Event>, cachedRevision: int)
    ensures var s := At(events);
            var e := Step(s, OnAbsent(cachedRevision));
            if s.quarantined || s.removed.Some? then e == Effect(s, [])
            else e.outcomes == [Removed(Max(cachedRevision, s.revision))] && e.state.removed.Some?
                 && e.state.revision == e.state.removed.value == Max(cachedRevision, s.revision)
                 && Forgotten(e.state) && !e.state.inFlight && (s.inFlight ==> e.state.requestRevision > s.requestRevision)
  {
    AtOk(events);
    hide At;
  }

  /** A definitive removal takes effect unless it is known already. */
  lemma {:induction false} RemovalTakesEffect(events: seq<Event>, revision: int)
    ensures var s := At(events);
            var e := Step(s, OnDefinitiveRemoval(revision));
            && !e.state.quarantined && e.state.removed.Some? && e.state.removed.value >= revision
            && (e.outcomes != [] ==> Forgotten(e.state) && (s.current.Some? ==> s.current.value !in e.state.live))
            && (e.outcomes == [] || (e.outcomes == [Removed(Max(revision, s.revision))] && !e.state.inFlight))
            && (s.quarantined || s.removed.None? || s.removed.value < revision ==> e.outcomes != [])
  {
    AtOk(events);
    hide At;
  }

  /** Verifying or retrying a hidden group leaves a lookup under way. */
  lemma {:induction false} HiddenGroupsAreLookedUp(events: seq<Event>, context: Context)
    ensures var s := At(events);
            var verified, retried, hidden, created := Step(s, OnVerify(context)), Step(s, OnRetry),
                                                      Step(s, OnQuarantineForVerification(context)), Step(s, OnConversationCreated(context));
            && verified.state.quarantined && verified.state.inFlight
            && (verified.outcomes == if s.quarantined then [] else [Quarantined(context.selected)])
            && (!s.inFlight ==> LookingUp(s, verified.state, s.revision) && LookingUp(s, created.state, s.revision))
            && (s.quarantined || Observed(s) ==> retried.state.inFlight && (!s.inFlight ==> LookingUp(s, retried.state, s.revision)))
            && retried.outcomes == [] && created.outcomes == [] && created.state.inFlight
            && (created.state.context == if s.context.Some? then s.context else Some(context))
            && (verified.state.context == if s.context.Some? && s.quarantined then s.context else if s.quarantined && s.inFlight && !context.selected then None else Some(context))
            && (s.inFlight && s.revision > s.requestedRevision ==> created.state.requestRevision > s.requestRevision)
            && hidden.state.quarantined && hidden.state.inFlight == s.inFlight && hidden.outcomes == verified.outcomes
  {
    AtOk(events);
    hide At;
  }

  // ----- Departures -----

  /** A departure is announced once, remembers the projection being left and cancels the
      lookup under way. */
  lemma {:induction false} DepartureBegins(events: seq<Event>, projectionRevision: int, context: Context)
    ensures var s := At(events);
            var e := Step(s, OnDepart(projectionRevision, context));
            if s.departure.Some? then e == Effect(s, [])
            else
              e.outcomes == [DeparturePending] && !e.state.inFlight && e.state.departure.Some?
              && e.state.departure.value.revision == e.state.revision == Max(s.revision, projectionRevision)
              && e.state.departure.value.context == context && !e.state.departure.value.removalObserved
              && (s.current.Some? ==> s.current.value !in e.state.live) && e.state.quarantined == s.quarantined
              && e.state.context.None?
  {
    hide At;
  }

  /** A departure that succeeds is over: the group is removed at the revision left, or, when
      its projection moved on meanwhile, hidden behind a new fence and looked up afresh, or
      was removed before. */
  lemma {:induction false} DepartureSucceedsExactly(events: seq<Event>, id: DepartureId)
    requires At(events).departure.Some? && At(events).departure.value.id == id
    ensures var s := At(events);
            var d := s.departure.value;
            var e := Step(s, OnDepartureSucceeded(id));
            && e.state.departure.None? && DepartureFinished(false) in e.outcomes && DepartureFinished(true) !in e.outcomes
            && (if d.removalObserved && s.removed.Some? then e.outcomes == [DepartureFinished(false)] && e.state.removed == s.removed
                else if s.revision == d.revision then
                  e.outcomes == [Removed(d.revision), DepartureFinished(false)] && e.state.removed.Some? && e.state.removed.value == d.revision
                  && Forgotten(e.state) && !e.state.inFlight && (s.inFlight ==> e.state.requestRevision > s.requestRevision)
                else
                  e.outcomes == [DepartureFinished(false)] && e.state.quarantined && e.state.reconciliationRequired
                  && e.state.fence == Some(Fence(s.departureGeneration + 1, d.revision)) && e.state.context == Some(d.context)
                  && e.state.inFlight && s.lookups in e.state.live
                  && e.state.live[s.lookups] == Lookup(e.state.requestRevision, s.departureGeneration + 1, s.requestedRevision)
                  && e.state.requestRevision > s.requestRevision)
  {
    AtOk(events);
    hide At;
    var e := Step(At(events), OnDepartureSucceeded(id));
    assert e.outcomes[|e.outcomes| - 1] in e.outcomes && e.outcomes[0] in e.outcomes;
  }

  /** A departure that fails is over: unless the removal was observed, the group is hidden and
      looked up afresh. */
  lemma {:induction false} DepartureFailsExactly(events: seq<Event>, id: DepartureId)
    requires At(events).departure.Some? && At(events).departure.value.id == id
    ensures var s := At(events);
            var d := s.departure.value;
            var e := Step(s, OnDepartureFailed(id));
            && e.state.departure.None? && DepartureFinished(true) in e.outcomes && e.state.revision == s.revision && e.state.removed == s.removed
            && (if d.removalObserved then e.state.quarantined == s.quarantined && e.state.inFlight == s.inFlight
                else
                  e.state.quarantined && e.state.inFlight && s.lookups in e.state.live
                  && e.state.live[s.lookups].fetchRevision == e.state.requestRevision > s.requestRevision)
  {
    AtOk(events);
    hide At;
    var e := Step(At(events), OnDepartureFailed(id));
    assert e.outcomes[|e.outcomes| - 1] in e.outcomes;
  }

  /** Other departures' answers come too late and do nothing. */
  lemma {:induction false} LateDepartureIsIgnored(events: seq<Event>, id: DepartureId)
    requires At(events).departure.None? || At(events).departure.value.id != id
    ensures Step(At(events), OnDepartureSucceeded(id)) == Effect(At(events), [])
    ensures Step(At(events), OnDepartureFailed(id)) == Effect(At(events), [])
  {
    hide At;
  }

  // ----- What is under way -----

  /** A lookup of the latest request asks for the latest revision wanted; the flag stands
      only while a lookup is under way. */
  ghost predicate LookupsOk(s: Access) {
    && (forall id <- s.live :: LookupOk(s, s.live[id]))
    && (s.current.Some? ==> s.current.value in s.live)
    && (s.inFlight ==> s.current.Some?)
  }

  ghost predicate LookupOk(s: Access, l: Lookup) {
    l.fetchRevision <= s.requestRevision && (l.fetchRevision == s.requestRevision ==> l.target == s.requestedRevision)
  }

  /** What leaves the lookups alone, or makes the latest one out of date. */
  predicate Calm(s: Access, t: Access) {
    && t.live == s.live && t.current == s.current && t.requestedRevision == s.requestedRevision
    && s.requestRevision <= t.requestRevision && (t.inFlight ==> s.inFlight)
  }

  lemma {:induction false} CalmKeeps(s: Access, t: Access)
    requires LookupsOk(s) && Calm(s, t)
    ensures LookupsOk(t)
  {
    forall id <- t.live ensures LookupOk(t, t.live[id]) { assert LookupOk(s, s.live[id]); }
  }

  lemma {:induction false} CancelKeeps(s: Access)
    requires LookupsOk(s)
    ensures LookupsOk(Cancel(s)) && Cancel(s).requestedRevision == s.requestedRevision
  {
    var t := Cancel(s);
    forall id <- t.live ensures LookupOk(t, t.live[id]) { assert LookupOk(s, s.live[id]); }
  }

  /** A new lookup carries the latest request. */
  lemma {:induction false} FetchKeeps(s: Access, t: Access)
    requires LookupsOk(s) && t.live == s.live && s.requestRevision <= t.requestRevision
    requires t.requestedRevision == s.requestedRevision || s.requestRevision < t.requestRevision
    ensures LookupsOk(Fetch(t))
  {
    var u := Fetch(t);
    forall id <- u.live ensures LookupOk(u, u.live[id]) {
      if id != t.lookups { assert LookupOk(s, s.live[id]); }
    }
  }

  lemma {:induction false} RaisedKeeps(s: Access, t: Access)
    requires LookupsOk(s) && t.live == s.live && t.current == s.current && t.inFlight == s.inFlight
    requires s.requestRevision < t.requestRevision
    ensures LookupsOk(t)
  {
    forall id <- t.live ensures LookupOk(t, t.live[id]) { assert LookupOk(s, s.live[id]); }
  }

  lemma {:induction false} RequestKeeps(s: Access, requested: int, context: Option<Context>)
    requires LookupsOk(s)
    ensures LookupsOk(Request(s, requested, context)) && s.requestedRevision <= Request(s, requested, context).requestedRevision
  {
    hide LookupsOk, Fetch;
    var latest := Max(s.requestedRevision, requested);
    var t := s.(context := if context.Some? && s.context.None? then context else s.context,
                requestRevision := s.requestRevision + if !s.inFlight || latest > s.requestedRevision then 1 else 0,
                requestedRevision := latest);
    if s.inFlight {
      if latest > s.requestedRevision { RaisedKeeps(s, t); } else { CalmKeeps(s, t); }
    } else {
      FetchKeeps(s, t);
      FetchAsks(t);
    }
  }

  lemma FetchAsks(s: Access)
    ensures Fetch(s).requestedRevision == s.requestedRevision
  {
  }

  lemma {:induction false} FoundIsCalm(s: Access, l: Lookup, sameGroup: bool, revision: int)
    ensures Calm(s, GroupFound(s, l, sameGroup, revision).state)
  {
    MismatchedIsCalm(s, l, sameGroup, revision);
    hide Mismatched;
  }

  lemma {:induction false} MismatchedIsCalm(s: Access, l: Lookup, sameGroup: bool, revision: int)
    ensures Calm(s, Mismatched(s, l, sameGroup, revision).state)
  {
  }

  lemma {:induction false} FailureIsCalm(s: Access, l: Lookup, missing: bool)
    ensures Calm(s, LookupFailed(s, l, missing).state)
  {
  }

  lemma {:induction false} FinishKeeps(s: Access, id: LookupId, retry: bool)
    requires LookupsOk(s)
    ensures LookupsOk(Finish(s, id, retry)) && Finish(s, id, retry).requestedRevision == s.requestedRevision
  {
    var t := s.(live := s.live - {id}, inFlight := false);
    forall i <- t.live ensures LookupOk(t, t.live[i]) { assert LookupOk(s, s.live[i]); }
    if retry && !(t.removed.Some? && !t.quarantined) {
      FinishFetches(s, t);
    }
  }

  lemma {:induction false} FinishFetches(s: Access, t: Access)
    requires LookupsOk(s) && t.requestRevision == s.requestRevision && t.requestedRevision == s.requestedRevision
    requires forall i <- t.live :: LookupOk(t, t.live[i])
    ensures LookupsOk(Fetch(t))
  {
    var u := Fetch(t);
    forall id <- u.live ensures LookupOk(u, u.live[id]) {
      if id != t.lookups { assert LookupOk(t, t.live[id]); }
    }
  }

  lemma {:induction false} AnswerKeepsLookups(s: Access, id: LookupId, answer: Answer)
    requires LookupsOk(s)
    ensures var t := Respond(s, id, answer).state; LookupsOk(t) && t.requestedRevision == s.requestedRevision
  {
    hide LookupsOk, GroupFound, LookupFailed, Finish;
    if id in s.live {
      var l := s.live[id];
      var h := match answer
               case Found(sameGroup, revision) => GroupFound(s, l, sameGroup, revision)
               case Missing => LookupFailed(s, l, true)
               case Unavailable => LookupFailed(s, l, false);
      match answer {
        case Found(sameGroup, revision) => FoundIsCalm(s, l, sameGroup, revision);
        case Missing => FailureIsCalm(s, l, true);
        case Unavailable => FailureIsCalm(s, l, false);
      }
      CalmKeeps(s, h.state);
      FinishKeeps(h.state, id, h.retry);
    }
  }

  lemma {:induction false} NewsKeepsLookups(s: Access, revision: int, deleted: bool, context: Context)
    requires LookupsOk(s)
    ensures var t := MembershipChanged(s, revision, deleted, context).state; LookupsOk(t) && s.requestedRevision <= t.requestedRevision
  {
    hide LookupsOk, Cancel, Request, Remove, Quarantine;
    var t := s.(revision := revision,
                requestedRevision := if s.inFlight then Max(s.requestedRevision, revision) else s.requestedRevision,
                requestRevision := s.requestRevision + if s.inFlight then 1 else 0);
    if s.inFlight { RaisedKeeps(s, t); } else { CalmKeeps(s, t); }
    var u := if t.departure.Some? && Max(s.revision, context.projectionRevision) == t.departure.value.revision
             then t.(departure := Some(t.departure.value.(removalObserved := true))) else t;
    CalmKeeps(t, u);
    CancelKeeps(u);
    RemoveIsCalm(Cancel(u), revision);
    CalmKeeps(Cancel(u), Remove(Cancel(u), revision).state);
    var v := t.(removed := if Above(revision, t.removed) then None else t.removed);
    HidingIsCalm(v, context);
    CalmKeeps(t, Quarantine(v, context).state);
    RequestKeeps(Quarantine(v, context).state, revision, None);
  }

  lemma RemoveIsCalm(s: Access, revision: int)
    ensures Calm(s, Remove(s, revision).state)
  {
  }

  lemma HidingIsCalm(s: Access, context: Context)
    ensures Calm(s, Quarantine(s, context).state)
  {
  }

  lemma {:induction false} ListKeepsLookups(s: Access, revision: int)
    requires LookupsOk(s)
    ensures var t := Accept(s, revision).state; LookupsOk(t) && s.requestedRevision <= t.requestedRevision
    ensures var t := Listed(s, revision).state; LookupsOk(t) && s.requestedRevision <= t.requestedRevision
  {
    hide LookupsOk, Cancel;
    AcceptKeeps(s, revision);
    hide Accept;
    var t := s.(requestedRevision := Max(s.requestedRevision, revision), requestRevision := s.requestRevision + 1);
    RaisedKeeps(s, t);
    CancelKeeps(t);
    if Listed(s, revision).state != Accept(s, revision).state {
      ListedIs(s, revision);
      CalmKeeps(if Calm(s, Listed(s, revision).state) then s else Cancel(t), Listed(s, revision).state);
      hide Listed, Calm;
    }
  }

  lemma {:induction false} ListedIs(s: Access, revision: int)
    ensures var t := Cancel(s.(requestedRevision := Max(s.requestedRevision, revision), requestRevision := s.requestRevision + 1));
            Listed(s, revision) == Accept(s, revision) || Calm(s, Listed(s, revision).state) || Calm(t, Listed(s, revision).state)
  {
    hide Accept;
  }

  lemma {:induction false} AcceptKeeps(s: Access, revision: int)
    requires LookupsOk(s)
    ensures var t := Accept(s, revision).state; LookupsOk(t) && s.requestedRevision <= t.requestedRevision
  {
    var t := Accept(s, revision).state;
    if !Refused(s, revision) && revision > s.revision && s.inFlight { RaisedKeeps(s, t); } else { CalmKeeps(s, t); }
    hide LookupsOk;
  }

  lemma {:induction false} DepartureKeepsLookups(s: Access, id: DepartureId)
    requires LookupsOk(s)
    ensures var t := DepartureSucceeded(s, id).state; LookupsOk(t) && s.requestedRevision <= t.requestedRevision
    ensures var t := DepartureFailed(s, id).state; LookupsOk(t) && s.requestedRevision <= t.requestedRevision
  {
    if Pending(s, id) {
      FenceKeeps(s);
      var q := Quarantine(s, s.departure.value.context).state;
      HidingIsCalm(s, s.departure.value.context);
      CalmKeeps(s, q);
      RestartKeeps(q);
      CalmKeeps(s, s.(departure := None));
      RemoveIsCalm(s, s.departure.value.revision);
      CalmKeeps(s, Remove(s, s.departure.value.revision).state.(departure := None));
    }
    hide LookupsOk, RaiseFence, Restart, Quarantine, Remove;
  }

  lemma {:induction false} FenceKeeps(s: Access)
    requires LookupsOk(s) && s.departure.Some?
    ensures LookupsOk(RaiseFence(s)) && RaiseFence(s).requestedRevision == s.requestedRevision
  {
    CancelKeeps(s);
    var t := RaiseFence(s);
    forall id <- t.live ensures LookupOk(t, t.live[id]) {
      if id != s.lookups { assert LookupOk(s, s.live[id]); }
    }
  }

  lemma {:induction false} RestartKeeps(s: Access)
    requires LookupsOk(s)
    ensures LookupsOk(Restart(s)) && Restart(s).requestedRevision == s.requestedRevision
  {
    var t := Restart(s);
    forall id <- t.live ensures LookupOk(t, t.live[id]) {
      if id != s.lookups { assert LookupOk(s, s.live[id]); }
    }
  }

  lemma {:induction false} VerifyKeepsLookups(s: Access, context: Context)
    requires LookupsOk(s)
    ensures var t := VerifyQuarantined(s, context).state; LookupsOk(t) && s.requestedRevision <= t.requestedRevision
    ensures var t := QuarantineForVerification(s, context).state; LookupsOk(t) && s.requestedRevision <= t.requestedRevision
  {
    var q := QuarantineForVerification(s, context).state;
    assert Calm(s, q);
    CalmKeeps(s, q);
    RequestKeeps(q, q.revision, Some(context));
    hide LookupsOk, Request, Quarantine;
  }

  lemma {:induction false} StepKeepsLookups(s: Access, e: Event)
    requires LookupsOk(s)
    ensures LookupsOk(Step(s, e).state) && s.requestedRevision <= Step(s, e).state.requestedRevision
  {
    hide LookupsOk, Request, Cancel, MembershipChanged, Listed, Accept, VerifyQuarantined, QuarantineForVerification,
      DepartureSucceeded, DepartureFailed, Respond, Remove;
    match e {
      case OnMarkAuthorized(revision) => CalmKeeps(s, MarkAuthorized(s, revision));
      case OnDefinitiveRemoval(revision) =>
        CancelKeeps(s);
        RemoveIsCalm(Cancel(s), revision);
        CalmKeeps(Cancel(s), Remove(Cancel(s), revision).state);
      case OnAccept(revision) => ListKeepsLookups(s, revision);
      case OnListed(revision) => ListKeepsLookups(s, revision);
      case OnAbsent(cachedRevision) =>
        RemoveIsCalm(s, cachedRevision);
        CalmKeeps(s, Remove(s, cachedRevision).state);
      case OnMembershipChanged(revision, deleted, context) => NewsKeepsLookups(s, revision, deleted, context);
      case OnConversationCreated(context) => RequestKeeps(s, Max(0, s.revision), Some(context));
      case OnVerify(context) => VerifyKeepsLookups(s, context);
      case OnQuarantineForVerification(context) => VerifyKeepsLookups(s, context);
      case OnRetry => RequestKeeps(s, s.revision, None);
      case OnDepart(projectionRevision, context) =>
        var t := s.(revision := Max(s.revision, projectionRevision),
                    departure := Some(Departure(s.departures, Max(s.revision, projectionRevision), context, false)),
                    departures := s.departures + 1, context := None);
        CalmKeeps(s, t);
        CancelKeeps(t);
      case OnDepartureSucceeded(id) => DepartureKeepsLookups(s, id);
      case OnDepartureFailed(id) => DepartureKeepsLookups(s, id);
      case OnAnswer(lookup, answer) => AnswerKeepsLookups(s, lookup, answer);
    }
  }

  lemma {:induction false} RunKeepsLookups(s: Access, events: seq<Event>)
    requires LookupsOk(s)
    ensures LookupsOk(Run(s, events).state) && s.requestedRevision <= Run(s, events).state.requestedRevision
    decreases |events|
  {
    hide Step, LookupsOk;
    if events != [] {
      StepKeepsLookups(s, events[0]);
      RunKeepsLookups(Step(s, events[0]).state, events[1..]);
    }
  }

  /** Over every run: while the flag says so a lookup is under way; no lookup runs ahead of the
      requests, and one that answers the latest request asks for the newest revision that
      anything so far has wanted. */
  lemma {:induction false} LookupsAskForTheNewest(a: seq<Event>, b: seq<Event>)
    ensures var s, t := At(a), At(a + b);
            && (t.inFlight ==> t.current.Some? && t.current.value in t.live)
            && (forall id <- t.live :: t.live[id].fetchRevision <= t.requestRevision)
            && (forall id <- t.live :: t.live[id].fetchRevision == t.requestRevision ==> t.live[id].target == t.requestedRevision)
            && s.requestedRevision <= t.requestedRevision
  {
    hide Run, Step;
    assert LookupsOk(Unknown());
    RunKeepsLookups(Unknown(), a);
    RunOfConcat(Unknown(), a, b);
    RunKeepsLookups(At(a), b);
    forall id <- At(a + b).live ensures LookupOk(At(a + b), At(a + b).live[id]) {}
  }
}
