/** One group's access record in the browser, as functions of the record: what lists,
    membership events, lookups and departures may do to it.

    Every callback is one step.  A lookup answers once, after the call that began it has
    returned.  What the source announces on its outcome stream is returned as a list. */
module GroupAccess {
  import opened Options

  type LookupId = nat
  type DepartureId = nat

  datatype Context = Context(selected: bool, intent: nat, projectionRevision: int)

  /** What a lookup remembers of the moment it began. */
  datatype Lookup = Lookup(fetchRevision: int, departureGeneration: int, target: int)

  datatype Fence = Fence(generation: int, revision: int)

  datatype Departure = Departure(id: DepartureId, revision: int, context: Context, removalObserved: bool)

  datatype Access = Access(
    revision: int,
    removed: Option<int>,
    quarantined: bool,
    failed: bool,
    context: Option<Context>,
    requestRevision: int,
    requestedRevision: int,
    inFlight: bool,
    departureGeneration: int,
    fence: Option<Fence>,
    reconciliationRequired: bool,
    departure: Option<Departure>,
    departures: nat,
    live: map<LookupId, Lookup>,
    current: Option<LookupId>,
    lookups: nat)

  datatype Outcome =
    | Quarantined(selected: bool)
    | Authorized(revision: int, restoreSelected: bool)
    | Accepted(revision: int)
    | Removed(revision: int)
    | Retryable(quarantined: bool)
    | DeparturePending
    | DepartureFinished(failed: bool)

  datatype Effect = Effect(state: Access, outcomes: seq<Outcome>)

  datatype Answer = Found(sameGroup: bool, revision: int) | Missing | Unavailable

  function Unknown(): Access {
    Access(0, None, false, false, None, 0, 0, false, 0, None, false, None, 0, map[], None, 0)
  }

  function Max(a: int, b: int): int {
    if a < b then b else a
  }

  predicate Above(revision: int, removed: Option<int>) {
    removed.None? || revision > removed.value
  }

  predicate Observed(s: Access) {
    s.departure.Some? && s.departure.value.removalObserved
  }

  // ----- Small changes -----

  /** Unsubscribe from the group's latest lookup; older ones stay subscribed. */
  function Cancel(s: Access): Access {
    s.(live := if s.current.Some? then s.live - {s.current.value} else s.live, current := None, inFlight := false)
  }

  function Quarantine(s: Access, context: Context): Effect {
    if !s.quarantined then
      Effect(s.(quarantined := true, failed := false, context := Some(context)), [Quarantined(context.selected)])
    else Effect(if s.context.None? && context.selected then s.(context := Some(context)) else s, [])
  }

  function MarkRemoved(s: Access, revision: int): Access {
    var removal := Max(revision, s.revision);
    s.(revision := removal,
       requestRevision := s.requestRevision + if s.inFlight then 1 else 0,
       inFlight := false,
       removed := Some(Max(if s.removed.Some? then s.removed.value else 0, removal)),
       quarantined := false, failed := false, reconciliationRequired := false, context := None)
  }

  function Remove(s: Access, revision: int): Effect {
    var t := MarkRemoved(s, revision);
    Effect(t, [Removed(t.revision)])
  }

  function Fetch(s: Access): Access {
    s.(inFlight := true,
       live := s.live[s.lookups := Lookup(s.requestRevision, s.departureGeneration, s.requestedRevision)],
       current := Some(s.lookups), lookups := s.lookups + 1)
  }

  function Request(s: Access, requested: int, context: Option<Context>): Access {
    var latest := Max(s.requestedRevision, requested);
    var t := s.(context := if context.Some? && s.context.None? then context else s.context,
                requestRevision := s.requestRevision + if !s.inFlight || latest > s.requestedRevision then 1 else 0,
                requestedRevision := latest);
    if s.inFlight then t else Fetch(t)
  }

  predicate Fenced(s: Access) {
    s.reconciliationRequired || s.departure.Some?
  }

  // ----- Projections -----

  function MarkAuthorized(s: Access, revision: int): Access {
    if revision > s.revision then s.(revision := revision) else s
  }

  function DefinitiveRemoval(s: Access, revision: int): Effect {
    if s.removed.Some? && s.removed.value >= Max(revision, s.revision) && !s.quarantined then Effect(s, [])
    else Remove(Cancel(s), revision)
  }

  predicate Refused(s: Access, revision: int) {
    revision < s.revision || !Above(revision, s.removed)
  }

  function Accept(s: Access, revision: int): Effect {
    if Refused(s, revision) then Effect(s, [])
    else
      var raised := revision > s.revision && s.inFlight;
      Effect(s.(revision := revision,
                requestedRevision := if raised then Max(s.requestedRevision, revision) else s.requestedRevision,
                requestRevision := s.requestRevision + if raised then 1 else 0,
                removed := None),
             if s.quarantined then [] else [Accepted(revision)])
  }

  /** A group found in an authorized list. */
  function Listed(s: Access, revision: int): Effect {
    if s.departure.Some? && revision > s.departure.value.revision then
      Quarantine(s.(revision := Max(s.revision, revision)),
                 if s.context.Some? then s.context.value else s.departure.value.context)
    else if s.quarantined && !Fenced(s) && revision >= s.revision && Above(revision, s.removed) then
      var t := Cancel(s.(requestedRevision := Max(s.requestedRevision, revision), requestRevision := s.requestRevision + 1));
      Effect(t.(revision := revision, removed := None, quarantined := false, failed := false,
                reconciliationRequired := false, context := None),
             [Authorized(revision, s.context.Some? && s.context.value.selected)])
    else if s.quarantined then Effect(s, [])
    else Accept(s, revision)
  }

  /** Whether the list keeps showing the cached group when it does not take the new one. */
  predicate KeepsCached(s: Access, revision: int) {
    && !(s.departure.Some? && revision > s.departure.value.revision)
    && !s.quarantined
    && Refused(s, revision)
    && (s.removed.None? || s.removed.value == 0)
  }

  /** A cached group missing from an authoritative list. */
  function Absent(s: Access, cachedRevision: int): Effect {
    if !s.quarantined && s.removed.None? then Remove(s, cachedRevision) else Effect(s, [])
  }

  function MembershipChanged(s: Access, revision: int, deleted: bool, context: Context): Effect {
    var previous := Max(s.revision, context.projectionRevision);
    if revision <= previous then Effect(s, [])
    else
      var t := s.(revision := revision,
                  requestedRevision := if s.inFlight then Max(s.requestedRevision, revision) else s.requestedRevision,
                  requestRevision := s.requestRevision + if s.inFlight then 1 else 0);
      if deleted then
        var u := if t.departure.Some? && previous == t.departure.value.revision
                 then t.(departure := Some(t.departure.value.(removalObserved := true))) else t;
        Remove(Cancel(u), revision)
      else
        var q := Quarantine(t.(removed := if Above(revision, t.removed) then None else t.removed), context);
        Effect(Request(q.state, revision, None), q.outcomes)
  }

  function ConversationCreated(s: Access, context: Context): Access {
    Request(s, Max(0, s.revision), Some(context))
  }

  function QuarantineForVerification(s: Access, context: Context): Effect {
    if !s.quarantined then Quarantine(s, context)
    else Effect(if s.context.None? && context.selected then s.(context := Some(context)) else s, [])
  }

  function VerifyQuarantined(s: Access, context: Context): Effect {
    var q := QuarantineForVerification(s, context);
    Effect(if q.state.inFlight then q.state else Request(q.state, q.state.revision, Some(context)), q.outcomes)
  }

  function Retry(s: Access): Access {
    if (s.quarantined || Observed(s)) && !s.inFlight then Request(s, s.revision, None) else s
  }

  // ----- Departures -----

  function Depart(s: Access, projectionRevision: int, context: Context): Effect {
    if s.departure.Some? then Effect(s, [])
    else
      var revision := Max(s.revision, projectionRevision);
      var t := s.(revision := revision, departure := Some(Departure(s.departures, revision, context, false)),
                  departures := s.departures + 1, context := None);
      Effect(Cancel(t), [DeparturePending])
  }

  predicate Pending(s: Access, id: DepartureId) {
    s.departure.Some? && s.departure.value.id == id
  }

  /** The projection changed while the leave was under way: hide it, raise the fence and
      look the group up afresh. */
  function RaiseFence(s: Access): Access
    requires s.departure.Some?
  {
    var d := s.departure.value;
    var t := s.(quarantined := true, failed := false, context := Some(d.context),
                departureGeneration := s.departureGeneration + 1,
                fence := Some(Fence(s.departureGeneration + 1, d.revision)),
                reconciliationRequired := true, requestRevision := s.requestRevision + 1);
    Fetch(Cancel(t).(departure := None))
  }

  function DepartureSucceeded(s: Access, id: DepartureId): Effect {
    if !Pending(s, id) then Effect(s, [])
    else
      var d := s.departure.value;
      if d.removalObserved && s.removed.Some? then Effect(s.(departure := None), [DepartureFinished(false)])
      else if s.revision > d.revision then Effect(RaiseFence(s), [DepartureFinished(false)])
      else if s.revision == d.revision then
        var r := Remove(s, d.revision);
        Effect(r.state.(departure := None), [Removed(d.revision), DepartureFinished(false)])
      else Effect(s.(departure := None), [DepartureFinished(false)])
  }

  /** Give up what is under way and look the group up afresh, with the departure over. */
  function Restart(s: Access): Access {
    var t := Cancel(s);
    Fetch(t.(requestRevision := t.requestRevision + 1)).(departure := None)
  }

  function DepartureFailed(s: Access, id: DepartureId): Effect {
    if !Pending(s, id) then Effect(s, [])
    else if s.departure.value.removalObserved then Effect(s.(departure := None), [DepartureFinished(true)])
    else
      var q := Quarantine(s, s.departure.value.context);
      Effect(Restart(q.state), q.outcomes + [DepartureFinished(true)])
  }

  // ----- Lookups -----

  /** What a callback leaves behind, and whether the lookup must be repeated. */
  datatype Handled = Handled(state: Access, outcomes: seq<Outcome>, retry: bool)

  predicate BegunBeforeFence(s: Access, l: Lookup) {
    s.fence.Some? && l.departureGeneration < s.fence.value.generation
  }

  /** A response that no longer fits what the record asks for. */
  function Mismatched(s: Access, l: Lookup, sameGroup: bool, revision: int): Handled {
    var superseded := l.fetchRevision != s.requestRevision;
    var newer := sameGroup && revision > s.revision && superseded && Above(revision, s.removed);
    var raised := s.(revision := revision, quarantined := true, failed := false);
    var fencedOut := Fenced(raised) || (BegunBeforeFence(s, l) && revision > s.fence.value.revision);
    var t := if !newer then s
             else if fencedOut then raised
             else raised.(removed := None, quarantined := false);
    var granted := if newer && !fencedOut then [Authorized(revision, false)] else [];
    if superseded && t.departure.None? && !(t.removed.Some? && !t.quarantined) then Handled(t, granted, true)
    else if superseded then Handled(t, granted, false)
    else Handled(t.(failed := t.quarantined), [Retryable(t.quarantined)], false)
  }

  /** The first branch mirrors the source, though an answer that reaches this point cannot
      take it: a group that has moved on was handled before. */
  function Matched(s: Access, l: Lookup, revision: int): Handled {
    if s.departure.Some? && s.revision > s.departure.value.revision then
      Handled(s.(revision := revision, failed := false), [], false)
    else
      Handled(s.(revision := revision, removed := None, quarantined := false, failed := false,
                 reconciliationRequired :=
                   if s.fence.Some? && l.departureGeneration >= s.fence.value.generation then false
                   else s.reconciliationRequired,
                 context := None),
              [Authorized(revision, s.context.Some? && s.context.value.selected)], false)
  }

  function GroupFound(s: Access, l: Lookup, sameGroup: bool, revision: int): Handled {
    if s.departure.Some? && sameGroup && revision > s.departure.value.revision then
      var q := Quarantine(s.(revision := Max(s.revision, revision)),
                          if s.context.Some? then s.context.value else s.departure.value.context);
      Handled(q.state, q.outcomes, false)
    else if BegunBeforeFence(s, l) && sameGroup && revision > s.fence.value.revision then
      Handled(s.(revision := Max(s.revision, revision), quarantined := true, failed := false), [],
              l.fetchRevision != s.requestRevision)
    else if Observed(s) && s.removed.Some? then Handled(s.(departure := None), [DepartureFinished(false)], false)
    else if Observed(s) && !s.quarantined then
      var r := Remove(s, Max(l.target, s.revision));
      Handled(r.state, r.outcomes, false)
    else if !sameGroup || revision < Max(l.target, s.revision) || !Above(revision, s.removed) || l.fetchRevision != s.requestRevision
    then Mismatched(s, l, sameGroup, revision)
    else Matched(s, l, revision)
  }

  function LookupFailed(s: Access, l: Lookup, missing: bool): Handled {
    if l.fetchRevision != s.requestRevision then Handled(s, [], true)
    else
      var stuck := s.departure.Some? && s.revision > s.departure.value.revision && !s.departure.value.removalObserved;
      var q := if stuck then Quarantine(s, s.departure.value.context) else Effect(s, []);
      var t := if stuck then q.state.(failed := true, departure := None) else s;
      var told := if stuck then q.outcomes + [DepartureFinished(true)] else [];
      if missing then
        var r := Remove(t, Max(l.target, t.revision));
        Handled(r.state, told + r.outcomes, false)
      else
        Handled(t.(failed := if Observed(t) then true else t.quarantined), told + [Retryable(t.quarantined)], false)
  }

  /** A finished lookup clears the flag whichever lookup set it, and begins another one
      when it was superseded. */
  function Finish(s: Access, id: LookupId, retry: bool): Access {
    var t := s.(live := s.live - {id}, inFlight := false);
    if retry && !(t.removed.Some? && !t.quarantined) then Fetch(t)
    else if t.current == Some(id) then t.(current := None)
    else t
  }

  function Respond(s: Access, id: LookupId, answer: Answer): Effect {
    if id !in s.live then Effect(s, [])
    else
      var h := match answer
               case Found(sameGroup, revision) => GroupFound(s, s.live[id], sameGroup, revision)
               case Missing => LookupFailed(s, s.live[id], true)
               case Unavailable => LookupFailed(s, s.live[id], false);
      Effect(Finish(h.state, id, h.retry), h.outcomes)
  }

  // ----- Runs -----

  datatype Event =
    | OnMarkAuthorized(revision: int)
    | OnDefinitiveRemoval(revision: int)
    | OnAccept(revision: int)
    | OnListed(revision: int)
    | OnAbsent(cachedRevision: int)
    | OnMembershipChanged(revision: int, deleted: bool, context: Context)
    | OnConversationCreated(context: Context)
    | OnVerify(context: Context)
    | OnQuarantineForVerification(context: Context)
    | OnRetry
    | OnDepart(projectionRevision: int, context: Context)
    | OnDepartureSucceeded(id: DepartureId)
    | OnDepartureFailed(id: DepartureId)
    | OnAnswer(lookup: LookupId, answer: Answer)

  function Step(s: Access, e: Event): Effect {
    match e
    case OnMarkAuthorized(revision) => Effect(MarkAuthorized(s, revision), [])
    case OnDefinitiveRemoval(revision) => DefinitiveRemoval(s, revision)
    case OnAccept(revision) => Accept(s, revision)
    case OnListed(revision) => Listed(s, revision)
    case OnAbsent(cachedRevision) => Absent(s, cachedRevision)
    case OnMembershipChanged(revision, deleted, context) => MembershipChanged(s, revision, deleted, context)
    case OnConversationCreated(context) => Effect(ConversationCreated(s, context), [])
    case OnVerify(context) => VerifyQuarantined(s, context)
    case OnQuarantineForVerification(context) => QuarantineForVerification(s, context)
    case OnRetry => Effect(Retry(s), [])
    case OnDepart(projectionRevision, context) => Depart(s, projectionRevision, context)
    case OnDepartureSucceeded(id) => DepartureSucceeded(s, id)
    case OnDepartureFailed(id) => DepartureFailed(s, id)
    case OnAnswer(lookup, answer) => Respond(s, lookup, answer)
  }

  /** The record after a series of events, with everything announced on the way. */
  function Run(s: Access, events: seq<Event>): Effect
    decreases |events|
  {
    if events == [] then Effect(s, [])
    else
      var first := Step(s, events[0]);
      var rest := Run(first.state, events[1..]);
      Effect(rest.state, first.outcomes + rest.outcomes)
  }
}
