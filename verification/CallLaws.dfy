/** Who may start, answer and end a call, and what that leaves: laws of every reachable
    store, in terms of what is stored and who is connected. */
module CallLaws {
  import opened Options
  import opened CallStore
  import opened CallInvariant
  import opened RoomInvariant
  import opened CallRuns
  import opened CallHistory

  /** The store after a run. */
  function At(now: int, commands: seq<Command>): Store {
    Run(Initial(now), commands).store
  }

  function After(now: int, commands: seq<Command>, c: Command): Store {
    Step(Run(Initial(now), commands), c).store
  }

  lemma {:induction false} AtOk(now: int, commands: seq<Command>)
    ensures Inv(At(now, commands)) && Known(Run(Initial(now), commands))
  {
    hide Inv, Known, ClaimsOk, CallClaimsOk, AcceptancesOk, Later, Run;
    InitialGood(now);
    RunGood(Initial(now), commands);
  }

  // ----- Browsers that are gone -----

  predicate Missing(online: Presence, user: UserId, connection: ConnectionId) {
    connection != 0 && (user, connection) !in online
  }

  predicate Absent(online: Presence, user: UserId) {
    forall member <- online :: member.0 != user
  }

  /** A call that cannot go on: the caller's browser is gone, or the accepting one of an
      active call, or every browser of the user a call still rings for. */
  predicate Gone(c: Call, online: Presence) {
    || Missing(online, c.caller, c.callerEndpoint.connection)
    || (c.status == Active && c.accepted.Some? && Missing(online, c.recipient, c.accepted.value.connection))
    || (c.status == Ringing && Absent(online, c.recipient))
  }

  /** What ending a call leaves of it. */
  function Over(c: Call, now: int): Call {
    c.(status := Ended, until := now + 60_000)
  }

  // ----- Who may change a call -----

  predicate SameEndpoint(stored: Endpoint, given: Endpoint) {
    stored.device == given.device && (stored.connection == 0 || stored.connection == given.connection)
  }

  /** The commands that end a call rightfully. */
  predicate MayFinish(s: Store, id: CallId, c: Command)
    requires id in s.calls
  {
    var call := s.calls[id];
    match c
    case Decline(other, user) => other == id && user == call.recipient && call.status == Ringing
    case Cancel(other, user, endpoint) =>
      other == id && user == call.caller && SameEndpoint(call.callerEndpoint, endpoint) && call.status == Ringing
    case EndDirect(other, user, endpoint, online) =>
      && other == id
      && ((user == call.caller && SameEndpoint(call.callerEndpoint, endpoint))
          || (user == call.recipient && call.accepted.Some? && SameEndpoint(call.accepted.value, endpoint))
          || (user == call.recipient && call.status == Ringing && Absent(online, user)))
    case SweepCalls(ids) => id in ids && call.expiresAt <= s.now
    case StartDirect(_, _, _, _, _, _, online) => Gone(call, online)
    case _ => false
  }

  predicate MayAccept(s: Store, id: CallId, c: Command)
    requires id in s.calls
  {
    c.Accept? && c.call == id && c.user == s.calls[id].recipient && s.calls[id].status == Ringing && s.now < s.calls[id].expiresAt
  }

  function Taken(c: Call, endpoint: Endpoint, now: int): Call {
    c.(accepted := Some(endpoint), status := Active, expiresAt := now + 7_200_000, until := now + 7_200_000)
  }

  ghost predicate Rightful(s: Store, t: Store, c: Command) {
    forall id <- s.calls :: s.calls[id].status != Ended && id in t.calls && t.calls[id] != s.calls[id] ==>
      if MayAccept(s, id, c) then t.calls[id] == Taken(s.calls[id], c.endpoint, s.now)
      else MayFinish(s, id, c) && t.calls[id] == Over(s.calls[id], s.now)
  }

  lemma {:induction false} SweepFinishes(s: Store, ids: seq<CallId>)
    ensures var t := ExpireCalls(s, ids);
            t.now == s.now && t.calls.Keys == s.calls.Keys && forall id <- s.calls :: Swept(s, t, ids, id)
    decreases |ids|
  {
    if ids != [] {
      var t := ExpireCall(s, ids[0]);
      FinishesOne(s, ids[0]);
      SweepFinishes(t, ids[1..]);
      hide ExpireCall;
      var u := ExpireCalls(t, ids[1..]);
      forall id <- s.calls ensures Swept(s, u, ids, id) { assert Swept(t, u, ids[1..], id); }
    }
  }

  ghost predicate Swept(s: Store, t: Store, ids: seq<CallId>, id: CallId) {
    id in s.calls && id in t.calls && t.calls[id] == if id in ids then Over(s.calls[id], s.now) else s.calls[id]
  }

  lemma {:induction false} FinishesOne(s: Store, id: CallId)
    ensures var t := ExpireCall(s, id);
            && t.now == s.now && t.calls.Keys == s.calls.Keys
            && forall other <- s.calls :: t.calls[other] == if other == id then Over(s.calls[id], s.now) else s.calls[other]
  {
    hide CloseCall, Devices;
    if id in s.calls { ClosedCallIs(s, id, Devices(s.calls[id])); }
  }

  lemma ClosedCallIs(s: Store, id: CallId, devices: set<Participant>)
    requires id in s.calls
    ensures var t := CloseCall(s, id, devices); t.now == s.now && t.calls == s.calls[id := Over(s.calls[id], s.now)]
  {
    hide ReleaseAll;
  }

  /** Recovery touches one call at most, and only one that is gone. */
  lemma {:induction false} RecoveryIsRightful(s: Store, caller: UserId, recipient: UserId, online: Presence)
    requires Inv(s)
    ensures var r := Recovered(s, caller, recipient, online);
            && r.now == s.now && r.calls.Keys == s.calls.Keys
            && forall id <- s.calls :: r.calls[id] == s.calls[id] || (Gone(s.calls[id], online) && r.calls[id] == Over(s.calls[id], s.now))
  {
    hide ReleaseAll, RoomsInv, CallDevicesOk;
    var holder := if caller in s.callUsers then caller else recipient;
    if holder in s.callUsers {
      assert CallUserOk(s, holder);
      assert Stale(s.calls[s.callUsers[holder].id], online) ==> Gone(s.calls[s.callUsers[holder].id], online);
    }
  }

  lemma {:induction false} StartIsRightful(s: Store, c: Command, token: Token)
    requires Inv(s) && c.StartDirect? && c.call !in s.calls
    ensures Rightful(s, StartCall(s, c.call, c.conversation, c.caller, c.recipient, c.endpoint, token, c.online).store, c)
  {
    RecoveryIsRightful(s, c.caller, c.recipient, c.online);
    StartTouchesOne(s, c, token);
    hide StartCall, Recovered, Gone, Inv, Over;
  }

  /** A start writes no call but its own, apart from recovery. */
  lemma {:induction false} StartTouchesOne(s: Store, c: Command, token: Token)
    requires c.StartDirect?
    ensures var t := StartCall(s, c.call, c.conversation, c.caller, c.recipient, c.endpoint, token, c.online).store;
            var r := Recovered(s, c.caller, c.recipient, c.online);
            forall other :: other != c.call && other in t.calls ==>
              (other in r.calls && t.calls[other] == r.calls[other]) || (other in s.calls && t.calls[other] == s.calls[other])
  {
    hide Recovered, Admitted, Online;
  }

  lemma {:induction false} SweepIsRightful(s: Store, c: Command)
    requires Inv(s) && c.SweepCalls? && AllDue(s.callExpiry, s.now, c.ids)
    ensures Rightful(s, ExpireCalls(s, c.ids), c)
  {
    SweepFinishes(s, c.ids);
    hide ExpireCalls, RoomsInv, Exclusive, CallUsersOk, CallDevicesOk, Over;
    var t := ExpireCalls(s, c.ids);
    forall id <- s.calls | s.calls[id].status != Ended && t.calls[id] != s.calls[id]
      ensures MayFinish(s, id, c) && t.calls[id] == Over(s.calls[id], s.now) && !MayAccept(s, id, c)
    {
      assert Swept(s, t, c.ids, id);
      assert CallOk(s, id);
    }
  }

  /** Over every run: a call that has not ended changes only when its recipient accepts it in
      time, its recipient or caller ends it from the right browser, it is due, or a start
      finds its browsers gone; accepting and ending leave exactly the fields they should. */
  lemma {:induction false} OnlyTheRightfulChangeACall(now: int, commands: seq<Command>, c: Command)
    ensures Rightful(At(now, commands), After(now, commands, c), c)
  {
    AtOk(now, commands);
    var w := Run(Initial(now), commands);
    hide Run;
    StepIsRightful(w, c);
  }

  lemma {:induction false} StepIsRightful(w: World, c: Command)
    requires Inv(w.store) && Known(w)
    ensures Rightful(w.store, Step(w, c).store, c)
  {
    if RoomCommand(c) {
      RoomCommandLeavesCalls(w, c);
      hide Step, Inv;
    } else if c.StartDirect? {
      if c.call !in w.usedCalls { StartIsRightful(w.store, c, c.token); }
      hide StartCall, Inv, Gone;
    } else if c.SweepCalls? {
      if AllDue(w.store.callExpiry, w.store.now, c.ids) { SweepIsRightful(w.store, c); }
      hide ExpireCalls, Inv, AllDue;
    } else if c.Wait? || c.Acquire? || c.GiveBack? {
      hide Inv, ReleaseAll, Live;
    } else {
      AnswerIsRightful(w, c);
      hide Step, Inv;
    }
  }

  lemma {:induction false} AnswerIsRightful(w: World, c: Command)
    requires c.Accept? || c.Decline? || c.Cancel? || c.EndDirect?
    requires Inv(w.store)
    ensures Rightful(w.store, Step(w, c).store, c)
  {
    hide ReleaseAll, RoomsInv, CallUsersOk, CallDevicesOk, Exclusive;
    if c.call in w.store.calls { assert CallOk(w.store, c.call); }
  }

  // ----- Who succeeds -----

  /** The recipient of a call that still rings, and nobody else, accepts it. */
  lemma {:induction false} AcceptSucceedsExactly(now: int, commands: seq<Command>, id: CallId, user: UserId, endpoint: Endpoint)
    ensures var s := At(now, commands);
            var e := AcceptCall(s, id, user, endpoint);
            && (e.reply == Done <==> id in s.calls && MayAccept(s, id, Accept(id, user, endpoint)))
            && (e.reply == Done ==> id in e.store.calls && e.store.calls[id] == Taken(s.calls[id], endpoint, s.now))
  {
    hide At;
  }

  /** The recipient declines, and the caller's browser cancels, a call that rings; either
      side's browser ends one that has not ended, and a recipient without any browser left
      one that rings. */
  lemma {:induction false} FinishSucceedsExactly(now: int, commands: seq<Command>, id: CallId, c: Command)
    requires (c.Decline? || c.Cancel? || c.EndDirect?) && c.call == id
    ensures var s := At(now, commands);
            var e := FinishReply(s, c);
            && (e.reply == Done <==> id in s.calls && s.calls[id].status != Ended && MayFinish(s, id, c))
            && (e.reply == Done ==> id in e.store.calls && e.store.calls[id] == Over(s.calls[id], s.now))
            && After(now, commands, c) == e.store
  {
    AtOk(now, commands);
    hide Run, ReleaseAll, Devices, RoomsInv, CallUsersOk, CallDevicesOk, Exclusive;
    var s := At(now, commands);
    if id in s.calls { assert CallOk(s, id); }
  }

  function FinishReply(s: Store, c: Command): Effect
    requires c.Decline? || c.Cancel? || c.EndDirect?
  {
    match c
    case Decline(id, user) => DeclineCall(s, id, user)
    case Cancel(id, user, endpoint) => CancelCall(s, id, user, endpoint)
    case EndDirect(id, user, endpoint, online) => EndCall(s, id, user, endpoint, online)
  }

  /** The keys of a user name no call, or one that is gone. */
  predicate Reclaimable(s: Store, user: UserId, online: Presence) {
    user in s.callUsers ==> s.callUsers[user].id in s.calls && Gone(s.calls[s.callUsers[user].id], online)
  }

  /** What the admission and the group rooms of both users must say before a call starts. */
  predicate Unengaged(s: Store, caller: UserId, recipient: UserId, token: Token) {
    && token != 0
    && caller in s.admissions && s.admissions[caller].id == token && recipient in s.admissions && s.admissions[recipient].id == token
    && caller !in s.roomUsers && recipient !in s.roomUsers
  }

  predicate OneHolder(s: Store, caller: UserId, recipient: UserId) {
    caller in s.callUsers && recipient in s.callUsers ==> s.callUsers[caller].id == s.callUsers[recipient].id
  }

  lemma {:induction false} RecoveryFrees(s: Store, caller: UserId, recipient: UserId, online: Presence)
    requires Inv(s)
    ensures var r := Recovered(s, caller, recipient, online);
            && r.now == s.now
            && (caller !in r.callUsers && recipient !in r.callUsers <==>
                  Reclaimable(s, caller, online) && Reclaimable(s, recipient, online) && OneHolder(s, caller, recipient))
  {
    hide RoomsInv, CallDevicesOk, CallsOk;
    var holder := if caller in s.callUsers then caller else recipient;
    if holder in s.callUsers {
      assert CallUserOk(s, holder);
      var call := s.calls[s.callUsers[holder].id];
      assert Stale(call, online) <==> Gone(call, online) by { StaleIsGone(call, online); }
      if caller in s.callUsers { assert CallUserOk(s, caller); }
      if recipient in s.callUsers { assert CallUserOk(s, recipient); }
      hide Stale, Gone;
    }
  }

  lemma StaleIsGone(c: Call, online: Presence)
    requires c.status != Ended
    ensures Stale(c, online) <==> Gone(c, online)
  {
  }

  /** A start succeeds exactly when both users are admitted together, in no room, in no call
      but one that is gone, and some browser of the recipient is there; the new call rings
      for thirty seconds. */
  lemma {:induction false} StartSucceedsExactly(now: int, commands: seq<Command>, id: CallId, conversation: ConversationId,
                                                caller: UserId, recipient: UserId, endpoint: Endpoint, token: Token, online: Presence)
    ensures var s := At(now, commands);
            var e := StartCall(s, id, conversation, caller, recipient, endpoint, token, online);
            && (e.reply == Done <==>
                  && Unengaged(s, caller, recipient, token) && !Absent(online, recipient)
                  && Reclaimable(s, caller, online) && Reclaimable(s, recipient, online) && OneHolder(s, caller, recipient))
            && (e.reply == Done ==>
                  && id in e.store.calls
                  && e.store.calls[id] == Call(conversation, caller, recipient, endpoint, None, Ringing, s.now + 30_000, s.now + 60_000))
            && (token != 0 && (!Reclaimable(s, caller, online) || !Reclaimable(s, recipient, online)) ==> e.reply == Busy)
  {
    AtOk(now, commands);
    hide Run;
    RecoveryFrees(At(now, commands), caller, recipient, online);
    hide At, Inv, Recovered, Gone;
  }

  /** A live call survives every start, and one that holds a key of either user keeps the new
      one from starting. */
  lemma {:induction false} LiveCallsSurviveAStart(now: int, commands: seq<Command>, c: Command, other: CallId)
    requires c.StartDirect?
    requires other in At(now, commands).calls && At(now, commands).calls[other].status != Ended
    requires !Gone(At(now, commands).calls[other], c.online)
    ensures var s, t := At(now, commands), After(now, commands, c);
            && other in t.calls && t.calls[other] == s.calls[other]
            && (forall u <- {c.caller, c.recipient} :: u in s.callUsers && s.callUsers[u].id == other && c.token != 0 ==>
                  StartCall(s, c.call, c.conversation, c.caller, c.recipient, c.endpoint, c.token, c.online).reply == Busy)
  {
    OnlyTheRightfulChangeACall(now, commands, c);
    StartSucceedsExactly(now, commands, c.call, c.conversation, c.caller, c.recipient, c.endpoint, c.token, c.online);
    AtOk(now, commands);
    StartKeepsRecords(Run(Initial(now), commands), c, other);
    hide Run, Inv, StartCall, Gone, Step;
  }

  lemma {:induction false} StartKeepsRecords(w: World, c: Command, other: CallId)
    requires c.StartDirect? && other in w.store.calls && Inv(w.store)
    ensures other in Step(w, c).store.calls
  {
    RecoveryKeepsRecords(w.store, c, other);
    StoreKeepsRecords(w.store, c, other);
    hide StartCall, Recovered, Inv;
  }

  lemma RecoveryKeepsRecords(s: Store, c: Command, other: CallId)
    requires c.StartDirect? && other in s.calls && Inv(s)
    ensures other in Recovered(s, c.caller, c.recipient, c.online).calls
  {
    RecoveryIsRightful(s, c.caller, c.recipient, c.online);
    hide Inv, Gone, Over, Recovered;
  }

  lemma {:induction false} StoreKeepsRecords(s: Store, c: Command, other: CallId)
    requires c.StartDirect? && other in s.calls && other in Recovered(s, c.caller, c.recipient, c.online).calls
    ensures other in StartCall(s, c.call, c.conversation, c.caller, c.recipient, c.endpoint, c.token, c.online).store.calls
  {
    RingKeepsRecords(Recovered(s, c.caller, c.recipient, c.online), c, other);
    hide Recovered, RingCall, Admitted, Online;
  }

  lemma RingKeepsRecords(s: Store, c: Command, other: CallId)
    requires c.StartDirect? && other in s.calls
    ensures other in RingCall(s, c.call, c.conversation, c.caller, c.recipient, c.endpoint).calls
  {
  }

  /** Admission: all the users of a request get the token for two seconds, or none does. */
  lemma {:induction false} AdmissionIsExact(s: Store, users: seq<UserId>, token: Token)
    ensures var e := AcquireAdmission(s, users, token);
            && (e.reply == Done <==> users != [] && 0 !in users && forall u <- users :: u !in s.admissions)
            && (e.reply == Done ==> forall u :: if u in users then u in e.store.admissions && e.store.admissions[u] == Hold(token, s.now + 2_000)
                                                 else if u in s.admissions then u in e.store.admissions && e.store.admissions[u] == s.admissions[u]
                                                 else u !in e.store.admissions)
            && (e.reply != Done ==> e.store == s)
    ensures token != 0 ==>
              forall u :: u in ReleaseAdmission(s, users, token).store.admissions <==>
                            u in s.admissions && !(u in users && s.admissions[u].id == token)
  {
  }

  /** In any store, also one that no run reaches: a key that names a call whose record is lost
      is given back, with the other user's key of that call. */
  lemma {:induction false} LostCallFreesItsKeys(s: Store, caller: UserId, recipient: UserId, online: Presence)
    requires caller in s.callUsers && s.callUsers[caller].id !in s.calls
    ensures var r := Recovered(s, caller, recipient, online);
            && r.calls == s.calls && caller !in r.callUsers
            && (forall u <- s.callUsers :: u in r.callUsers <==> !(u in {caller, recipient} && s.callUsers[u].id == s.callUsers[caller].id))
  {
  }
}
