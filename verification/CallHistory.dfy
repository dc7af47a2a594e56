/** How the stored calls and rooms may change over a run, and what follows for every run. */
module CallHistory {
  import opened Options
  import opened CallStore
  import opened CallInvariant
  import opened RoomInvariant
  import opened CallRuns

  function Rank(s: Status): nat {
    match s
    case Ringing => 0
    case Active => 1
    case Ended => 2
  }

  ghost predicate CallEvolves(a: Call, b: Call) {
    && a.(accepted := b.accepted, status := b.status, expiresAt := b.expiresAt, until := b.until) == b
    && Rank(a.status) <= Rank(b.status)
    && (a.accepted.Some? ==> b.accepted == a.accepted)
    && (a.status != Ringing ==> b.accepted == a.accepted)
  }

  /** A room's revision moves with every change of its content. */
  ghost predicate RoomEvolves(a: Room, b: Room) {
    && a.conversation == b.conversation && a.membershipRevision == b.membershipRevision && a.generation == b.generation
    && a.stateRevision <= b.stateRevision
    && (a.stateRevision == b.stateRevision ==> a == b)
    && Rank(a.status) <= Rank(b.status)
  }

  /** Nothing reappears: what is stored later and was known earlier was stored earlier. */
  ghost predicate Later(w: World, x: World) {
    && w.store.now <= x.store.now
    && w.usedCalls <= x.usedCalls && w.usedRooms <= x.usedRooms
    && (forall id <- x.store.calls :: id in w.usedCalls ==> id in w.store.calls && CallEvolves(w.store.calls[id], x.store.calls[id]))
    && (forall id <- x.store.rooms :: id in w.usedRooms ==> id in w.store.rooms && RoomEvolves(w.store.rooms[id], x.store.rooms[id]))
  }

  // ----- One step -----

  /** The stored records of `t` are those of `s`, evolved. */
  ghost predicate Evolves(s: Store, t: Store) {
    && s.now <= t.now
    && (forall id <- t.calls :: id in s.calls && CallEvolves(s.calls[id], t.calls[id]))
    && (forall id <- t.rooms :: id in s.rooms && RoomEvolves(s.rooms[id], t.rooms[id]))
  }

  lemma {:induction false} EvolvesChain(s: Store, t: Store, u: Store)
    requires Evolves(s, t) && Evolves(t, u)
    ensures Evolves(s, u)
  {
    forall id <- u.calls ensures id in s.calls && CallEvolves(s.calls[id], u.calls[id]) {
      assert id in t.calls;
    }
    forall id <- u.rooms ensures id in s.rooms && RoomEvolves(s.rooms[id], u.rooms[id]) {
      assert id in t.rooms;
    }
  }

  lemma {:induction false} RecordsEvolve(s: Store)
    ensures forall id <- s.calls :: CallEvolves(s.calls[id], s.calls[id])
    ensures forall id <- s.rooms :: RoomEvolves(s.rooms[id], s.rooms[id])
  {
  }

  lemma {:induction false} SameEvolves(s: Store, t: Store)
    requires t.now == s.now && t.calls == s.calls && t.rooms == s.rooms
    ensures Evolves(s, t)
  {
  }

  lemma {:induction false} CallUpdateEvolves(s: Store, id: CallId, call: Call, t: Store)
    requires id in s.calls && CallEvolves(s.calls[id], call)
    requires t.now == s.now && t.calls == s.calls[id := call] && t.rooms == s.rooms
    ensures Evolves(s, t)
  {
    SameEvolves(s, s);
    hide CallEvolves, RoomEvolves;
  }

  lemma {:induction false} RoomUpdateEvolves(s: Store, id: RoomId, room: Room, t: Store)
    requires id in s.rooms && RoomEvolves(s.rooms[id], room)
    requires t.now == s.now && t.calls == s.calls && t.rooms == s.rooms[id := room]
    ensures Evolves(s, t)
  {
    SameEvolves(s, s);
    hide CallEvolves, RoomEvolves;
  }

  lemma {:induction false} CloseCallEvolves(s: Store, id: CallId, devices: set<Participant>)
    requires id in s.calls
    ensures Evolves(s, CloseCall(s, id, devices))
  {
    hide ReleaseAll, Evolves;
    var t := CloseCall(s, id, devices);
    CallUpdateEvolves(s, id, t.calls[id], t);
  }

  lemma {:induction false} CloseRoomEvolves(s: Store, id: RoomId, released: set<UserId>, keepRoster: bool, keepPresenter: bool)
    requires id in s.rooms
    ensures Evolves(s, CloseRoom(s, id, released, keepRoster, keepPresenter))
  {
    hide ReleaseAll, Release, Evolves;
    var t := CloseRoom(s, id, released, keepRoster, keepPresenter);
    RoomUpdateEvolves(s, id, t.rooms[id], t);
  }

  lemma {:induction false} StartCallEvolves(s: Store, id: CallId, conversation: ConversationId, caller: UserId, recipient: UserId,
                                            endpoint: Endpoint, token: Token, online: Presence)
    ensures var t := StartCall(s, id, conversation, caller, recipient, endpoint, token, online).store;
            && s.now <= t.now && t.rooms == s.rooms
            && (forall other <- t.calls :: other != id ==> other in s.calls && CallEvolves(s.calls[other], t.calls[other]))
  {
    hide Recovered, Online, Admitted, CallEvolves, RoomEvolves;
    RecoveredEvolves(s, caller, recipient, online);
    SameEvolves(s, s);
  }

  lemma {:induction false} RecoveredEvolves(s: Store, caller: UserId, recipient: UserId, online: Presence)
    ensures var r := Recovered(s, caller, recipient, online);
            Evolves(s, r) && r.rooms == s.rooms && r.now == s.now
  {
    hide Stale, ReleaseAll, CloseCall;
    var holder := if caller in s.callUsers then caller else recipient;
    if holder in s.callUsers && s.callUsers[holder].id in s.calls {
      var id := s.callUsers[holder].id;
      CloseCallEvolves(s, id, Devices(s.calls[id]));
      CloseCallKeepsRooms(s, id, Devices(s.calls[id]));
    }
  }

  lemma CloseCallKeepsRooms(s: Store, id: CallId, devices: set<Participant>)
    requires id in s.calls
    ensures CloseCall(s, id, devices).rooms == s.rooms && CloseCall(s, id, devices).now == s.now
  {
  }

  lemma {:induction false} ExpireCallsEvolves(s: Store, ids: seq<CallId>)
    ensures Evolves(s, ExpireCalls(s, ids))
    decreases |ids|
  {
    hide Devices, CloseCall;
    if ids != [] {
      var t := ExpireCall(s, ids[0]);
      if ids[0] in s.calls {
        CloseCallEvolves(s, ids[0], Devices(s.calls[ids[0]]));
      }
      ExpireCallsEvolves(t, ids[1..]);
      EvolvesChain(s, t, ExpireCalls(t, ids[1..]));
    }
  }

  lemma {:induction false} ExpireRoomsEvolves(s: Store, ids: seq<RoomId>)
    ensures Evolves(s, ExpireRooms(s, ids).store)
    decreases |ids|
  {
    hide Users, CloseRoom, Expired;
    if ids != [] {
      var t := ExpireRoom(s, ids[0]);
      if Expired(s, ids[0]) {
        ExpiredIsStored(s, ids[0]);
        CloseRoomEvolves(s, ids[0], Users(s.rooms[ids[0]].participants), true, false);
      }
      ExpireRoomsEvolves(t, ids[1..]);
      EvolvesChain(s, t, ExpireRooms(t, ids[1..]).store);
    }
  }

  lemma ExpiredIsStored(s: Store, id: RoomId)
    requires Expired(s, id)
    ensures id in s.rooms
  {
  }

  lemma {:induction false} AcceptCallEvolves(s: Store, id: CallId, user: UserId, endpoint: Endpoint)
    requires CallsOk(s)
    ensures Evolves(s, AcceptCall(s, id, user, endpoint).store)
  {
    hide Evolves;
    var t := AcceptCall(s, id, user, endpoint).store;
    SameEvolves(s, s);
    if AcceptCall(s, id, user, endpoint).reply == Done {
      assert CallOk(s, id);
      CallUpdateEvolves(s, id, t.calls[id], t);
    }
  }

  lemma {:induction false} CallCommandEvolves(w: World, c: Command)
    requires CallsOk(w.store)
    requires c.Accept? || c.Decline? || c.Cancel? || c.EndDirect? || c.SweepCalls?
    ensures Evolves(w.store, Step(w, c).store) && Step(w, c).usedCalls == w.usedCalls && Step(w, c).usedRooms == w.usedRooms
  {
    hide CloseCall, Devices, AcceptCall, ExpireCalls, DueBatch, MayEnd, IsEndpoint, Evolves, CallsOk;
    var s := w.store;
    SameEvolves(s, s);
    match c
    case Accept(id, user, endpoint) => AcceptCallEvolves(s, id, user, endpoint);
    case Decline(id, user) =>
      if id in s.calls { CloseCallEvolves(s, id, {CallerDevice(s.calls[id])}); }
    case Cancel(id, user, endpoint) =>
      if id in s.calls { CloseCallEvolves(s, id, {CallerDevice(s.calls[id])}); }
    case EndDirect(id, user, endpoint, online) =>
      if id in s.calls { CloseCallEvolves(s, id, Devices(s.calls[id])); }
    case SweepCalls(ids) => ExpireCallsEvolves(s, ids);
  }

  lemma {:induction false} JoinRoomEvolves(s: Store, id: RoomId, socket: Socket, membershipRevision: int, token: Token)
    ensures Evolves(s, JoinRoom(s, id, socket, membershipRevision, token).store)
  {
    hide Evolves, Admitted, Renew, Users;
    var t := JoinRoom(s, id, socket, membershipRevision, token).store;
    SameEvolves(s, s);
    if JoinRoom(s, id, socket, membershipRevision, token).reply == Done {
      RoomUpdateEvolves(s, id, t.rooms[id], t);
    }
  }

  lemma {:induction false} LastLeaveEvolves(s: Store, id: RoomId, presenter: Option<Participant>, user: UserId)
    requires id in s.rooms
    ensures Evolves(s, CloseRoom(s.(rooms := s.rooms[id := s.rooms[id].(presenter := presenter)]), id, {user}, false, true))
  {
    hide Evolves, ReleaseAll, Release;
    var room := s.rooms[id].(presenter := presenter);
    var t := CloseRoom(s.(rooms := s.rooms[id := room]), id, {user}, false, true);
    RoomUpdateEvolves(s, id, ClosedRoom(room, s.now, false, true), t);
  }

  lemma {:induction false} LeaveRoomEvolves(s: Store, id: RoomId, socket: Socket)
    ensures Evolves(s, LeaveRoom(s, id, socket).store)
  {
    hide Evolves, ReleaseAll, Without, KeptSockets, CloseRoom;
    var t := LeaveRoom(s, id, socket).store;
    SameEvolves(s, s);
    if LeaveRoom(s, id, socket).reply == Done {
      if Without(s.rooms[id].participants, socket.participant) == [] {
        LastLeaveEvolves(s, id, if s.rooms[id].presenter == Some(socket.participant) then None else s.rooms[id].presenter,
                         socket.participant.user);
      } else {
        RoomUpdateEvolves(s, id, t.rooms[id], t);
      }
    }
  }

  lemma {:induction false} SetPresenterEvolves(s: Store, id: RoomId, socket: Socket, presenting: bool)
    ensures Evolves(s, SetPresenter(s, id, socket, presenting).store)
  {
    hide Evolves;
    var t := SetPresenter(s, id, socket, presenting).store;
    SameEvolves(s, s);
    if SetPresenter(s, id, socket, presenting).reply == Done {
      RoomUpdateEvolves(s, id, t.rooms[id], t);
    }
  }

  lemma {:induction false} MembershipEvolves(s: Store, id: RoomId, conversation: ConversationId, generation: int,
                                             stateRevision: int, membershipRevision: int)
    ensures Evolves(s, EndRoomForMembership(s, id, conversation, generation, stateRevision, membershipRevision).store)
  {
    hide Evolves, CloseRoom, Users;
    var e := EndRoomForMembership(s, id, conversation, generation, stateRevision, membershipRevision);
    SameEvolves(s, s);
    if e.reply == Done {
      var closed := CloseRoom(s, id, Users(s.rooms[id].participants), false, true);
      CloseRoomEvolves(s, id, Users(s.rooms[id].participants), false, true);
      SameEvolves(closed, e.store);
      EvolvesChain(s, closed, e.store);
    }
  }

  lemma {:induction false} RoomCommandEvolves(w: World, c: Command)
    requires c.Join? || c.Leave? || c.EndGroup? || c.Present? || c.MembershipChanged? || c.Abort? || c.SweepRooms?
    ensures Evolves(w.store, Step(w, c).store) && Step(w, c).usedCalls == w.usedCalls && Step(w, c).usedRooms == w.usedRooms
  {
    hide CloseRoom, Users, JoinRoom, LeaveRoom, SetPresenter, EndRoomForMembership, ExpireRooms, DueBatch, Evolves;
    var s := w.store;
    SameEvolves(s, s);
    match c
    case Join(id, socket, membershipRevision, token) => JoinRoomEvolves(s, id, socket, membershipRevision, token);
    case Leave(id, socket) => LeaveRoomEvolves(s, id, socket);
    case EndGroup(id, socket) =>
      if id in s.rooms { CloseRoomEvolves(s, id, Users(s.rooms[id].participants), false, true); }
    case Present(id, socket, presenting) => SetPresenterEvolves(s, id, socket, presenting);
    case MembershipChanged(id, conversation, generation, stateRevision, membershipRevision) =>
      MembershipEvolves(s, id, conversation, generation, stateRevision, membershipRevision);
    case Abort(id, generation, socket) =>
      if id in s.rooms { CloseRoomEvolves(s, id, Users(s.rooms[id].participants), false, false); }
    case SweepRooms(ids, limit) => ExpireRoomsEvolves(s, ids);
  }

  lemma {:induction false} EvolvesIsLater(w: World, x: World)
    requires Known(w) && Evolves(w.store, x.store)
    requires x.usedCalls == w.usedCalls && x.usedRooms == w.usedRooms
    ensures Later(w, x) && Known(x)
  {
    hide CallEvolves, RoomEvolves;
  }

  lemma {:induction false} StartDirectLater(w: World, c: Command)
    requires Known(w) && c.StartDirect?
    ensures Later(w, Step(w, c)) && Known(Step(w, c))
  {
    hide StartCall, CallEvolves;
    StartCallEvolves(w.store, c.call, c.conversation, c.caller, c.recipient, c.endpoint, c.token, c.online);
    RecordsEvolve(w.store);
  }

  lemma {:induction false} StartGroupLater(w: World, c: Command)
    requires Known(w) && c.StartGroup?
    ensures Later(w, Step(w, c)) && Known(Step(w, c))
  {
    hide StartRoom, CallEvolves, RoomEvolves;
    StartRoomEvolves(w.store, c.room, c.conversation, c.membershipRevision, c.generation, c.socket, c.token);
    RecordsEvolve(w.store);
  }

  lemma {:induction false} OpenRoomAdds(s: Store, id: RoomId, conversation: ConversationId, membershipRevision: int,
                                        generation: int, socket: Socket)
    ensures var t := OpenRoom(s, id, conversation, membershipRevision, generation, socket);
            t.now == s.now && t.calls == s.calls && id in t.rooms && t.rooms == s.rooms[id := t.rooms[id]]
  {
  }

  lemma {:induction false} StartRoomEvolves(s: Store, id: RoomId, conversation: ConversationId, membershipRevision: int,
                                            generation: int, socket: Socket, token: Token)
    ensures var t := StartRoom(s, id, conversation, membershipRevision, generation, socket, token).store;
            && t.now == s.now && t.calls == s.calls
            && (t.rooms == s.rooms || (id in t.rooms && t.rooms == s.rooms[id := t.rooms[id]]))
  {
    hide Admitted, OpenRoom;
    OpenRoomAdds(s, id, conversation, membershipRevision, generation, socket);
  }

  lemma {:induction false} StepLater(w: World, c: Command)
    requires Known(w) && CallsOk(w.store)
    ensures Later(w, Step(w, c)) && Known(Step(w, c))
  {
    hide Later, Known, Evolves, Step, CallsOk;
    if c.StartDirect? {
      StartDirectLater(w, c);
    } else if c.StartGroup? {
      StartGroupLater(w, c);
    } else {
      if c.Accept? || c.Decline? || c.Cancel? || c.EndDirect? || c.SweepCalls? {
        CallCommandEvolves(w, c);
      } else if c.Wait? || c.Acquire? || c.GiveBack? {
        ClockCommandEvolves(w, c);
      } else {
        RoomCommandEvolves(w, c);
      }
      EvolvesIsLater(w, Step(w, c));
    }
  }

  lemma {:induction false} TickEvolves(s: Store, now: int)
    ensures Evolves(s, Tick(s, now))
  {
    hide Live, CallEvolves, RoomEvolves;
    RecordsEvolve(s);
  }

  lemma {:induction false} ClockCommandEvolves(w: World, c: Command)
    requires c.Wait? || c.Acquire? || c.GiveBack?
    ensures Evolves(w.store, Step(w, c).store) && Step(w, c).usedCalls == w.usedCalls && Step(w, c).usedRooms == w.usedRooms
  {
    hide Tick, ReleaseAll, Evolves;
    if c.Wait? {
      TickEvolves(w.store, c.until);
    } else {
      SameEvolves(w.store, Step(w, c).store);
    }
  }

  lemma {:induction false} LaterChain(w: World, x: World, y: World)
    requires Known(w) && Known(x) && Later(w, x) && Later(x, y)
    ensures Later(w, y)
  {
    forall id <- y.store.calls | id in w.usedCalls ensures id in w.store.calls && CallEvolves(w.store.calls[id], y.store.calls[id]) {
      assert id in x.store.calls;
    }
    forall id <- y.store.rooms | id in w.usedRooms ensures id in w.store.rooms && RoomEvolves(w.store.rooms[id], y.store.rooms[id]) {
      assert id in x.store.rooms;
    }
  }

  // ----- Acceptances and claims -----

  ghost predicate Distinct<T>(q: seq<T>) {
    forall i, j :: 0 <= i < j < |q| ==> q[i] != q[j]
  }

  /** A claimed room has ended for good. */
  ghost predicate ClaimsOk(w: World) {
    && Distinct(w.claims)
    && (forall id <- w.claims :: id in w.usedRooms && (id in w.store.rooms ==> w.store.rooms[id].status == Ended))
  }

  /** A call that was accepted no longer rings. */
  ghost predicate AcceptancesOk(w: World) {
    && (forall i, j :: 0 <= i < j < |w.acceptances| ==> w.acceptances[i].call != w.acceptances[j].call)
    && (forall a <- w.acceptances :: a.call in w.usedCalls && (a.call in w.store.calls ==>
          w.store.calls[a.call].status != Ringing && w.store.calls[a.call].accepted == Some(a.endpoint)))
  }

  lemma {:induction false} LaterClaims(w: World, x: World)
    requires Later(w, x) && ClaimsOk(w) && x.claims == w.claims
    ensures ClaimsOk(x)
  {
    hide CallEvolves;
  }

  lemma {:induction false} LaterAcceptances(w: World, x: World)
    requires Later(w, x) && AcceptancesOk(w) && x.acceptances == w.acceptances
    ensures AcceptancesOk(x)
  {
    hide RoomEvolves;
  }

  lemma {:induction false} AcceptLogged(w: World, c: Command)
    requires Known(w) && CallsOk(w.store) && AcceptancesOk(w) && c.Accept?
    ensures AcceptancesOk(Step(w, c))
  {
    hide RoomEvolves, CallEvolves;
    var x := Step(w, c);
    StepLater(w, c);
    LaterAcceptances(w, x.(acceptances := w.acceptances));
  }

  /** Exactly the expired rooms of the batch are claimed, once each, and they end. */
  lemma {:induction false} SweepClaims(s: Store, ids: seq<RoomId>)
    ensures var r := ExpireRooms(s, ids);
            && Distinct(r.claimed)
            && (forall id :: id in r.claimed <==> id in ids && Expired(s, id))
            && (forall id :: Expired(r.store, id) <==> id !in ids && Expired(s, id))
            && (forall id <- r.claimed :: id in r.store.rooms && r.store.rooms[id].status == Ended)
            && r.store.rooms.Keys == s.rooms.Keys
    decreases |ids|
  {
    if ids != [] {
      var t := ExpireRoom(s, ids[0]);
      ExpireOne(s, ids[0]);
      SweepClaims(t, ids[1..]);
      ExpireRoomsEvolves(t, ids[1..]);
      hide ExpireRoom, Expired;
      assert forall id :: id in ids <==> id == ids[0] || id in ids[1..];
    }
  }

  lemma {:induction false} ExpireOne(s: Store, id: RoomId)
    ensures var t := ExpireRoom(s, id);
            && (forall other :: Expired(t, other) <==> other != id && Expired(s, other))
            && (Expired(s, id) ==> id in t.rooms && t.rooms[id].status == Ended)
            && t.rooms.Keys == s.rooms.Keys
  {
    if Expired(s, id) {
      var room := ClosedRoom(s.rooms[id], s.now, true, false);
      assert ExpireRoom(s, id).rooms == s.rooms[id := room] && ExpireRoom(s, id).now == s.now by {
        hide ReleaseAll, Release, Users, ClosedRoom;
      }
      assert room.status == Ended;
      hide ExpireRoom, ClosedRoom;
    }
  }

  lemma {:induction false} SweepLogged(w: World, c: Command)
    requires Known(w) && CallsOk(w.store) && ClaimsOk(w) && c.SweepRooms?
    ensures ClaimsOk(Step(w, c))
  {
    var x := Step(w, c);
    StepLater(w, c);
    if DueBatch(w.store.roomExpiry, w.store.now, c.ids, c.limit) {
      SweepClaims(w.store, c.ids);
      LaterClaims(w, x.(claims := w.claims));
      hide ExpireRooms, Later, DueBatch, CallsOk, ClaimsOk;
      var claimed := ExpireRooms(w.store, c.ids).claimed;
      forall id <- claimed ensures id in x.usedRooms && id !in w.claims && id in x.store.rooms && x.store.rooms[id].status == Ended {
        assert Expired(w.store, id);
      }
      AppendClaims(x, w.claims, claimed);
    }
  }

  lemma {:induction false} AppendDistinct(a: seq<nat>, b: seq<nat>)
    requires Distinct(a) && Distinct(b) && forall x <- b :: x !in a
    ensures Distinct(a + b)
  {
    forall i, j | 0 <= i < j < |a + b| ensures (a + b)[i] != (a + b)[j] {
      if i < |a| <= j {
        assert b[j - |a|] in b;
      }
    }
  }

  lemma {:induction false} AppendClaims(x: World, earlier: seq<RoomId>, claimed: seq<RoomId>)
    requires ClaimsOk(x.(claims := earlier)) && Distinct(claimed) && x.claims == earlier + claimed
    requires forall id <- claimed :: id in x.usedRooms && id !in earlier && id in x.store.rooms && x.store.rooms[id].status == Ended
    ensures ClaimsOk(x)
  {
    assert forall id :: id in x.claims <==> id in earlier || id in claimed;
    AppendDistinct(earlier, claimed);
  }

  // ----- Claims of expired calls -----

  /** A claimed call is out of the expiry index for good, and has ended. */
  ghost predicate CallClaimsOk(w: World) {
    && Distinct(w.callClaims)
    && w.store.callExpiry.Keys <= w.usedCalls
    && (forall id <- w.callClaims :: id in w.usedCalls && id !in w.store.callExpiry
          && (id in w.store.calls ==> w.store.calls[id].status == Ended))
  }

  /** Exactly the batch leaves the expiry index, and every stored call of it ends. */
  lemma {:induction false} CallSweepClaims(s: Store, ids: seq<CallId>)
    ensures var t := ExpireCalls(s, ids);
            && (forall id :: id in t.callExpiry <==> id in s.callExpiry && id !in ids)
            && (forall id <- t.callExpiry :: t.callExpiry[id] == s.callExpiry[id])
            && t.calls.Keys == s.calls.Keys
            && (forall id <- s.calls :: if id in ids then t.calls[id].status == Ended else t.calls[id] == s.calls[id])
    decreases |ids|
  {
    if ids != [] {
      var t := ExpireCall(s, ids[0]);
      ExpireOneCall(s, ids[0]);
      CallSweepClaims(t, ids[1..]);
      ExpireCallsEvolves(t, ids[1..]);
      hide ExpireCall;
      assert forall id :: id in ids <==> id == ids[0] || id in ids[1..];
    }
  }

  lemma {:induction false} ExpireOneCall(s: Store, id: CallId)
    ensures var t := ExpireCall(s, id);
            && t.callExpiry == s.callExpiry - {id} && t.calls.Keys == s.calls.Keys
            && (id in s.calls ==> t.calls[id].status == Ended)
            && (forall other <- s.calls :: other != id ==> t.calls[other] == s.calls[other])
  {
    hide Devices, CloseCall;
    if id in s.calls {
      CloseCallIndex(s, id, Devices(s.calls[id]));
    }
  }

  lemma CloseCallIndex(s: Store, id: CallId, devices: set<Participant>)
    requires id in s.calls
    ensures var t := CloseCall(s, id, devices);
            t.callExpiry == s.callExpiry - {id} && id in t.calls && t.calls[id].status == Ended && t.calls == s.calls[id := t.calls[id]]
  {
    hide ReleaseAll;
  }

  /** The keys of direct calls and the admissions, which no room script touches. */
  ghost predicate CallKeysKept(s: Store, t: Store) {
    && t.now == s.now && t.calls == s.calls && t.callUsers == s.callUsers && t.callDevices == s.callDevices
    && t.callExpiry == s.callExpiry && t.admissions == s.admissions
  }

  lemma {:induction false} ExpireRoomsLeaveCalls(s: Store, ids: seq<RoomId>)
    ensures CallKeysKept(s, ExpireRooms(s, ids).store)
    decreases |ids|
  {
    hide CloseRoom, Users;
    if ids != [] {
      if Expired(s, ids[0]) { CloseRoomLeavesCalls(s, ids[0], Users(s.rooms[ids[0]].participants), true, false); }
      hide Expired;
      ExpireRoomsLeaveCalls(ExpireRoom(s, ids[0]), ids[1..]);
    }
  }

  lemma CloseRoomLeavesCalls(s: Store, id: RoomId, released: set<UserId>, keepRoster: bool, keepPresenter: bool)
    requires id in s.rooms
    ensures CallKeysKept(s, CloseRoom(s, id, released, keepRoster, keepPresenter))
  {
  }

  lemma OpenRoomLeavesCalls(s: Store, id: RoomId, conversation: ConversationId, membershipRevision: int, generation: int, socket: Socket)
    ensures CallKeysKept(s, OpenRoom(s, id, conversation, membershipRevision, generation, socket))
  {
  }

  lemma {:induction false} LastLeaveLeavesCalls(s: Store, id: RoomId, socket: Socket)
    requires id in s.rooms && socket in s.rooms[id].connections && Without(s.rooms[id].participants, socket.participant) == []
    ensures CallKeysKept(s, LeaveRoom(s, id, socket).store)
  {
    hide CloseRoom, Without, KeptSockets, ReleaseAll;
    var presenter := if s.rooms[id].presenter == Some(socket.participant) then None else s.rooms[id].presenter;
    var before := s.(rooms := s.rooms[id := s.rooms[id].(presenter := presenter)]);
    assert LeaveRoom(s, id, socket).store == CloseRoom(before, id, {socket.participant.user}, false, true);
    hide LeaveRoom;
    CloseRoomLeavesCalls(before, id, {socket.participant.user}, false, true);
  }

  lemma {:induction false} LeaveLeavesCalls(s: Store, id: RoomId, socket: Socket)
    ensures CallKeysKept(s, LeaveRoom(s, id, socket).store)
  {
    hide CloseRoom, Without, KeptSockets, ReleaseAll;
    if id in s.rooms && socket in s.rooms[id].connections && Without(s.rooms[id].participants, socket.participant) == [] {
      LastLeaveLeavesCalls(s, id, socket);
      hide LeaveRoom;
    }
  }

  ghost predicate RoomCommand(c: Command) {
    c.StartGroup? || c.Join? || c.Leave? || c.EndGroup? || c.Present? || c.MembershipChanged? || c.Abort? || c.SweepRooms?
  }

  lemma {:induction false} RoomCommandLeavesCalls(w: World, c: Command)
    requires RoomCommand(c)
    ensures CallKeysKept(w.store, Step(w, c).store)
  {
    hide CloseRoom, OpenRoom, LeaveRoom, Users, Renew, ExpireRooms, DueBatch, Admitted;
    var s := w.store;
    match c {
      case StartGroup(id, conversation, membershipRevision, generation, socket, token) =>
        OpenRoomLeavesCalls(s, id, conversation, membershipRevision, generation, socket);
      case Leave(id, socket) => LeaveLeavesCalls(s, id, socket);
      case EndGroup(id, _) => if id in s.rooms { CloseRoomLeavesCalls(s, id, Users(s.rooms[id].participants), false, true); }
      case MembershipChanged(id, _, _, _, _) => if id in s.rooms { CloseRoomLeavesCalls(s, id, Users(s.rooms[id].participants), false, true); }
      case Abort(id, _, _) => if id in s.rooms { CloseRoomLeavesCalls(s, id, Users(s.rooms[id].participants), false, false); }
      case SweepRooms(ids, _) => ExpireRoomsLeaveCalls(s, ids);
      case _ =>
    }
  }

  lemma {:induction false} StartIndex(s: Store, id: CallId, conversation: ConversationId, caller: UserId, recipient: UserId,
                                      endpoint: Endpoint, token: Token, online: Presence)
    ensures StartCall(s, id, conversation, caller, recipient, endpoint, token, online).store.callExpiry.Keys <= s.callExpiry.Keys + {id}
  {
    hide Recovered, Online, Admitted;
    RecoveredIndex(s, caller, recipient, online);
  }

  lemma {:induction false} RecoveredIndex(s: Store, caller: UserId, recipient: UserId, online: Presence)
    ensures Recovered(s, caller, recipient, online).callExpiry.Keys <= s.callExpiry.Keys
  {
    hide Stale, ReleaseAll, CloseCall;
    var holder := if caller in s.callUsers then caller else recipient;
    if holder in s.callUsers && s.callUsers[holder].id in s.calls {
      var id := s.callUsers[holder].id;
      CloseCallIndex(s, id, Devices(s.calls[id]));
    }
  }

  /** No command puts a call back into the expiry index. */
  lemma {:induction false} NeverIndexedAgain(w: World, c: Command)
    requires CallsOk(w.store)
    ensures forall id <- Step(w, c).store.callExpiry :: id in w.store.callExpiry || (id !in w.usedCalls && id in Step(w, c).usedCalls)
  {
    var s := w.store;
    if RoomCommand(c) {
      RoomCommandLeavesCalls(w, c);
      hide Step;
    } else if c.StartDirect? {
      StartIndex(s, c.call, c.conversation, c.caller, c.recipient, c.endpoint, c.token, c.online);
      hide StartCall;
    } else if c.Accept? {
      hide AcceptCall;
    } else if c.SweepCalls? {
      CallSweepClaims(s, c.ids);
      hide ExpireCalls, DueBatch;
    } else {
      hide ReleaseAll, Devices, Live, MayEnd, IsEndpoint;
    }
  }

  lemma {:induction false} LaterCallClaims(w: World, c: Command)
    requires Known(w) && CallsOk(w.store) && CallClaimsOk(w) && !c.SweepCalls?
    ensures CallClaimsOk(Step(w, c))
  {
    StepLater(w, c);
    NeverIndexedAgain(w, c);
    CallClaimsStay(w, c);
    hide CallsOk, Step, RoomEvolves;
  }

  lemma CallClaimsStay(w: World, c: Command)
    requires !c.SweepCalls?
    ensures Step(w, c).callClaims == w.callClaims && w.usedCalls <= Step(w, c).usedCalls
  {
  }

  lemma {:induction false} CallSweepLogged(w: World, c: Command)
    requires Known(w) && CallsOk(w.store) && CallClaimsOk(w) && c.SweepCalls?
    ensures CallClaimsOk(Step(w, c))
  {
    var s, x := w.store, Step(w, c);
    if AllDue(s.callExpiry, s.now, c.ids) {
      CallSweepClaims(s, c.ids);
      hide ExpireCalls, CallsOk;
      assert forall id :: id in x.callClaims <==> id in w.callClaims || id in c.ids;
      AppendDistinct(w.callClaims, c.ids);
    }
  }

  // ----- Whole runs -----

  ghost predicate Good(w: World) {
    Inv(w.store) && Known(w) && ClaimsOk(w) && CallClaimsOk(w) && AcceptancesOk(w)
  }

  lemma {:induction false} StepGood(w: World, c: Command)
    requires Good(w)
    ensures Good(Step(w, c)) && Later(w, Step(w, c))
  {
    hide Known, ClaimsOk, CallClaimsOk, AcceptancesOk, Later, CallsOk, CallUsersOk, CallDevicesOk, RoomsInv, Exclusive,
      DueBatch, Tick, AcquireAdmission, ReleaseAdmission, StartCall, AcceptCall, DeclineCall, CancelCall,
      EndCall, ExpireCalls, AllDue, StartRoom, JoinRoom, LeaveRoom, EndRoom, SetPresenter, EndRoomForMembership, AbortRoomStart,
      ExpireRooms;
    StepKeepsInv(w, c);
    StepLater(w, c);
    if c.SweepRooms? { SweepLogged(w, c); } else { LaterClaims(w, Step(w, c)); }
    if c.SweepCalls? { CallSweepLogged(w, c); } else { LaterCallClaims(w, c); }
    if c.Accept? { AcceptLogged(w, c); } else { LaterAcceptances(w, Step(w, c)); }
  }

  lemma {:induction false} RunGood(w: World, commands: seq<Command>)
    requires Good(w)
    ensures Good(Run(w, commands)) && Later(w, Run(w, commands))
    decreases |commands|
  {
    hide Inv, Known, ClaimsOk, CallClaimsOk, AcceptancesOk, Later, Step;
    if commands == [] {
      SameIsLater(w);
    } else {
      var x := Step(w, commands[0]);
      StepGood(w, commands[0]);
      RunGood(x, commands[1..]);
      LaterChain(w, x, Run(x, commands[1..]));
    }
  }

  lemma {:induction false} SameIsLater(w: World)
    requires Known(w)
    ensures Later(w, w)
  {
    RecordsEvolve(w.store);
    hide CallEvolves, RoomEvolves;
  }

  lemma {:induction false} InitialGood(now: int)
    ensures Good(Initial(now))
  {
  }

  /** The state after the commands `a`, and after `a` and then `b`. */
  lemma {:induction false} TwoMoments(now: int, a: seq<Command>, b: seq<Command>)
    ensures Good(Run(Initial(now), a)) && Good(Run(Initial(now), a + b))
    ensures Later(Run(Initial(now), a), Run(Initial(now), a + b))
  {
    hide Good, Later, Step;
    InitialGood(now);
    RunGood(Initial(now), a);
    RunOfConcat(Initial(now), a, b);
    RunGood(Run(Initial(now), a), b);
  }

  // ----- The results -----

  /** No run puts a user in two calls or rooms at once, direct and group together. */
  lemma {:induction false} OneCallPerUser(now: int, commands: seq<Command>, user: UserId, a: Engagement, b: Engagement)
    requires Engaged(Run(Initial(now), commands).store, user, a)
    requires Engaged(Run(Initial(now), commands).store, user, b)
    ensures a == b
  {
    hide Inv, Known, ClaimsOk, CallClaimsOk, AcceptancesOk, Engaged, Later, Run;
    InitialGood(now);
    RunGood(Initial(now), commands);
    OneEngagement(Run(Initial(now), commands).store, user, a, b);
  }

  /** A room that has not ended has one to four participants of different users, one
      connection each and the presenter among them; it is indexed at its own deadline,
      and its conversation and participants are reserved for it. */
  lemma {:induction false} RoomsAgreeWithIndexes(now: int, commands: seq<Command>, id: RoomId)
    requires id in Run(Initial(now), commands).store.rooms
    requires Run(Initial(now), commands).store.rooms[id].status != Ended
    ensures var s := Run(Initial(now), commands).store;
            var r := s.rooms[id];
            && 1 <= |r.participants| <= 4
            && DistinctUsers(r.participants) && Aligned(r.participants, r.connections)
            && (r.presenter.Some? ==> r.presenter.value in r.participants)
            && id in s.roomExpiry && s.roomExpiry[id] == r.expiresAt
            && r.conversation in s.roomConversations && s.roomConversations[r.conversation].id == id
            && (forall p <- r.participants :: p.user in s.roomUsers && s.roomUsers[p.user].id == id)
  {
    hide Known, ClaimsOk, CallClaimsOk, AcceptancesOk, Later, Run, DistinctUsers, Aligned;
    InitialGood(now);
    RunGood(Initial(now), commands);
    assert RoomOk(Run(Initial(now), commands).store, id);
  }

  /** A call that can still be accepted or is in progress holds the keys of both users and
      is indexed at its own deadline; one device has accepted it exactly when it is active. */
  lemma {:induction false} CallsAgreeWithKeys(now: int, commands: seq<Command>, id: CallId)
    requires id in Run(Initial(now), commands).store.calls
    requires Run(Initial(now), commands).store.calls[id].status != Ended
    ensures var s := Run(Initial(now), commands).store;
            var c := s.calls[id];
            && id in s.callExpiry && s.callExpiry[id] == c.expiresAt
            && (c.accepted.Some? <==> c.status == Active)
            && (s.now < c.expiresAt ==>
                  && c.caller in s.callUsers && s.callUsers[c.caller].id == id
                  && c.recipient in s.callUsers && s.callUsers[c.recipient].id == id)
  {
    hide Known, ClaimsOk, CallClaimsOk, AcceptancesOk, Later, Run, RoomsInv, CallUsersOk, CallDevicesOk;
    InitialGood(now);
    RunGood(Initial(now), commands);
    assert CallOk(Run(Initial(now), commands).store, id);
  }

  /** No reservation, device key or conversation key points anywhere else. */
  lemma {:induction false} ReservationsPointHome(now: int, commands: seq<Command>)
    ensures var s := Run(Initial(now), commands).store;
            && (forall u <- s.roomUsers :: Engaged(s, u, InRoom(s.roomUsers[u].id)))
            && (forall c <- s.roomConversations :: var id := s.roomConversations[c].id;
                  id in s.rooms && s.rooms[id].status != Ended && s.rooms[id].conversation == c)
            && (forall u <- s.callUsers :: var id := s.callUsers[u].id;
                  id in s.calls && s.calls[id].status != Ended && Party(s.calls[id], u) && u !in s.roomUsers)
            && (forall d <- s.callDevices :: var id := s.callDevices[d].id;
                  id in s.calls && s.calls[id].status != Ended && d in Devices(s.calls[id]))
  {
    hide Known, ClaimsOk, CallClaimsOk, AcceptancesOk, Later, Run, RoomsOk, CallsOk;
    InitialGood(now);
    RunGood(Initial(now), commands);
    var s := Run(Initial(now), commands).store;
    forall u <- s.callUsers
      ensures s.callUsers[u].id in s.calls && s.calls[s.callUsers[u].id].status != Ended
              && Party(s.calls[s.callUsers[u].id], u) && u !in s.roomUsers
    {
      assert CallUserOk(s, u);
    }
    forall d <- s.callDevices
      ensures s.callDevices[d].id in s.calls && s.calls[s.callDevices[d].id].status != Ended
              && d in Devices(s.calls[s.callDevices[d].id])
    {
      assert CallDeviceOk(s, d);
    }
  }

  /** Between any two moments of a run a record keeps what identifies it, its status only
      advances, and equal room revisions mean equal rooms. */
  lemma {:induction false} RecordsOnlyAdvance(now: int, a: seq<Command>, b: seq<Command>)
    ensures var s, t := Run(Initial(now), a).store, Run(Initial(now), a + b).store;
            && (forall id <- s.rooms :: id in t.rooms ==>
                  && s.rooms[id].stateRevision <= t.rooms[id].stateRevision
                  && (s.rooms[id].stateRevision == t.rooms[id].stateRevision ==> s.rooms[id] == t.rooms[id])
                  && (s.rooms[id].status == Ended ==> t.rooms[id].status == Ended))
            && (forall id <- s.calls :: id in t.calls ==>
                  && (s.calls[id].status == Ended ==> t.calls[id].status == Ended)
                  && (s.calls[id].accepted.Some? ==> t.calls[id].accepted == s.calls[id].accepted))
  {
    hide Run, Inv, ClaimsOk, CallClaimsOk, AcceptancesOk;
    TwoMoments(now, a, b);
  }

  /** Each call is accepted at most once, and each expired call and each expired room is
      claimed by at most one sweep, whichever replicas run the scripts. */
  lemma {:induction false} AcceptedAndClaimedOnce(now: int, commands: seq<Command>)
    ensures var w := Run(Initial(now), commands);
            && (forall i, j :: 0 <= i < j < |w.acceptances| ==> w.acceptances[i].call != w.acceptances[j].call)
            && (forall a <- w.acceptances :: a.call in w.store.calls ==> w.store.calls[a.call].accepted == Some(a.endpoint))
            && (forall i, j :: 0 <= i < j < |w.callClaims| ==> w.callClaims[i] != w.callClaims[j])
            && (forall id <- w.callClaims :: id !in w.store.callExpiry && (id in w.store.calls ==> w.store.calls[id].status == Ended))
            && (forall i, j :: 0 <= i < j < |w.claims| ==> w.claims[i] != w.claims[j])
            && (forall id <- w.claims :: id in w.store.rooms ==> w.store.rooms[id].status == Ended)
  {
    hide Run, Inv, Known, Later;
    InitialGood(now);
    RunGood(Initial(now), commands);
  }

  /** A sweep of calls claims every call that is due: afterwards no stored call is past its
      deadline without having ended, and the index holds no due entry. */
  lemma {:induction false} CallSweepIsComplete(now: int, commands: seq<Command>, ids: seq<CallId>)
    requires var s := Run(Initial(now), commands).store; AllDue(s.callExpiry, s.now, ids)
    ensures var s, t := Run(Initial(now), commands).store, Step(Run(Initial(now), commands), SweepCalls(ids)).store;
            && (forall id <- t.callExpiry :: s.now < t.callExpiry[id])
            && (forall id <- t.calls :: t.calls[id].status != Ended ==> s.now < t.calls[id].expiresAt)
  {
    hide Known, ClaimsOk, CallClaimsOk, AcceptancesOk, Later, Run;
    InitialGood(now);
    RunGood(Initial(now), commands);
    var s := Run(Initial(now), commands).store;
    CallSweepClaims(s, ids);
    hide ExpireCalls;
    var t := ExpireCalls(s, ids);
    forall id <- t.calls | t.calls[id].status != Ended ensures s.now < t.calls[id].expiresAt {
      assert CallOk(s, id);
    }
  }

  /** Only calls that were never accepted are still stored when their timeout is swept: the
      record of an active call disappears at its own deadline. */
  lemma {:induction false} SweptCallsWereRinging(now: int, commands: seq<Command>, ids: seq<CallId>, id: CallId)
    requires var s := Run(Initial(now), commands).store; AllDue(s.callExpiry, s.now, ids)
    requires id in ids
    ensures var s := Run(Initial(now), commands).store;
            id in s.calls ==> s.calls[id].status == Ringing && s.calls[id].accepted.None?
  {
    hide Known, ClaimsOk, CallClaimsOk, AcceptancesOk, Later, Run;
    InitialGood(now);
    RunGood(Initial(now), commands);
    var s := Run(Initial(now), commands).store;
    if id in s.calls {
      assert CallOk(s, id);
    }
  }

  /** A sweep the limit did not cut short leaves no room past its deadline unended. */
  lemma {:induction false} SweepIsComplete(now: int, commands: seq<Command>, ids: seq<RoomId>, limit: nat, id: RoomId)
    requires var s := Run(Initial(now), commands).store; DueBatch(s.roomExpiry, s.now, ids, limit)
    requires |ids| < limit
    ensures !Expired(Step(Run(Initial(now), commands), SweepRooms(ids, limit)).store, id)
  {
    hide Known, ClaimsOk, CallClaimsOk, AcceptancesOk, Later, Run;
    InitialGood(now);
    RunGood(Initial(now), commands);
    var s := Run(Initial(now), commands).store;
    SweepClaims(s, ids);
    if id in s.rooms {
      assert RoomOk(s, id);
    }
  }
}
