/** What the keys of calls and rooms always say about each other. */
module CallInvariant {
  import opened Options
  import opened CallStore

  // ----- Direct calls -----

  ghost predicate Holds(holds: map<UserId, Hold>, user: UserId, id: nat, at: int) {
    user in holds && holds[user].id == id && at <= holds[user].until
  }

  ghost predicate Party(c: Call, user: UserId) {
    user == c.caller || user == c.recipient
  }

  /** A user's call key names a live call of that user and does not outlive it. */
  ghost predicate CallUsersOk(s: Store) {
    forall u <- s.callUsers :: CallUserOk(s, u)
  }

  ghost predicate CallUserOk(s: Store, u: UserId)
    requires u in s.callUsers
  {
    var h := s.callUsers[u];
    && s.now < h.until
    && h.id in s.calls
    && s.calls[h.id].status != Ended
    && Party(s.calls[h.id], u)
    && h.until <= s.calls[h.id].until
  }

  ghost predicate CallDevicesOk(s: Store) {
    forall d <- s.callDevices :: CallDeviceOk(s, d)
  }

  ghost predicate CallDeviceOk(s: Store, d: Participant)
    requires d in s.callDevices
  {
    var h := s.callDevices[d];
    && s.now < h.until
    && h.id in s.calls
    && s.calls[h.id].status != Ended
    && d in Devices(s.calls[h.id])
    && h.until <= s.calls[h.id].until
  }

  /** A call that can still be accepted or is in progress holds both users' keys, and
      sits in the expiry index at its own deadline until it has ended. */
  ghost predicate CallsOk(s: Store) {
    forall id <- s.calls :: CallOk(s, id)
  }

  ghost predicate CallOk(s: Store, id: CallId)
    requires id in s.calls
  {
    var c := s.calls[id];
    && s.now < c.until
    && (c.status == Ringing ==> c.accepted.None?)
    && (c.status == Active ==> c.accepted.Some? && c.until == c.expiresAt)
    && (c.status == Ended ==> id !in s.callExpiry)
    && (c.status != Ended ==> id in s.callExpiry && s.callExpiry[id] == c.expiresAt)
    && (c.status != Ended && s.now < c.expiresAt ==>
          Holds(s.callUsers, c.caller, id, c.expiresAt) && Holds(s.callUsers, c.recipient, id, c.expiresAt))
  }

  ghost predicate CallsInv(s: Store) {
    CallUsersOk(s) && CallDevicesOk(s) && CallsOk(s)
  }

  // ----- Group rooms -----

  /** One connection entry for each participant, in the same order. */
  ghost predicate Aligned(participants: seq<Participant>, connections: seq<Socket>) {
    && |participants| == |connections|
    && forall i :: 0 <= i < |participants| ==> connections[i].participant == participants[i]
  }

  ghost predicate DistinctUsers(participants: seq<Participant>) {
    forall i, j :: 0 <= i < j < |participants| ==> participants[i].user != participants[j].user
  }

  ghost predicate RosterOk(r: Room) {
    && 1 <= |r.participants| <= ROOM_CAPACITY
    && DistinctUsers(r.participants)
    && Aligned(r.participants, r.connections)
    && (r.presenter.Some? ==> r.presenter.value in r.participants)
  }

  /** A room that has not ended is in the indexes exactly as its own hash says. */
  ghost predicate RoomOk(s: Store, id: RoomId)
    requires id in s.rooms
  {
    var r := s.rooms[id];
    && s.now < r.until
    && (r.status == Ended ==> id !in s.roomExpiry)
    && (r.status != Ended ==>
          && RosterOk(r)
          && r.until == r.expiresAt + ENDED_TTL
          && id in s.roomExpiry && s.roomExpiry[id] == r.expiresAt
          && r.conversation in s.roomConversations && s.roomConversations[r.conversation] == Hold(id, r.until)
          && (forall p <- r.participants :: p.user in s.roomUsers && s.roomUsers[p.user] == Hold(id, r.until)))
  }

  ghost predicate RoomsOk(s: Store) {
    forall id <- s.rooms :: RoomOk(s, id)
  }

  /** A reservation points to a room that has not ended and has the user in it. */
  ghost predicate RoomUsersOk(s: Store) {
    forall u <- s.roomUsers ::
      && s.roomUsers[u].id in s.rooms
      && s.rooms[s.roomUsers[u].id].status != Ended
      && u in Users(s.rooms[s.roomUsers[u].id].participants)
  }

  ghost predicate RoomConversationsOk(s: Store) {
    forall c <- s.roomConversations ::
      && s.roomConversations[c].id in s.rooms
      && s.rooms[s.roomConversations[c].id].status != Ended
      && s.rooms[s.roomConversations[c].id].conversation == c
  }

  ghost predicate RoomsInv(s: Store) {
    RoomsOk(s) && RoomUsersOk(s) && RoomConversationsOk(s)
  }

  // ----- Both machines -----

  /** No user holds a call key and a room key at once. */
  ghost predicate Exclusive(s: Store) {
    forall u <- s.callUsers :: u !in s.roomUsers
  }

  ghost predicate Inv(s: Store) {
    CallsInv(s) && RoomsInv(s) && Exclusive(s)
  }

  /** What a user is engaged in: a call that can still be accepted or is in progress,
      or a room that has not ended. */
  datatype Engagement = InCall(call: CallId) | InRoom(room: RoomId)

  ghost predicate Engaged(s: Store, user: UserId, e: Engagement) {
    match e
    case InCall(id) => id in s.calls && s.calls[id].status != Ended && s.now < s.calls[id].expiresAt && Party(s.calls[id], user)
    case InRoom(id) => id in s.rooms && s.rooms[id].status != Ended && user in Users(s.rooms[id].participants)
  }

  /** The invariant leaves a user at most one engagement, calls and rooms together. */
  lemma OneEngagement(s: Store, user: UserId, a: Engagement, b: Engagement)
    requires Inv(s)
    requires Engaged(s, user, a) && Engaged(s, user, b)
    ensures a == b
  {
    forall e: Engagement | e == a || e == b
      ensures e.InCall? ==> user in s.callUsers && s.callUsers[user].id == e.call
      ensures e.InRoom? ==> user in s.roomUsers && s.roomUsers[user].id == e.room
    {
      if e.InCall? {
        assert CallOk(s, e.call);
      } else {
        assert RoomOk(s, e.room);
      }
    }
  }

  // ----- Closing and starting calls -----

  lemma {:induction false} CloseCallUsers(s: Store, id: CallId, devices: set<Participant>)
    requires CallUsersOk(s) && id in s.calls
    ensures CallUsersOk(CloseCall(s, id, devices))
  {
    var t := CloseCall(s, id, devices);
    forall u <- t.callUsers ensures CallUserOk(t, u) {
      assert CallUserOk(s, u);
    }
  }

  lemma {:induction false} CloseCallDevices(s: Store, id: CallId, devices: set<Participant>)
    requires CallDevicesOk(s) && id in s.calls && devices == Devices(s.calls[id])
    ensures CallDevicesOk(CloseCall(s, id, devices))
  {
    var t := CloseCall(s, id, devices);
    forall d <- t.callDevices ensures CallDeviceOk(t, d) {
      assert CallDeviceOk(s, d);
    }
  }

  lemma {:induction false} CloseCallOthers(s: Store, id: CallId, devices: set<Participant>)
    requires CallsOk(s) && id in s.calls
    ensures CallsOk(CloseCall(s, id, devices))
  {
    var t := CloseCall(s, id, devices);
    forall other <- t.calls ensures CallOk(t, other) {
      assert CallOk(s, other);
    }
  }

  lemma {:induction false} CloseCallKeeps(s: Store, id: CallId, devices: set<Participant>)
    requires Inv(s) && id in s.calls
    requires devices == Devices(s.calls[id])
    ensures Inv(CloseCall(s, id, devices))
    ensures var t := CloseCall(s, id, devices);
            && t.callUsers.Keys <= s.callUsers.Keys
            && t.now == s.now && t.calls.Keys == s.calls.Keys && t.rooms == s.rooms && t.roomUsers == s.roomUsers
  {
    hide RoomsInv, CallUsersOk, CallDevicesOk, CallsOk, Devices;
    CloseCallUsers(s, id, devices);
    CloseCallDevices(s, id, devices);
    CloseCallOthers(s, id, devices);
    RoomsUntouched(s, CloseCall(s, id, devices));
  }

  /** Steps of one machine leave the invariant of the other alone. */
  lemma RoomsUntouched(s: Store, t: Store)
    requires RoomsInv(s)
    requires t.now == s.now && t.rooms == s.rooms && t.roomUsers == s.roomUsers
             && t.roomConversations == s.roomConversations && t.roomExpiry == s.roomExpiry
    ensures RoomsInv(t)
  {
    forall id <- t.rooms ensures RoomOk(t, id) {
      assert RoomOk(s, id);
    }
  }

  lemma CallsUntouched(s: Store, t: Store)
    requires CallsInv(s)
    requires t.now == s.now && t.calls == s.calls && t.callUsers == s.callUsers
             && t.callDevices == s.callDevices && t.callExpiry == s.callExpiry
    ensures CallsInv(t)
  {
    forall u <- t.callUsers ensures CallUserOk(t, u) { assert CallUserOk(s, u); }
    forall d <- t.callDevices ensures CallDeviceOk(t, d) { assert CallDeviceOk(s, d); }
    forall id <- t.calls ensures CallOk(t, id) { assert CallOk(s, id); }
  }

  lemma {:induction false} RecoveredKeeps(s: Store, caller: UserId, recipient: UserId, online: Presence)
    requires Inv(s)
    ensures Inv(Recovered(s, caller, recipient, online))
    ensures var r := Recovered(s, caller, recipient, online);
            r.now == s.now && r.calls.Keys == s.calls.Keys && r.rooms == s.rooms && r.roomUsers == s.roomUsers
  {
    hide Stale, Devices, RoomsInv, CallsOk, CallDevicesOk, Exclusive;
    var holder := if caller in s.callUsers then caller else recipient;
    if holder in s.callUsers {
      assert CallUserOk(s, holder);
      CloseCallKeeps(s, s.callUsers[holder].id, Devices(s.calls[s.callUsers[holder].id]));
    }
  }

  lemma {:induction false} RingCallUsers(s: Store, id: CallId, conversation: ConversationId, caller: UserId, recipient: UserId, endpoint: Endpoint)
    requires CallUsersOk(s) && CallDevicesOk(s) && id !in s.calls
    ensures var t := RingCall(s, id, conversation, caller, recipient, endpoint);
            CallUsersOk(t) && CallDevicesOk(t)
  {
    var t := RingCall(s, id, conversation, caller, recipient, endpoint);
    forall u <- t.callUsers ensures CallUserOk(t, u) {
      if u != caller && u != recipient { assert CallUserOk(s, u); }
    }
    forall d <- t.callDevices ensures CallDeviceOk(t, d) {
      if d != Participant(caller, endpoint.device) { assert CallDeviceOk(s, d); }
    }
  }

  lemma {:induction false} RingCallOthers(s: Store, id: CallId, conversation: ConversationId, caller: UserId, recipient: UserId, endpoint: Endpoint)
    requires CallsOk(s) && id !in s.calls && caller !in s.callUsers && recipient !in s.callUsers
    ensures CallsOk(RingCall(s, id, conversation, caller, recipient, endpoint))
  {
    var t := RingCall(s, id, conversation, caller, recipient, endpoint);
    forall other <- t.calls ensures CallOk(t, other) {
      if other != id { assert CallOk(s, other); }
    }
  }

  lemma {:induction false} RingCallKeeps(s: Store, id: CallId, conversation: ConversationId, caller: UserId, recipient: UserId,
                                         endpoint: Endpoint)
    requires Inv(s) && id !in s.calls
    requires caller !in s.callUsers && recipient !in s.callUsers && caller !in s.roomUsers && recipient !in s.roomUsers
    ensures Inv(RingCall(s, id, conversation, caller, recipient, endpoint))
  {
    hide RoomsInv, CallUsersOk, CallDevicesOk, CallsOk;
    RingCallUsers(s, id, conversation, caller, recipient, endpoint);
    RingCallOthers(s, id, conversation, caller, recipient, endpoint);
    RoomsUntouched(s, RingCall(s, id, conversation, caller, recipient, endpoint));
  }

  lemma {:induction false} StartCallKeeps(s: Store, id: CallId, conversation: ConversationId, caller: UserId, recipient: UserId,
                                          endpoint: Endpoint, token: Token, online: Presence)
    requires Inv(s) && id !in s.calls
    ensures Inv(StartCall(s, id, conversation, caller, recipient, endpoint, token, online).store)
  {
    hide Inv, RingCall, Recovered;
    RecoveredKeeps(s, caller, recipient, online);
    if StartCall(s, id, conversation, caller, recipient, endpoint, token, online).reply == Done {
      RingCallKeeps(Recovered(s, caller, recipient, online), id, conversation, caller, recipient, endpoint);
    }
  }

  /** The reservations made at the start still cover both users when the call is accepted. */
  lemma {:induction false} AcceptCallUsers(s: Store, id: CallId, user: UserId, endpoint: Endpoint)
    requires CallsInv(s) && AcceptCall(s, id, user, endpoint).reply == Done
    ensures var t := AcceptCall(s, id, user, endpoint).store;
            CallUsersOk(t) && t.callUsers.Keys == s.callUsers.Keys
  {
    hide CallDevicesOk;
    var t := AcceptCall(s, id, user, endpoint).store;
    assert CallOk(s, id);
    forall u <- t.callUsers ensures CallUserOk(t, u) {
      assert CallUserOk(s, u);
    }
  }

  lemma {:induction false} AcceptCallDevices(s: Store, id: CallId, user: UserId, endpoint: Endpoint)
    requires CallsInv(s) && AcceptCall(s, id, user, endpoint).reply == Done
    ensures CallDevicesOk(AcceptCall(s, id, user, endpoint).store)
  {
    hide CallUsersOk;
    var t := AcceptCall(s, id, user, endpoint).store;
    assert CallOk(s, id);
    forall d <- t.callDevices ensures CallDeviceOk(t, d) {
      if d in s.callDevices { assert CallDeviceOk(s, d); }
    }
  }

  lemma {:induction false} AcceptCallOthers(s: Store, id: CallId, user: UserId, endpoint: Endpoint)
    requires CallsInv(s) && AcceptCall(s, id, user, endpoint).reply == Done
    ensures CallsOk(AcceptCall(s, id, user, endpoint).store)
  {
    hide CallUsersOk, CallDevicesOk;
    var t := AcceptCall(s, id, user, endpoint).store;
    assert CallOk(s, id);
    forall other <- t.calls ensures CallOk(t, other) {
      assert CallOk(s, other);
    }
  }

  lemma {:induction false} AcceptCallKeeps(s: Store, id: CallId, user: UserId, endpoint: Endpoint)
    requires Inv(s)
    ensures Inv(AcceptCall(s, id, user, endpoint).store)
  {
    hide RoomsInv, CallUsersOk, CallDevicesOk, CallsOk;
    if AcceptCall(s, id, user, endpoint).reply == Done {
      AcceptCallUsers(s, id, user, endpoint);
      AcceptCallDevices(s, id, user, endpoint);
      AcceptCallOthers(s, id, user, endpoint);
      RoomsUntouched(s, AcceptCall(s, id, user, endpoint).store);
    }
  }

  lemma {:induction false} CloseRingingKeeps(s: Store, id: CallId)
    requires Inv(s) && id in s.calls && s.calls[id].status == Ringing
    ensures Inv(CloseCall(s, id, {CallerDevice(s.calls[id])}))
  {
    hide CloseCall, RoomsInv;
    assert CallOk(s, id);
    assert Devices(s.calls[id]) == {CallerDevice(s.calls[id])};
    CloseCallKeeps(s, id, Devices(s.calls[id]));
  }

  lemma {:induction false} DeclineCallKeeps(s: Store, id: CallId, user: UserId)
    requires Inv(s)
    ensures Inv(DeclineCall(s, id, user).store)
  {
    hide CloseCall, Inv;
    if id in s.calls && s.calls[id].status == Ringing {
      CloseRingingKeeps(s, id);
    }
  }

  lemma {:induction false} CancelCallKeeps(s: Store, id: CallId, user: UserId, endpoint: Endpoint)
    requires Inv(s)
    ensures Inv(CancelCall(s, id, user, endpoint).store)
  {
    hide CloseCall, Inv;
    if id in s.calls && s.calls[id].status == Ringing {
      CloseRingingKeeps(s, id);
    }
  }

  lemma {:induction false} EndCallKeeps(s: Store, id: CallId, user: UserId, endpoint: Endpoint, online: Presence)
    requires Inv(s)
    ensures Inv(EndCall(s, id, user, endpoint, online).store)
  {
    if id in s.calls {
      CloseCallKeeps(s, id, Devices(s.calls[id]));
    }
  }

  lemma {:induction false} ExpireCallsKeeps(s: Store, ids: seq<CallId>)
    requires Inv(s)
    ensures Inv(ExpireCalls(s, ids))
    decreases |ids|
  {
    if ids != [] {
      var t := ExpireCall(s, ids[0]);
      if ids[0] in s.calls {
        CloseCallKeeps(s, ids[0], Devices(s.calls[ids[0]]));
      } else {
        forall u <- t.callUsers ensures CallUserOk(t, u) { assert CallUserOk(s, u); }
        forall d <- t.callDevices ensures CallDeviceOk(t, d) { assert CallDeviceOk(s, d); }
        forall id <- t.calls ensures CallOk(t, id) { assert CallOk(s, id); }
        RoomsUntouched(s, t);
      }
      ExpireCallsKeeps(t, ids[1..]);
    }
  }
}
