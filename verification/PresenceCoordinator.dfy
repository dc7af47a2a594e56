/** The coordination scripts in the form they have in the source: statements on key
    spaces, with loops over participants, users and index members.  Every method is tied
    to its script as a function of the store. */
module PresenceCoordinator {
  import opened Options
  import opened CallStore

  // ----- How the loops extend what they have done so far -----

  lemma {:induction false} ReleaseAllGrows<K>(holds: map<K, Hold>, keys: set<K>, key: K, id: nat)
    ensures Release(ReleaseAll(holds, keys, id), key, id) == ReleaseAll(holds, keys + {key}, id)
  {
  }

  lemma UsersGrow(ps: seq<Participant>, i: nat)
    requires i < |ps|
    ensures Users(ps[..i + 1]) == Users(ps[..i]) + {ps[i].user}
  {
    assert ps[..i + 1] == ps[..i] + [ps[i]];
    assert forall p :: p in ps[..i + 1] <==> p in ps[..i] || p == ps[i];
  }

  lemma {:induction false} WithoutGrows(ps: seq<Participant>, p: Participant, leaver: Participant)
    ensures Without(ps + [p], leaver) == Without(ps, leaver) + if p == leaver then [] else [p]
    decreases |ps|
  {
    if ps == [] {
      assert ps + [p] == [p];
    } else {
      assert (ps + [p])[0] == ps[0] && (ps + [p])[1..] == ps[1..] + [p];
      WithoutGrows(ps[1..], p, leaver);
    }
  }

  lemma {:induction false} SocketsGrow(p: Participant, connections: seq<Socket>, socket: Socket)
    ensures SocketsOf(p, connections + [socket]) == SocketsOf(p, connections) + if socket.participant == p then [socket] else []
    decreases |connections|
  {
    if connections == [] {
      assert connections + [socket] == [socket];
    } else {
      assert (connections + [socket])[0] == connections[0] && (connections + [socket])[1..] == connections[1..] + [socket];
      SocketsGrow(p, connections[1..], socket);
    }
  }

  lemma {:induction false} KeptSocketsGrow(kept: seq<Participant>, p: Participant, connections: seq<Socket>)
    ensures KeptSockets(kept + [p], connections) == KeptSockets(kept, connections) + SocketsOf(p, connections)
    decreases |kept|
  {
    if kept == [] {
      assert kept + [p] == [p];
      assert KeptSockets([p], connections) == SocketsOf(p, connections) + KeptSockets([], connections);
    } else {
      assert (kept + [p])[0] == kept[0] && (kept + [p])[1..] == kept[1..] + [p];
      KeptSocketsGrow(kept[1..], p, connections);
    }
  }

  lemma {:induction false} RenewGrows(holds: map<UserId, Hold>, users: set<UserId>, user: UserId, id: RoomId, until: int)
    ensures var r := Renew(holds, users, id, until);
            Renew(holds, users + {user}, id, until) == if user in r && r[user].id == id then r[user := Hold(id, until)] else r
  {
  }

  // ----- A socket that disconnects -----

  datatype CallKey = OfDevice(device: Participant) | OfUser(user: UserId)

  function Named(s: Store, key: CallKey): Option<CallId> {
    match key
    case OfDevice(p) => if p in s.callDevices then Some(s.callDevices[p].id) else None
    case OfUser(u) => if u in s.callUsers then Some(s.callUsers[u].id) else None
  }

  /** Exactly the listed calls have ended, each by this socket's right, and only their keys
      are gone. */
  ghost predicate Disconnected(s: Store, t: Store, user: UserId, endpoint: Endpoint, online: Presence, ended: seq<CallId>) {
    && t.calls.Keys == s.calls.Keys
    && (forall id <- s.calls ::
          if id in ended then s.calls[id].status != Ended && MayEnd(s.calls[id], user, endpoint, online) && t.calls[id].status == Ended
          else t.calls[id] == s.calls[id])
    && (forall id <- ended :: id in s.calls)
    && (forall key :: Named(t, key) == Named(s, key) || (Named(t, key).None? && Named(s, key).value in ended))
  }

  ghost predicate Settled(s: Store, t: Store, id: CallId, user: UserId, endpoint: Endpoint, online: Presence) {
    id in s.calls && MayEnd(s.calls[id], user, endpoint, online) ==> id in t.calls && t.calls[id].status == Ended
  }

  lemma {:induction false} EndFrame(s: Store, id: CallId, user: UserId, endpoint: Endpoint, online: Presence)
    ensures var e := EndCall(s, id, user, endpoint, online);
            if e.reply == Done then
              && id in s.calls && s.calls[id].status != Ended && MayEnd(s.calls[id], user, endpoint, online)
              && id in e.store.calls && e.store.calls[id].status == Ended && e.store.calls == s.calls[id := e.store.calls[id]]
              && (forall key :: Named(e.store, key) == Named(s, key) || (Named(e.store, key).None? && Named(s, key) == Some(id)))
            else e.store == s && (id in s.calls && MayEnd(s.calls[id], user, endpoint, online) ==> s.calls[id].status == Ended)
  {
    hide MayEnd, Devices;
  }

  lemma {:induction false} StillNamed(s: Store, t: Store, user: UserId, endpoint: Endpoint, online: Presence, ended: seq<CallId>, key: CallKey)
    requires Disconnected(s, t, user, endpoint, online, ended)
    ensures Named(t, key) == Named(s, key) || (Named(t, key).None? && Named(s, key).Some? && Named(s, key).value in ended)
  {
  }

  lemma {:induction false} DisconnectedStep(s: Store, t: Store, u: Store, user: UserId, endpoint: Endpoint, online: Presence,
                                            ended: seq<CallId>, id: CallId)
    requires Disconnected(s, t, user, endpoint, online, ended) && id !in ended
    requires EndCall(t, id, user, endpoint, online).store == u
    ensures var done := EndCall(t, id, user, endpoint, online).reply == Done;
            Disconnected(s, u, user, endpoint, online, if done then ended + [id] else ended)
    ensures Settled(s, u, id, user, endpoint, online)
    ensures forall other :: Settled(s, t, other, user, endpoint, online) ==> Settled(s, u, other, user, endpoint, online)
  {
    EndFrame(t, id, user, endpoint, online);
    hide EndCall, MayEnd;
    var done := EndCall(t, id, user, endpoint, online).reply == Done;
    if done {
      assert forall x :: x in ended + [id] <==> x in ended || x == id;
      hide Named;
    }
  }

  class PresenceCoordinator {
    var now: int
    var calls: map<CallId, Call>
    var callUsers: map<UserId, Hold>
    var callDevices: map<Participant, Hold>
    var callExpiry: map<CallId, int>
    var admissions: map<UserId, Hold>
    var rooms: map<RoomId, Room>
    var roomUsers: map<UserId, Hold>
    var roomConversations: map<ConversationId, Hold>
    var roomExpiry: map<RoomId, int>

    function View(): Store
      reads this
    {
      Store(now, calls, callUsers, callDevices, callExpiry, admissions, rooms, roomUsers, roomConversations, roomExpiry)
    }

    constructor (start: int)
      ensures View() == Empty(start)
    {
      now := start;
      calls, callUsers, callDevices, callExpiry := map[], map[], map[], map[];
      admissions, rooms, roomUsers, roomConversations, roomExpiry := map[], map[], map[], map[], map[];
    }

    // ----- Admission tokens -----

    method NoneClaimed(users: seq<UserId>) returns (free: bool)
      ensures free <==> forall u <- users :: u !in admissions
    {
      for i := 0 to |users|
        invariant forall j :: 0 <= j < i ==> users[j] !in admissions
      {
        if users[i] in admissions { return false; }
      }
      return true;
    }

    /** Set each key unless it exists, which only a user listed twice makes happen. */
    method ClaimAll(users: seq<UserId>, token: Token)
      requires forall u <- users :: u !in admissions
      modifies this`admissions
      ensures admissions == old(admissions) + (map u <- users :: Hold(token, now + ADMISSION_TTL))
    {
      for i := 0 to |users|
        invariant admissions == old(admissions) + (map u <- users[..i] :: Hold(token, now + ADMISSION_TTL))
      {
        ghost var next := users[..i + 1];
        assert next == users[..i] + [users[i]];
        assert users[i] in users;
        if users[i] !in admissions {
          admissions := admissions[users[i] := Hold(token, now + ADMISSION_TTL)];
        }
      }
      assert users[..|users|] == users;
    }

    /** One script sets every key: after the first pass found them all absent, no other
        token can appear before the second pass has set them. */
    method AcquireCallAdmission(users: seq<UserId>, token: Token) returns (reply: Reply)
      modifies this`admissions
      ensures Effect(View(), reply) == AcquireAdmission(old(View()), users, token)
    {
      if |users| == 0 { return NotAllowed; }
      for i := 0 to |users|
        invariant 0 !in users[..i]
      {
        if users[i] == 0 { return NotAllowed; }
      }
      var free := NoneClaimed(users);
      if !free { return Busy; }
      ClaimAll(users, token);
      return Done;
    }

    method ReleaseCallAdmission(users: seq<UserId>, token: Token)
      modifies this`admissions
      ensures View() == ReleaseAdmission(old(View()), users, token).store
    {
      if token == 0 { return; }
      hide ReleaseAll;
      ReleaseNothing(admissions, token);
      for i := 0 to |users|
        invariant admissions == ReleaseAll(old(admissions), (set u <- users[..i]), token)
      {
        ghost var next := users[..i + 1];
        assert next == users[..i] + [users[i]];
        assert (set u <- next) == (set u <- users[..i]) + {users[i]};
        ReleaseAllGrows(old(admissions), (set u <- users[..i]), users[i], token);
        if users[i] in admissions && admissions[users[i]].id == token {
          admissions := admissions - {users[i]};
        }
      }
      assert users[..|users|] == users;
    }

    // ----- Direct calls -----

    method DeleteCallUser(user: UserId, id: CallId)
      modifies this`callUsers
      ensures callUsers == Release(old(callUsers), user, id)
    {
      if user in callUsers && callUsers[user].id == id {
        callUsers := callUsers - {user};
      }
    }

    method DeleteCallDevice(device: Participant, id: CallId)
      modifies this`callDevices
      ensures callDevices == Release(old(callDevices), device, id)
    {
      if device in callDevices && callDevices[device].id == id {
        callDevices := callDevices - {device};
      }
    }

    method DeleteCallDevices(call: Call, id: CallId)
      modifies this`callDevices
      ensures callDevices == ReleaseAll(old(callDevices), Devices(call), id)
    {
      hide Release, ReleaseAll, CallerDevice;
      DeleteCallDevice(CallerDevice(call), id);
      if call.accepted.Some? {
        var accepting := Participant(call.recipient, call.accepted.value.device);
        DeleteCallDevice(accepting, id);
        ReleaseTwo(old(callDevices), CallerDevice(call), accepting, id);
        assert Devices(call) == {CallerDevice(call), accepting};
      } else {
        ReleaseOne(old(callDevices), CallerDevice(call), id);
        assert Devices(call) == {CallerDevice(call)};
      }
    }

    /** The statements with which every script ends a call. */
    method FinishCall(id: CallId)
      requires id in calls
      modifies this`calls, this`callUsers, this`callDevices, this`callExpiry
      ensures View() == CloseCall(old(View()), id, Devices(old(calls)[id]))
    {
      hide Release, ReleaseAll, Devices;
      var call := calls[id];
      calls := calls[id := call.(status := Ended, until := now + ENDED_TTL)];
      DeleteCallUser(call.caller, id);
      DeleteCallUser(call.recipient, id);
      DeleteCallDevices(call, id);
      callExpiry := callExpiry - {id};
      ReleaseTwo(old(callUsers), call.caller, call.recipient, id);
    }

    /** A call nobody answered has one device key. */
    method FinishRinging(id: CallId)
      requires id in calls
      modifies this`calls, this`callUsers, this`callDevices, this`callExpiry
      ensures View() == CloseCall(old(View()), id, {CallerDevice(old(calls)[id])})
    {
      hide Release, ReleaseAll, CallerDevice;
      var call := calls[id];
      calls := calls[id := call.(status := Ended, until := now + ENDED_TTL)];
      DeleteCallUser(call.caller, id);
      DeleteCallUser(call.recipient, id);
      DeleteCallDevice(CallerDevice(call), id);
      callExpiry := callExpiry - {id};
      ReleaseTwo(old(callUsers), call.caller, call.recipient, id);
      ReleaseOne(old(callDevices), CallerDevice(call), id);
    }

    method Recover(id: CallId, caller: UserId, recipient: UserId, online: Presence)
      modifies this`calls, this`callUsers, this`callDevices, this`callExpiry
      ensures View() == RecoverStaleCall(old(View()), id, caller, recipient, online)
    {
      hide Stale, CloseCall, Devices, ReleaseAll;
      if id !in calls {
        DeleteCallUser(caller, id);
        DeleteCallUser(recipient, id);
        ReleaseTwo(old(callUsers), caller, recipient, id);
      } else if Stale(calls[id], online) {
        FinishCall(id);
      }
    }

    method Start(id: CallId, conversation: ConversationId, caller: UserId, recipient: UserId, endpoint: Endpoint,
                 token: Token, online: Presence) returns (reply: Reply)
      modifies this
      ensures Effect(View(), reply) == StartCall(old(View()), id, conversation, caller, recipient, endpoint, token, online)
    {
      hide RecoverStaleCall, Online, RingCall, Admitted;
      if token == 0 { return NotAllowed; }
      if !Admitted(View(), caller, token) || !Admitted(View(), recipient, token) { return Busy; }
      if caller in roomUsers || recipient in roomUsers { return Busy; }
      if caller in callUsers || recipient in callUsers {
        var existing := if caller in callUsers then callUsers[caller].id else callUsers[recipient].id;
        Recover(existing, caller, recipient, online);
      }
      assert View() == Recovered(old(View()), caller, recipient, online);
      if caller in callUsers || recipient in callUsers { return Busy; }
      if !Online(online, recipient) { return Unavailable; }
      Ring(id, conversation, caller, recipient, endpoint);
      return Done;
    }

    method Ring(id: CallId, conversation: ConversationId, caller: UserId, recipient: UserId, endpoint: Endpoint)
      modifies this`calls, this`callUsers, this`callDevices, this`callExpiry
      ensures View() == RingCall(old(View()), id, conversation, caller, recipient, endpoint)
    {
      calls := calls[id := Call(conversation, caller, recipient, endpoint, None, Ringing, now + RING_TTL, now + 60_000)];
      callUsers := callUsers[caller := Hold(id, now + RING_TTL)];
      callUsers := callUsers[recipient := Hold(id, now + RING_TTL)];
      callDevices := callDevices[Participant(caller, endpoint.device) := Hold(id, now + RING_TTL)];
      callExpiry := callExpiry[id := now + RING_TTL];
    }

    method Accept(id: CallId, user: UserId, endpoint: Endpoint) returns (reply: Reply)
      modifies this`calls, this`callUsers, this`callDevices, this`callExpiry
      ensures Effect(View(), reply) == AcceptCall(old(View()), id, user, endpoint)
    {
      hide ActivateCall;
      if id !in calls { return NotFound; }
      if calls[id].status != Ringing || calls[id].expiresAt <= now { return Taken; }
      if calls[id].recipient != user { return NotAllowed; }
      Activate(id, user, endpoint);
      return Done;
    }

    method Activate(id: CallId, user: UserId, endpoint: Endpoint)
      requires id in calls
      modifies this`calls, this`callUsers, this`callDevices, this`callExpiry
      ensures View() == ActivateCall(old(View()), id, user, endpoint)
    {
      hide CallerDevice;
      var call := calls[id];
      var activeUntil := now + ACTIVE_TTL;
      var hold := Hold(id, activeUntil);
      calls := calls[id := call.(accepted := Some(endpoint), status := Active, expiresAt := activeUntil, until := activeUntil)];
      callUsers := callUsers[call.caller := hold];
      callUsers := callUsers[user := hold];
      callDevices := callDevices[CallerDevice(call) := hold];
      callDevices := callDevices[Participant(user, endpoint.device) := hold];
      callExpiry := callExpiry[id := activeUntil];
    }

    method Decline(id: CallId, user: UserId) returns (reply: Reply)
      modifies this`calls, this`callUsers, this`callDevices, this`callExpiry
      ensures Effect(View(), reply) == DeclineCall(old(View()), id, user)
    {
      if id !in calls { return NotFound; }
      if calls[id].status != Ringing { return Taken; }
      if calls[id].recipient != user { return NotAllowed; }
      FinishRinging(id);
      return Done;
    }

    method Cancel(id: CallId, user: UserId, endpoint: Endpoint) returns (reply: Reply)
      modifies this`calls, this`callUsers, this`callDevices, this`callExpiry
      ensures Effect(View(), reply) == CancelCall(old(View()), id, user, endpoint)
    {
      if id !in calls { return NotFound; }
      var call := calls[id];
      if call.status != Ringing { return Taken; }
      if call.caller != user || call.callerEndpoint.device != endpoint.device { return NotAllowed; }
      if call.callerEndpoint.connection != 0 && call.callerEndpoint.connection != endpoint.connection { return NotAllowed; }
      FinishRinging(id);
      return Done;
    }

    method End(id: CallId, user: UserId, endpoint: Endpoint, online: Presence) returns (reply: Reply)
      modifies this`calls, this`callUsers, this`callDevices, this`callExpiry
      ensures Effect(View(), reply) == EndCall(old(View()), id, user, endpoint, online)
    {
      hide CloseCall, Devices;
      if id !in calls { return NotFound; }
      if !MayEnd(calls[id], user, endpoint, online) { return NotAllowed; }
      if calls[id].status == Ended { return NotFound; }
      FinishCall(id);
      return Done;
    }

    method CallNamedBy(key: CallKey) returns (id: Option<CallId>)
      ensures id == Named(View(), key)
    {
      match key {
        case OfDevice(p) =>
          if p in callDevices { return Some(callDevices[p].id); }
        case OfUser(u) =>
          if u in callUsers { return Some(callUsers[u].id); }
      }
      return None;
    }

    /** A socket is gone: end the calls that its device key and its user key name, as far as
        the socket may.  Each call is tried once; the others stay as they are. */
    method EndByDevice(user: UserId, endpoint: Endpoint, online: Presence) returns (ended: seq<CallId>)
      modifies this`calls, this`callUsers, this`callDevices, this`callExpiry
      ensures Disconnected(old(View()), View(), user, endpoint, online, ended)
      ensures forall key <- [OfDevice(Participant(user, endpoint.device)), OfUser(user)] ::
                var id := Named(old(View()), key);
                id.Some? && id.value in old(calls) && MayEnd(old(calls)[id.value], user, endpoint, online)
                ==> id.value in calls && calls[id.value].status == Ended
    {
      hide EndCall, MayEnd;
      var keys := [OfDevice(Participant(user, endpoint.device)), OfUser(user)];
      var seen: set<CallId> := {};
      ended := [];
      ghost var before := View();
      for i := 0 to |keys|
        invariant Disconnected(before, View(), user, endpoint, online, ended)
        invariant forall id <- ended :: id in seen
        invariant forall id <- seen :: Settled(before, View(), id, user, endpoint, online)
        invariant forall j :: 0 <= j < i && Named(before, keys[j]).Some? ==> Named(before, keys[j]).value in seen
      {
        ghost var s := View();
        var named := CallNamedBy(keys[i]);
        StillNamed(before, s, user, endpoint, online, ended, keys[i]);
        if named.None? { continue; }
        var id := named.value;
        if id in seen { continue; }
        seen := seen + {id};
        var reply := End(id, user, endpoint, online);
        EndFrame(s, id, user, endpoint, online);
        DisconnectedStep(before, s, View(), user, endpoint, online, ended, id);
        if reply == Done {
          ended := ended + [id];
        }
      }
      assert forall key <- keys :: exists j :: 0 <= j < |keys| && keys[j] == key;
    }

    /** The script answers the whole batch; the timeouts reported are those of the calls
        that can be read afterwards. */
    method ExpireDueCalls(ids: seq<CallId>) returns (due: seq<CallId>, reported: seq<CallId>)
      modifies this`calls, this`callUsers, this`callDevices, this`callExpiry
      ensures View() == ExpireCalls(old(View()), ids)
      ensures due == ids && reported == Readable(View(), due)
    {
      due := SweepDueCalls(ids);
      reported := [];
      for i := 0 to |due|
        invariant reported == Readable(View(), due[..i]) && View() == ExpireCalls(old(View()), ids)
      {
        assert due[..i + 1][..i] == due[..i];
        if due[i] in calls {
          reported := reported + [due[i]];
        }
      }
      assert due[..|due|] == due;
    }

    method SweepDueCalls(ids: seq<CallId>) returns (due: seq<CallId>)
      modifies this`calls, this`callUsers, this`callDevices, this`callExpiry
      ensures View() == ExpireCalls(old(View()), ids) && due == ids
    {
      hide CloseCall, Devices;
      for i := 0 to |ids|
        invariant ExpireCalls(View(), ids[i..]) == ExpireCalls(old(View()), ids)
      {
        assert ids[i..][0] == ids[i] && ids[i..][1..] == ids[i + 1..];
        if ids[i] in calls {
          FinishCall(ids[i]);
        } else {
          callExpiry := callExpiry - {ids[i]};
        }
      }
      return ids;
    }

    // ----- Group rooms -----

    method StartGroupRoom(id: RoomId, conversation: ConversationId, membershipRevision: int, generation: int, socket: Socket,
                          token: Token) returns (reply: Reply)
      modifies this`rooms, this`roomUsers, this`roomConversations, this`roomExpiry
      ensures Effect(View(), reply) == StartRoom(old(View()), id, conversation, membershipRevision, generation, socket, token)
    {
      hide OpenRoom, Admitted;
      var user := socket.participant.user;
      if id == 0 || conversation == 0 || membershipRevision <= 0 || generation <= 0
         || user == 0 || socket.participant.device == 0 || socket.connection == 0
      {
        return NotAllowed;
      }
      if token == 0 { return NotAllowed; }
      if !Admitted(View(), user, token) { return Busy; }
      if id in rooms { return Unavailable; }
      if conversation in roomConversations || user in roomUsers || user in callUsers { return Busy; }
      Open(id, conversation, membershipRevision, generation, socket);
      return Done;
    }

    method Open(id: RoomId, conversation: ConversationId, membershipRevision: int, generation: int, socket: Socket)
      modifies this`rooms, this`roomUsers, this`roomConversations, this`roomExpiry
      ensures View() == OpenRoom(old(View()), id, conversation, membershipRevision, generation, socket)
    {
      var until := now + RING_TTL + ENDED_TTL;
      rooms := rooms[id := Room(conversation, membershipRevision, generation, 1, Ringing, now + RING_TTL,
                                [socket.participant], [socket], None, [], [], until)];
      roomConversations := roomConversations[conversation := Hold(id, until)];
      roomUsers := roomUsers[socket.participant.user := Hold(id, until)];
      roomExpiry := roomExpiry[id := now + RING_TTL];
    }

    /** The keys of participants who still hold the room get the room's new deadline. */
    method RenewUsers(participants: seq<Participant>, id: RoomId, until: int)
      modifies this`roomUsers
      ensures roomUsers == Renew(old(roomUsers), Users(participants), id, until)
    {
      hide Users, Renew;
      RenewNobody(roomUsers, id, until);
      for i := 0 to |participants|
        invariant roomUsers == Renew(old(roomUsers), Users(participants[..i]), id, until)
      {
        UsersGrow(participants, i);
        RenewGrows(old(roomUsers), Users(participants[..i]), participants[i].user, id, until);
        if participants[i].user in roomUsers && roomUsers[participants[i].user].id == id {
          roomUsers := roomUsers[participants[i].user := Hold(id, until)];
        }
      }
      assert participants[..|participants|] == participants;
    }

    method JoinGroupRoom(id: RoomId, socket: Socket, membershipRevision: int, token: Token) returns (reply: Reply)
      modifies this`rooms, this`roomUsers, this`roomConversations, this`roomExpiry
      ensures Effect(View(), reply) == JoinRoom(old(View()), id, socket, membershipRevision, token)
    {
      hide AddParticipant, Admitted;
      var user := socket.participant.user;
      if token == 0 { return NotAllowed; }
      if !Admitted(View(), user, token) { return Busy; }
      if id !in rooms { return NotFound; }
      var room := rooms[id];
      if room.status == Ended { return Unavailable; }
      if room.expiresAt <= now { return NotFound; }
      if user in roomUsers || user in callUsers { return Busy; }
      if room.membershipRevision != membershipRevision { return NotAllowed; }
      if |room.participants| >= ROOM_CAPACITY { return Full; }
      if room.conversation in roomConversations && roomConversations[room.conversation].id != id { return Busy; }
      Add(id, socket);
      return Done;
    }

    method Add(id: RoomId, socket: Socket)
      requires id in rooms
      modifies this`rooms, this`roomUsers, this`roomConversations, this`roomExpiry
      ensures View() == AddParticipant(old(View()), id, socket)
    {
      hide Renew, Users;
      var room := rooms[id];
      var until := now + ACTIVE_TTL + ENDED_TTL;
      var participants := room.participants + [socket.participant];
      rooms := rooms[id := room.(participants := participants, connections := room.connections + [socket],
                                 stateRevision := room.stateRevision + 1, status := Active,
                                 expiresAt := now + ACTIVE_TTL, until := until)];
      roomUsers := roomUsers[socket.participant.user := Hold(id, until)];
      RenewUsers(participants, id, until);
      roomConversations := roomConversations[room.conversation := Hold(id, until)];
      roomExpiry := roomExpiry[id := now + ACTIVE_TTL];
    }

    /** Delete the user keys of the participants that still name the room. */
    method DeleteRoomUsers(participants: seq<Participant>, id: RoomId)
      modifies this`roomUsers
      ensures roomUsers == ReleaseAll(old(roomUsers), Users(participants), id)
    {
      hide Users, ReleaseAll;
      ReleaseNothing(roomUsers, id);
      assert Users([]) == {} by { NoUsers(); }
      for i := 0 to |participants|
        invariant roomUsers == ReleaseAll(old(roomUsers), Users(participants[..i]), id)
      {
        UsersGrow(participants, i);
        ReleaseAllGrows(old(roomUsers), Users(participants[..i]), participants[i].user, id);
        if participants[i].user in roomUsers && roomUsers[participants[i].user].id == id {
          roomUsers := roomUsers - {participants[i].user};
        }
      }
      assert participants[..|participants|] == participants;
    }

    method DeleteRoomConversation(conversation: ConversationId, id: RoomId)
      modifies this`roomConversations
      ensures roomConversations == Release(old(roomConversations), conversation, id)
    {
      if conversation in roomConversations && roomConversations[conversation].id == id {
        roomConversations := roomConversations - {conversation};
      }
    }

    method LeaveGroupRoom(id: RoomId, socket: Socket) returns (reply: Reply)
      modifies this`rooms, this`roomUsers, this`roomConversations, this`roomExpiry
      ensures Effect(View(), reply) == LeaveRoom(old(View()), id, socket)
    {
      hide Without, KeptSockets, SocketsOf, ReleaseAll, Release, Users, CloseRoom;
      if id !in rooms { return NotFound; }
      var room := rooms[id];
      var connections := room.connections;
      if socket !in connections { return NotAllowed; }
      var kept, keptConnections := Remaining(room.participants, connections, socket.participant);
      var presenter := room.presenter;
      if presenter == Some(socket.participant) { presenter := None; }
      if |kept| == 0 {
        Vacate(id, presenter, socket.participant);
        return Done;
      }
      DeleteRoomUsers([socket.participant], id);
      OneUser(socket.participant);
      rooms := rooms[id := room.(presenter := presenter, stateRevision := room.stateRevision + 1,
                                 participants := kept, connections := keptConnections)];
      return Done;
    }

    /** The last participant has left: the room ends. */
    method Vacate(id: RoomId, presenter: Option<Participant>, leaver: Participant)
      requires id in rooms
      modifies this`rooms, this`roomUsers, this`roomConversations, this`roomExpiry
      ensures View() == CloseRoom(old(View()).(rooms := old(rooms)[id := old(rooms)[id].(presenter := presenter)]), id,
                                  {leaver.user}, false, true)
    {
      hide ReleaseAll, Release, Users;
      var room := rooms[id];
      DeleteRoomUsers([leaver], id);
      OneUser(leaver);
      rooms := rooms[id := room.(presenter := presenter, stateRevision := room.stateRevision + 1,
                                 endedParticipants := room.participants, endedConnections := room.connections,
                                 participants := [], connections := [], status := Ended, until := now + ENDED_TTL)];
      DeleteRoomConversation(room.conversation, id);
      roomExpiry := roomExpiry - {id};
    }

    /** The statements with which the other scripts end a room, save its conversation key. */
    method FinishRoom(id: RoomId, keepRoster: bool, keepPresenter: bool)
      requires id in rooms
      modifies this`rooms, this`roomUsers, this`roomExpiry
      ensures View() == CloseRoom(old(View()), id, Users(old(rooms)[id].participants), keepRoster, keepPresenter)
                        .(roomConversations := roomConversations)
    {
      hide Users, ReleaseAll, Release;
      var room := rooms[id];
      DeleteRoomUsers(room.participants, id);
      var closed := room.(stateRevision := room.stateRevision + 1, endedParticipants := room.participants,
                          endedConnections := room.connections, status := Ended, until := now + ENDED_TTL);
      if !keepRoster { closed := closed.(participants := [], connections := []); }
      if !keepPresenter { closed := closed.(presenter := None); }
      rooms := rooms[id := closed];
      roomExpiry := roomExpiry - {id};
    }

    method EndGroupRoom(id: RoomId, socket: Socket) returns (reply: Reply)
      modifies this`rooms, this`roomUsers, this`roomConversations, this`roomExpiry
      ensures Effect(View(), reply) == EndRoom(old(View()), id, socket)
    {
      hide ReleaseAll, Release, Users, ClosedRoom;
      if id !in rooms { return NotFound; }
      if socket !in rooms[id].connections { return NotAllowed; }
      DeleteRoomConversation(rooms[id].conversation, id);
      FinishRoom(id, false, true);
      return Done;
    }

    method SetGroupPresenter(id: RoomId, socket: Socket, presenting: bool) returns (reply: Reply)
      modifies this`rooms
      ensures Effect(View(), reply) == SetPresenter(old(View()), id, socket, presenting)
    {
      if id !in rooms { return NotFound; }
      var room := rooms[id];
      if socket !in room.connections { return NotAllowed; }
      if presenting {
        room := room.(presenter := Some(socket.participant));
      } else {
        if room.presenter.Some? && room.presenter.value != socket.participant { return NotAllowed; }
        room := room.(presenter := None);
      }
      rooms := rooms[id := room.(stateRevision := room.stateRevision + 1)];
      return Done;
    }

    /** `read` is what the conversation key held when it was looked up before the script. */
    method EndGroupRoomForMembershipChange(read: Option<RoomId>, id: RoomId, conversation: ConversationId, generation: int,
                                           stateRevision: int, membershipRevision: int) returns (reply: Reply)
      modifies this`rooms, this`roomUsers, this`roomConversations, this`roomExpiry
      ensures Effect(View(), reply) ==
              if read == Some(id) then EndRoomForMembership(old(View()), id, conversation, generation, stateRevision, membershipRevision)
              else Effect(old(View()), NotFound)
    {
      hide ReleaseAll, Release, Users, ClosedRoom;
      if read.None? { return NotFound; }
      if read.value != id { return NotFound; }
      if id !in rooms { return NotFound; }
      var room := rooms[id];
      if conversation !in roomConversations || roomConversations[conversation].id != id
         || room.generation != generation || room.stateRevision != stateRevision
         || room.membershipRevision >= membershipRevision || room.status == Ended
      {
        return NotAllowed;
      }
      FinishRoom(id, false, true);
      roomConversations := roomConversations - {conversation};
      return Done;
    }

    method AbortGroupRoomStart(id: RoomId, generation: int, socket: Socket) returns (reply: Reply)
      modifies this`rooms, this`roomUsers, this`roomConversations, this`roomExpiry
      ensures Effect(View(), reply) == AbortRoomStart(old(View()), id, generation, socket)
    {
      hide ReleaseAll, Release, Users, ClosedRoom;
      if id !in rooms { return NotFound; }
      if rooms[id].generation != generation { return NotAllowed; }
      if socket !in rooms[id].connections { return NotAllowed; }
      if rooms[id].status == Ended { return NotFound; }
      DeleteRoomConversation(rooms[id].conversation, id);
      FinishRoom(id, false, false);
      return Done;
    }

    method Expire(id: RoomId) returns (expired: bool)
      modifies this`rooms, this`roomUsers, this`roomConversations, this`roomExpiry
      ensures expired == Expired(old(View()), id) && View() == ExpireRoom(old(View()), id)
    {
      hide ReleaseAll, Release, Users, ClosedRoom;
      expired := id in rooms && rooms[id].status != Ended && rooms[id].expiresAt <= now;
      if expired {
        DeleteRoomConversation(rooms[id].conversation, id);
        FinishRoom(id, true, false);
      } else {
        roomExpiry := roomExpiry - {id};
      }
    }

    method ExpireGroupRooms(ids: seq<RoomId>) returns (claimed: seq<RoomId>)
      modifies this`rooms, this`roomUsers, this`roomConversations, this`roomExpiry
      ensures Sweep(View(), claimed) == ExpireRooms(old(View()), ids)
    {
      hide ExpireRoom, Expired;
      claimed := [];
      for i := 0 to |ids|
        invariant var rest := ExpireRooms(View(), ids[i..]);
                  Sweep(rest.store, claimed + rest.claimed) == ExpireRooms(old(View()), ids)
      {
        assert ids[i..][0] == ids[i] && ids[i..][1..] == ids[i + 1..];
        var expired := Expire(ids[i]);
        if expired {
          claimed := claimed + [ids[i]];
        }
      }
    }
  }

  /** The participants other than the leaver, and their sockets. */
  method Remaining(participants: seq<Participant>, connections: seq<Socket>, leaver: Participant)
    returns (kept: seq<Participant>, keptConnections: seq<Socket>)
    ensures kept == Without(participants, leaver)
    ensures keptConnections == KeptSockets(kept, connections)
  {
    kept, keptConnections := [], [];
    for i := 0 to |participants|
      invariant kept == Without(participants[..i], leaver)
      invariant keptConnections == KeptSockets(kept, connections)
    {
      var p := participants[i];
      assert participants[..i + 1] == participants[..i] + [p];
      WithoutGrows(participants[..i], p, leaver);
      if p != leaver {
        KeptSocketsGrow(kept, p, connections);
        ghost var earlier := keptConnections;
        for j := 0 to |connections|
          invariant keptConnections == earlier + SocketsOf(p, connections[..j])
        {
          assert connections[..j + 1] == connections[..j] + [connections[j]];
          SocketsGrow(p, connections[..j], connections[j]);
          if connections[j].participant == p {
            keptConnections := keptConnections + [connections[j]];
          }
        }
        assert connections[..|connections|] == connections;
        kept := kept + [p];
      }
    }
    assert participants[..|participants|] == participants;
  }

  lemma ReleaseNothing<K>(holds: map<K, Hold>, id: nat)
    ensures ReleaseAll(holds, {}, id) == holds
  {
  }

  lemma ReleaseOne<K>(holds: map<K, Hold>, key: K, id: nat)
    ensures Release(holds, key, id) == ReleaseAll(holds, {key}, id)
  {
  }

  lemma ReleaseTwo<K>(holds: map<K, Hold>, a: K, b: K, id: nat)
    ensures Release(Release(holds, a, id), b, id) == ReleaseAll(holds, {a, b}, id)
  {
  }

  lemma RenewNobody(holds: map<UserId, Hold>, id: RoomId, until: int)
    ensures Renew(holds, Users([]), id, until) == holds
  {
  }

  lemma NoUsers()
    ensures Users([]) == {}
  {
  }

  lemma OneUser(p: Participant)
    ensures Users([p]) == {p.user}
  {
    assert p in [p];
  }
}
