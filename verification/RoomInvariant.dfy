/** Every room script, admission and the clock keep the invariant of both machines. */
module RoomInvariant {
  import opened Options
  import opened CallStore
  import opened CallInvariant

  // ----- Rosters -----

  lemma {:induction false} WithoutKeeps(ps: seq<Participant>, leaver: Participant)
    ensures forall p :: p in Without(ps, leaver) <==> p in ps && p != leaver
    ensures |Without(ps, leaver)| <= |ps|
    ensures DistinctUsers(ps) ==> DistinctUsers(Without(ps, leaver))
    decreases |ps|
  {
    if ps != [] {
      var rest := Without(ps[1..], leaver);
      WithoutKeeps(ps[1..], leaver);
      assert forall p :: p in ps <==> p == ps[0] || p in ps[1..];
      if DistinctUsers(ps) {
        forall i, j | 0 <= i < j < |ps[1..]| ensures ps[1..][i].user != ps[1..][j].user {
          assert ps[1..][i] == ps[i + 1] && ps[1..][j] == ps[j + 1];
        }
        forall p | p in rest ensures p.user != ps[0].user {
          var i :| 0 <= i < |ps[1..]| && ps[1..][i] == p;
          assert ps[i + 1] == p;
        }
      }
    }
  }

  /** In an aligned roster without repeated users, a participant has exactly one socket. */
  lemma {:induction false} OneSocket(ps: seq<Participant>, connections: seq<Socket>, i: nat)
    requires Aligned(ps, connections) && DistinctUsers(ps) && i < |ps|
    ensures SocketsOf(ps[i], connections) == [connections[i]]
    decreases |ps|
  {
    assert Aligned(ps[1..], connections[1..]);
    if i == 0 {
      NoSocket(ps[1..], connections[1..], ps[0]);
    } else {
      assert ps[1..][i - 1] == ps[i] && connections[1..][i - 1] == connections[i];
      OneSocket(ps[1..], connections[1..], i - 1);
    }
  }

  lemma {:induction false} NoSocket(ps: seq<Participant>, connections: seq<Socket>, p: Participant)
    requires Aligned(ps, connections)
    requires forall q <- ps :: q.user != p.user
    ensures SocketsOf(p, connections) == []
    decreases |ps|
  {
    if ps != [] {
      assert connections[0].participant == ps[0];
      NoSocket(ps[1..], connections[1..], p);
    }
  }

  lemma {:induction false} KeptSocketsAligned(ps: seq<Participant>, connections: seq<Socket>, kept: seq<Participant>)
    requires Aligned(ps, connections) && DistinctUsers(ps)
    requires forall p <- kept :: p in ps
    ensures Aligned(kept, KeptSockets(kept, connections))
    decreases |kept|
  {
    if kept != [] {
      assert kept[0] in kept;
      var i :| 0 <= i < |ps| && ps[i] == kept[0];
      OneSocket(ps, connections, i);
      KeptSocketsAligned(ps, connections, kept[1..]);
    }
  }

  // ----- Ending a room -----

  lemma {:induction false} CloseRoomOthers(s: Store, id: RoomId, released: set<UserId>, keepRoster: bool, keepPresenter: bool)
    requires RoomsInv(s) && id in s.rooms
    ensures RoomsOk(CloseRoom(s, id, released, keepRoster, keepPresenter))
  {
    var t := CloseRoom(s, id, released, keepRoster, keepPresenter);
    forall other <- t.rooms ensures RoomOk(t, other) {
      assert RoomOk(s, other);
      assert RoomOk(s, id);
    }
  }

  lemma {:induction false} CloseRoomKeeps(s: Store, id: RoomId, released: set<UserId>, keepRoster: bool, keepPresenter: bool)
    requires Inv(s) && id in s.rooms
    requires s.rooms[id].status != Ended ==> Users(s.rooms[id].participants) <= released
    ensures Inv(CloseRoom(s, id, released, keepRoster, keepPresenter))
  {
    hide CallsInv, RoomsOk, Users;
    CloseRoomOthers(s, id, released, keepRoster, keepPresenter);
    CallsUntouched(s, CloseRoom(s, id, released, keepRoster, keepPresenter));
  }

  /** Replacing what a hash says about presenter and revision disturbs no index. */
  lemma {:induction false} PresenterKeeps(s: Store, id: RoomId, presenter: Option<Participant>, stateRevision: int)
    requires Inv(s) && id in s.rooms
    requires s.rooms[id].status != Ended && presenter.Some? ==> presenter.value in s.rooms[id].participants
    ensures Inv(s.(rooms := s.rooms[id := s.rooms[id].(presenter := presenter, stateRevision := stateRevision)]))
  {
    hide CallsInv;
    var t := s.(rooms := s.rooms[id := s.rooms[id].(presenter := presenter, stateRevision := stateRevision)]);
    forall other <- t.rooms ensures RoomOk(t, other) {
      assert RoomOk(s, other);
    }
    CallsUntouched(s, t);
  }

  // ----- The scripts -----

  lemma {:induction false} OpenRoomRooms(s: Store, id: RoomId, conversation: ConversationId, membershipRevision: int,
                                         generation: int, socket: Socket)
    requires RoomsOk(s)
    requires id !in s.rooms && conversation !in s.roomConversations && socket.participant.user !in s.roomUsers
    ensures RoomsOk(OpenRoom(s, id, conversation, membershipRevision, generation, socket))
  {
    var t := OpenRoom(s, id, conversation, membershipRevision, generation, socket);
    assert RosterOk(t.rooms[id]);
    hide RosterOk;
    forall other <- t.rooms ensures RoomOk(t, other) {
      if other != id { assert RoomOk(s, other); }
    }
  }

  lemma {:induction false} OpenRoomKeeps(s: Store, id: RoomId, conversation: ConversationId, membershipRevision: int,
                                         generation: int, socket: Socket)
    requires RoomsInv(s)
    requires id !in s.rooms && conversation !in s.roomConversations && socket.participant.user !in s.roomUsers
    ensures RoomsInv(OpenRoom(s, id, conversation, membershipRevision, generation, socket))
  {
    hide RoomsOk;
    OpenRoomRooms(s, id, conversation, membershipRevision, generation, socket);
    assert socket.participant in OpenRoom(s, id, conversation, membershipRevision, generation, socket).rooms[id].participants;
  }

  lemma {:induction false} StartRoomKeeps(s: Store, id: RoomId, conversation: ConversationId, membershipRevision: int,
                                          generation: int, socket: Socket, token: Token)
    requires Inv(s)
    ensures Inv(StartRoom(s, id, conversation, membershipRevision, generation, socket, token).store)
  {
    hide CallsInv, RoomsInv;
    var e := StartRoom(s, id, conversation, membershipRevision, generation, socket, token);
    if e.reply == Done {
      OpenRoomKeeps(s, id, conversation, membershipRevision, generation, socket);
      CallsUntouched(s, e.store);
    }
  }

  lemma {:induction false} UsersOfAppend(ps: seq<Participant>, p: Participant)
    ensures Users(ps + [p]) == Users(ps) + {p.user}
  {
    assert forall q :: q in ps + [p] <==> q in ps || q == p;
  }

  lemma {:induction false} JoinedRoster(room: Room, socket: Socket, joined: Room)
    requires RosterOk(room) && |room.participants| < ROOM_CAPACITY && socket.participant.user !in Users(room.participants)
    requires joined.participants == room.participants + [socket.participant]
    requires joined.connections == room.connections + [socket] && joined.presenter == room.presenter
    ensures RosterOk(joined)
  {
    forall p <- room.participants ensures p.user != socket.participant.user {
      assert p.user in Users(room.participants);
    }
  }

  ghost predicate Joinable(s: Store, id: RoomId, user: UserId) {
    id in s.rooms && s.rooms[id].status != Ended && |s.rooms[id].participants| < ROOM_CAPACITY && user !in s.roomUsers
  }

  lemma {:induction false} AddParticipantChanged(s: Store, id: RoomId, socket: Socket)
    requires RoomsOk(s) && Joinable(s, id, socket.participant.user)
    ensures RoomOk(AddParticipant(s, id, socket), id)
  {
    var t := AddParticipant(s, id, socket);
    var room, joined := s.rooms[id], t.rooms[id];
    assert RoomOk(s, id);
    assert forall p <- room.participants :: p.user in s.roomUsers;
    JoinedRoster(room, socket, joined);
    hide RosterOk;
  }

  lemma {:induction false} AddParticipantRooms(s: Store, id: RoomId, socket: Socket)
    requires RoomsInv(s) && Joinable(s, id, socket.participant.user)
    ensures RoomsOk(AddParticipant(s, id, socket))
  {
    hide RosterOk, RoomConversationsOk;
    var t := AddParticipant(s, id, socket);
    AddParticipantChanged(s, id, socket);
    forall other <- t.rooms ensures RoomOk(t, other) {
      if other != id {
        assert RoomOk(s, other);
        assert RoomOk(s, id);
      }
    }
  }

  lemma {:induction false} AddParticipantIndexes(s: Store, id: RoomId, socket: Socket)
    requires RoomsInv(s) && Joinable(s, id, socket.participant.user)
    ensures RoomUsersOk(AddParticipant(s, id, socket)) && RoomConversationsOk(AddParticipant(s, id, socket))
  {
    UsersOfAppend(s.rooms[id].participants, socket.participant);
    hide RoomsOk, Users;
  }

  lemma {:induction false} JoinRoomKeeps(s: Store, id: RoomId, socket: Socket, membershipRevision: int, token: Token)
    requires Inv(s)
    ensures Inv(JoinRoom(s, id, socket, membershipRevision, token).store)
  {
    hide CallsInv, RoomsOk, RoomUsersOk, RoomConversationsOk;
    var e := JoinRoom(s, id, socket, membershipRevision, token);
    if e.reply == Done {
      AddParticipantRooms(s, id, socket);
      AddParticipantIndexes(s, id, socket);
      CallsUntouched(s, e.store);
    }
  }

  lemma {:induction false} RemainingRoster(room: Room, socket: Socket, left: Room)
    requires RosterOk(room) && socket in room.connections
    requires left.participants == Without(room.participants, socket.participant) && left.participants != []
    requires left.connections == KeptSockets(left.participants, room.connections)
    requires left.presenter == if room.presenter == Some(socket.participant) then None else room.presenter
    ensures RosterOk(left)
  {
    WithoutKeeps(room.participants, socket.participant);
    KeptSocketsAligned(room.participants, room.connections, left.participants);
  }

  lemma {:induction false} RosterUser(room: Room, socket: Socket)
    requires RosterOk(room) && socket in room.connections
    ensures socket.participant in room.participants
    ensures forall p <- Without(room.participants, socket.participant) :: p in room.participants && p.user != socket.participant.user
  {
    WithoutKeeps(room.participants, socket.participant);
  }

  lemma {:induction false} LeaveRoomChanged(s: Store, id: RoomId, socket: Socket)
    requires RoomsOk(s) && LeaveRoom(s, id, socket).reply == Done
    requires Without(s.rooms[id].participants, socket.participant) != []
    ensures RoomOk(LeaveRoom(s, id, socket).store, id)
  {
    hide RosterOk, Without, KeptSockets;
    var t := LeaveRoom(s, id, socket).store;
    var room := s.rooms[id];
    assert RoomOk(s, id);
    if room.status != Ended {
      RemainingRoster(room, socket, t.rooms[id]);
      RosterUser(room, socket);
    }
  }

  lemma {:induction false} LeaveRoomRooms(s: Store, id: RoomId, socket: Socket)
    requires RoomsInv(s) && LeaveRoom(s, id, socket).reply == Done
    requires Without(s.rooms[id].participants, socket.participant) != []
    ensures RoomsOk(LeaveRoom(s, id, socket).store)
  {
    var t := LeaveRoom(s, id, socket).store;
    LeaveRoomChanged(s, id, socket);
    hide RosterOk, Without, KeptSockets, RoomConversationsOk;
    forall other <- t.rooms ensures RoomOk(t, other) {
      if other != id { assert RoomOk(s, other); }
    }
  }

  lemma {:induction false} LeaveRoomUsers(s: Store, id: RoomId, socket: Socket)
    requires RoomsInv(s) && LeaveRoom(s, id, socket).reply == Done
    requires Without(s.rooms[id].participants, socket.participant) != []
    ensures RoomUsersOk(LeaveRoom(s, id, socket).store)
  {
    WithoutKeeps(s.rooms[id].participants, socket.participant);
    hide RoomsOk, RoomConversationsOk, Without, KeptSockets;
  }

  lemma {:induction false} LastLeaves(s: Store, id: RoomId, socket: Socket)
    requires Inv(s) && LeaveRoom(s, id, socket).reply == Done
    requires Without(s.rooms[id].participants, socket.participant) == []
    ensures Inv(LeaveRoom(s, id, socket).store)
  {
    hide CallsInv, RoomsOk, RoomUsersOk, RoomConversationsOk, Exclusive, CloseRoom;
    var room := s.rooms[id];
    var presenter := if room.presenter == Some(socket.participant) then None else room.presenter;
    var u := s.(rooms := s.rooms[id := room.(presenter := presenter)]);
    LeaverWasAlone(s, id, socket);
    PresenterKeeps(s, id, presenter, room.stateRevision);
    assert u.rooms[id] == room.(presenter := presenter, stateRevision := room.stateRevision);
    CloseRoomKeeps(u, id, {socket.participant.user}, false, true);
  }

  lemma {:induction false} LeaveRoomKeeps(s: Store, id: RoomId, socket: Socket)
    requires Inv(s)
    ensures Inv(LeaveRoom(s, id, socket).store)
  {
    hide CallsInv, RoomsOk, RoomUsersOk, Without, CloseRoom;
    var e := LeaveRoom(s, id, socket);
    if e.reply == Done {
      if Without(s.rooms[id].participants, socket.participant) == [] {
        LastLeaves(s, id, socket);
      } else {
        LeaveRoomRooms(s, id, socket);
        LeaveRoomUsers(s, id, socket);
        CallsUntouched(s, e.store);
      }
    }
  }

  lemma {:induction false} LeaverWasAlone(s: Store, id: RoomId, socket: Socket)
    requires RoomsOk(s) && id in s.rooms
    requires Without(s.rooms[id].participants, socket.participant) == []
    ensures Users(s.rooms[id].participants) <= {socket.participant.user}
    ensures s.rooms[id].status != Ended && s.rooms[id].presenter.Some? ==> s.rooms[id].presenter.value in s.rooms[id].participants
  {
    WithoutKeeps(s.rooms[id].participants, socket.participant);
    assert RoomOk(s, id);
  }

  lemma {:induction false} EndRoomKeeps(s: Store, id: RoomId, socket: Socket)
    requires Inv(s)
    ensures Inv(EndRoom(s, id, socket).store)
  {
    hide CloseRoom, Inv;
    if id in s.rooms {
      CloseRoomKeeps(s, id, Users(s.rooms[id].participants), false, true);
    }
  }

  lemma {:induction false} SetPresenterKeeps(s: Store, id: RoomId, socket: Socket, presenting: bool)
    requires Inv(s)
    ensures Inv(SetPresenter(s, id, socket, presenting).store)
  {
    hide CallsInv;
    if SetPresenter(s, id, socket, presenting).reply == Done {
      var room := s.rooms[id];
      assert RoomOk(s, id);
      PresenterKeeps(s, id, if presenting then Some(socket.participant) else None, room.stateRevision + 1);
    }
  }

  lemma {:induction false} EndRoomForMembershipKeeps(s: Store, id: RoomId, conversation: ConversationId, generation: int,
                                                     stateRevision: int, membershipRevision: int)
    requires Inv(s)
    ensures Inv(EndRoomForMembership(s, id, conversation, generation, stateRevision, membershipRevision).store)
  {
    hide CallsInv, RoomsOk;
    var e := EndRoomForMembership(s, id, conversation, generation, stateRevision, membershipRevision);
    if e.reply == Done {
      var closed := CloseRoom(s, id, Users(s.rooms[id].participants), false, true);
      CloseRoomKeeps(s, id, Users(s.rooms[id].participants), false, true);
      assert closed.roomConversations == s.roomConversations - {conversation};
    }
  }

  lemma {:induction false} AbortRoomStartKeeps(s: Store, id: RoomId, generation: int, socket: Socket)
    requires Inv(s)
    ensures Inv(AbortRoomStart(s, id, generation, socket).store)
  {
    hide CloseRoom, Inv;
    if id in s.rooms {
      CloseRoomKeeps(s, id, Users(s.rooms[id].participants), false, false);
    }
  }

  /** Dropping an index entry is safe unless the entry is the deadline of a live room. */
  lemma {:induction false} ExpireRoomKeeps(s: Store, id: RoomId)
    requires Inv(s)
    requires id in s.roomExpiry ==> s.roomExpiry[id] <= s.now
    ensures Inv(ExpireRoom(s, id))
  {
    hide CallsInv, CloseRoom;
    if Expired(s, id) {
      CloseRoomKeeps(s, id, Users(s.rooms[id].participants), true, false);
    } else {
      var t := ExpireRoom(s, id);
      forall other <- t.rooms ensures RoomOk(t, other) {
        assert RoomOk(s, other);
      }
      CallsUntouched(s, t);
    }
  }

  lemma {:induction false} CloseRoomExpiry(s: Store, id: RoomId, released: set<UserId>, keepRoster: bool, keepPresenter: bool)
    requires id in s.rooms
    ensures var t := CloseRoom(s, id, released, keepRoster, keepPresenter);
            t.now == s.now && t.roomExpiry == s.roomExpiry - {id}
  {
    hide ReleaseAll, Release;
  }

  lemma {:induction false} ExpiryShrinks(s: Store, id: RoomId)
    ensures var t := ExpireRoom(s, id);
            t.now == s.now && t.roomExpiry == s.roomExpiry - {id}
  {
    hide CloseRoom, Users;
    if Expired(s, id) {
      CloseRoomExpiry(s, id, Users(s.rooms[id].participants), true, false);
    }
  }

  lemma {:induction false} ExpireRoomsKeeps(s: Store, ids: seq<RoomId>)
    requires Inv(s)
    requires forall id <- ids :: id in s.roomExpiry ==> s.roomExpiry[id] <= s.now
    ensures Inv(ExpireRooms(s, ids).store)
    decreases |ids|
  {
    hide Inv, CloseRoom, Expired;
    if ids != [] {
      assert ids[0] in ids;
      ExpiryShrinks(s, ids[0]);
      ExpireRoomKeeps(s, ids[0]);
      ExpireRoomsKeeps(ExpireRoom(s, ids[0]), ids[1..]);
    }
  }

  // ----- Admission and the clock -----

  lemma {:induction false} AdmissionKeeps(s: Store, admissions: map<UserId, Hold>)
    requires Inv(s)
    ensures Inv(s.(admissions := admissions))
  {
    var t := s.(admissions := admissions);
    CallsUntouched(s, t);
    RoomsUntouched(s, t);
  }

  lemma {:induction false} TickCallUsers(s: Store, now: int)
    requires CallUsersOk(s)
    ensures CallUsersOk(Tick(s, now))
  {
    var t := Tick(s, now);
    forall u <- t.callUsers ensures CallUserOk(t, u) { assert CallUserOk(s, u); }
  }

  lemma {:induction false} TickCallDevices(s: Store, now: int)
    requires CallDevicesOk(s)
    ensures CallDevicesOk(Tick(s, now))
  {
    hide Devices;
    var t := Tick(s, now);
    forall d <- t.callDevices ensures CallDeviceOk(t, d) { assert CallDeviceOk(s, d); }
  }

  lemma {:induction false} TickCalls(s: Store, now: int)
    requires CallsOk(s)
    ensures CallsOk(Tick(s, now))
  {
    var t := Tick(s, now);
    forall id <- t.calls ensures CallOk(t, id) { assert CallOk(s, id); }
  }

  lemma {:induction false} TickRooms(s: Store, now: int)
    requires RoomsInv(s)
    ensures RoomsInv(Tick(s, now))
  {
    TickKeepsRooms(s, now);
    hide RoomsOk;
  }

  lemma {:induction false} TickKeepsRooms(s: Store, now: int)
    requires RoomsOk(s)
    ensures RoomsOk(Tick(s, now))
  {
    hide RosterOk;
    var t := Tick(s, now);
    forall id <- t.rooms ensures RoomOk(t, id) { assert RoomOk(s, id); }
  }

  lemma {:induction false} TickKeeps(s: Store, now: int)
    requires Inv(s)
    ensures Inv(Tick(s, now))
  {
    hide CallUsersOk, CallDevicesOk, CallsOk, RoomsInv;
    TickCallUsers(s, now);
    TickCallDevices(s, now);
    TickCalls(s, now);
    TickRooms(s, now);
  }
}
