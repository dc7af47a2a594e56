/** Who may change a group room, and what each change leaves: laws of every reachable store. */
module RoomLaws {
  import opened Options
  import opened CallStore
  import opened CallInvariant
  import opened RoomInvariant
  import opened CallRuns
  import opened CallHistory
  import opened CallLaws

  function RemoveAt<T>(q: seq<T>, i: nat): seq<T>
    requires i < |q|
  {
    q[..i] + q[i + 1..]
  }

  // ----- What each change leaves of a room -----

  function Grown(r: Room, socket: Socket, now: int): Room {
    r.(participants := r.participants + [socket.participant], connections := r.connections + [socket],
       stateRevision := r.stateRevision + 1, status := Active, expiresAt := now + 7_200_000, until := now + 7_260_000)
  }

  function Finished(r: Room, now: int): Room {
    r.(stateRevision := r.stateRevision + 1, status := Ended, participants := [], connections := [],
       endedParticipants := r.participants, endedConnections := r.connections, until := now + 60_000)
  }

  function TimedOut(r: Room, now: int): Room {
    r.(stateRevision := r.stateRevision + 1, status := Ended, presenter := None,
       endedParticipants := r.participants, endedConnections := r.connections, until := now + 60_000)
  }

  function Opened(conversation: ConversationId, membershipRevision: int, generation: int, socket: Socket, now: int): Room {
    Room(conversation, membershipRevision, generation, 1, Ringing, now + 30_000, [socket.participant], [socket], None, [], [],
         now + 90_000)
  }

  function PresenterAfter(r: Room, leaver: Participant): Option<Participant> {
    if r.presenter == Some(leaver) then None else r.presenter
  }

  /** Who leaves is taken out and nobody else; the last one's leave ends the room. */
  ghost predicate LeftBy(r: Room, d: Room, socket: Socket, now: int) {
    var stepped := r.(presenter := PresenterAfter(r, socket.participant));
    && (forall q :: q in d.participants <==> q in r.participants && q != socket.participant)
    && (if d.participants == [] then d == Finished(stepped, now)
        else d == stepped.(participants := d.participants, connections := d.connections, stateRevision := r.stateRevision + 1))
  }

  ghost predicate ChangedBy(s: Store, id: RoomId, d: Room, c: Command)
    requires id in s.rooms
  {
    var r := s.rooms[id];
    match c
    case Join(other, socket, membershipRevision, token) =>
      && other == id && r.status != Ended && s.now < r.expiresAt && r.membershipRevision == membershipRevision
      && |r.participants| < 4 && Free(s, socket.participant.user, token) && d == Grown(r, socket, s.now)
    case Leave(other, socket) => other == id && socket in r.connections && LeftBy(r, d, socket, s.now)
    case EndGroup(other, socket) => other == id && socket in r.connections && d == Finished(r, s.now)
    case Present(other, socket, presenting) =>
      && other == id && socket in r.connections && (presenting || r.presenter.None? || r.presenter == Some(socket.participant))
      && d == r.(presenter := if presenting then Some(socket.participant) else None, stateRevision := r.stateRevision + 1)
    case MembershipChanged(other, conversation, generation, stateRevision, membershipRevision) =>
      && other == id && r.conversation == conversation && r.generation == generation && r.stateRevision == stateRevision
      && r.membershipRevision < membershipRevision && r.status != Ended && d == Finished(r, s.now)
    case Abort(other, generation, socket) =>
      && other == id && r.generation == generation && socket in r.connections && r.status != Ended
      && d == Finished(r, s.now).(presenter := None)
    case SweepRooms(ids, _) => id in ids && r.status != Ended && r.expiresAt <= s.now && d == TimedOut(r, s.now)
    case _ => false
  }

  /** The user is admitted with this token and in no call and no room. */
  predicate Free(s: Store, user: UserId, token: Token) {
    && token != 0 && user in s.admissions && s.admissions[user].id == token
    && user !in s.roomUsers && user !in s.callUsers
  }

  ghost predicate RoomsLawful(s: Store, t: Store, c: Command) {
    && (forall id <- s.rooms :: id in t.rooms ==> t.rooms[id] == s.rooms[id] || ChangedBy(s, id, t.rooms[id], c))
    && (forall id <- t.rooms :: id !in s.rooms ==>
          && c.StartGroup? && c.room == id && Free(s, c.socket.participant.user, c.token)
          && t.rooms[id] == Opened(c.conversation, c.membershipRevision, c.generation, c.socket, s.now))
    && (forall id <- s.rooms :: id !in t.rooms ==> c.Wait? && s.rooms[id].until <= t.now)
  }

  // ----- One script at a time -----

  lemma ClosedRoomIs(s: Store, id: RoomId, released: set<UserId>, keepRoster: bool, keepPresenter: bool)
    requires id in s.rooms
    ensures var t := CloseRoom(s, id, released, keepRoster, keepPresenter);
            && t.now == s.now && t.rooms == s.rooms[id := ClosedRoom(s.rooms[id], s.now, keepRoster, keepPresenter)]
  {
    hide ReleaseAll, Release;
  }

  lemma {:induction false} SweepTimesOut(s: Store, ids: seq<RoomId>)
    ensures var t := ExpireRooms(s, ids).store;
            && t.now == s.now && t.rooms.Keys == s.rooms.Keys
            && forall id <- s.rooms :: SweptRoom(s, t, ids, id)
    decreases |ids|
  {
    if ids != [] {
      var t := ExpireRoom(s, ids[0]);
      TimesOutOne(s, ids[0]);
      SweepTimesOut(t, ids[1..]);
      hide ExpireRoom;
      var u := ExpireRooms(t, ids[1..]).store;
      forall id <- s.rooms ensures SweptRoom(s, u, ids, id) { assert SweptRoom(t, u, ids[1..], id); }
    }
  }

  ghost predicate SweptRoom(s: Store, t: Store, ids: seq<RoomId>, id: RoomId) {
    && id in s.rooms && id in t.rooms
    && t.rooms[id] == if id in ids && s.rooms[id].status != Ended && s.rooms[id].expiresAt <= s.now then TimedOut(s.rooms[id], s.now)
                      else s.rooms[id]
  }

  lemma {:induction false} TimesOutOne(s: Store, id: RoomId)
    ensures var t := ExpireRoom(s, id);
            && t.now == s.now && t.rooms.Keys == s.rooms.Keys
            && forall other <- s.rooms :: SweptRoom(s, t, [id], other)
  {
    hide CloseRoom, Users;
    if Expired(s, id) { ClosedRoomIs(s, id, Users(s.rooms[id].participants), true, false); }
  }

  lemma {:induction false} LeaveIsLawful(s: Store, id: RoomId, socket: Socket)
    requires id in s.rooms && socket in s.rooms[id].connections
    ensures var t := LeaveRoom(s, id, socket).store;
            && id in t.rooms && LeftBy(s.rooms[id], t.rooms[id], socket, s.now)
            && (forall other <- t.rooms :: other != id ==> other in s.rooms && t.rooms[other] == s.rooms[other])
  {
    var r := s.rooms[id];
    WithoutKeeps(r.participants, socket.participant);
    var stepped := s.(rooms := s.rooms[id := r.(presenter := PresenterAfter(r, socket.participant))]);
    ClosedRoomIs(stepped, id, {socket.participant.user}, false, true);
    hide CloseRoom, Without, KeptSockets, ReleaseAll;
    var t := LeaveRoom(s, id, socket).store;
    if Without(r.participants, socket.participant) == [] {
      assert t == CloseRoom(stepped, id, {socket.participant.user}, false, true);
    }
  }

  lemma {:induction false} JoinIsLawful(s: Store, id: RoomId, socket: Socket, membershipRevision: int, token: Token)
    requires Inv(s)
    ensures var e := JoinRoom(s, id, socket, membershipRevision, token);
            && (e.reply == Done <==>
                  && id in s.rooms && s.rooms[id].status != Ended && s.now < s.rooms[id].expiresAt
                  && s.rooms[id].membershipRevision == membershipRevision && |s.rooms[id].participants| < 4
                  && Free(s, socket.participant.user, token))
            && e.store.rooms == if e.reply == Done then s.rooms[id := Grown(s.rooms[id], socket, s.now)] else s.rooms
  {
    if id in s.rooms { assert RoomOk(s, id); }
    hide Inv, Renew, Users;
  }

  lemma {:induction false} PresentIsLawful(s: Store, id: RoomId, socket: Socket, presenting: bool)
    ensures var e := SetPresenter(s, id, socket, presenting);
            && (e.reply == Done <==>
                  && id in s.rooms && socket in s.rooms[id].connections
                  && (presenting || s.rooms[id].presenter.None? || s.rooms[id].presenter == Some(socket.participant)))
            && e.store.rooms == if e.reply == Done
                                then s.rooms[id := s.rooms[id].(presenter := if presenting then Some(socket.participant) else None,
                                                                stateRevision := s.rooms[id].stateRevision + 1)]
                                else s.rooms
  {
  }

  lemma {:induction false} EndIsLawful(s: Store, id: RoomId, socket: Socket)
    ensures var e := EndRoom(s, id, socket);
            && (e.reply == Done <==> id in s.rooms && socket in s.rooms[id].connections)
            && e.store.rooms == if e.reply == Done then s.rooms[id := Finished(s.rooms[id], s.now)] else s.rooms
  {
    if id in s.rooms { ClosedRoomIs(s, id, Users(s.rooms[id].participants), false, true); }
    hide CloseRoom, Users;
  }

  lemma {:induction false} AbortIsLawful(s: Store, id: RoomId, generation: int, socket: Socket)
    ensures var e := AbortRoomStart(s, id, generation, socket);
            && (e.reply == Done <==>
                  && id in s.rooms && socket in s.rooms[id].connections && s.rooms[id].generation == generation
                  && s.rooms[id].status != Ended)
            && e.store.rooms == if e.reply == Done then s.rooms[id := Finished(s.rooms[id], s.now).(presenter := None)] else s.rooms
  {
    if id in s.rooms { ClosedRoomIs(s, id, Users(s.rooms[id].participants), false, false); }
    hide CloseRoom, Users;
  }

  /** A membership change ends the room exactly when it is the one observed and was stored
      under an older membership. */
  lemma {:induction false} MembershipEndIsLawful(s: Store, id: RoomId, conversation: ConversationId, generation: int, stateRevision: int,
                                                 membershipRevision: int)
    requires Inv(s)
    ensures var e := EndRoomForMembership(s, id, conversation, generation, stateRevision, membershipRevision);
            && (e.reply == Done <==>
                  && id in s.rooms && s.rooms[id].conversation == conversation && s.rooms[id].generation == generation
                  && s.rooms[id].stateRevision == stateRevision && s.rooms[id].membershipRevision < membershipRevision
                  && s.rooms[id].status != Ended)
            && e.store.rooms == if e.reply == Done then s.rooms[id := Finished(s.rooms[id], s.now)] else s.rooms
  {
    if id in s.rooms {
      assert RoomOk(s, id);
      ClosedRoomIs(s, id, Users(s.rooms[id].participants), false, true);
    }
    hide CloseRoom, Users, CallsInv, RoomsOk, RoomUsersOk, Exclusive;
  }

  /** A start succeeds exactly for a free user with proper identifiers, a new room and a
      conversation without one; the new room rings for thirty seconds with the user alone. */
  lemma {:induction false} StartIsLawful(s: Store, id: RoomId, conversation: ConversationId, membershipRevision: int, generation: int,
                                         socket: Socket, token: Token)
    ensures var e := StartRoom(s, id, conversation, membershipRevision, generation, socket, token);
            && (e.reply == Done <==>
                  && id != 0 && conversation != 0 && 0 < membershipRevision && 0 < generation
                  && socket.participant.user != 0 && socket.participant.device != 0 && socket.connection != 0
                  && Free(s, socket.participant.user, token) && id !in s.rooms && conversation !in s.roomConversations)
            && e.store.rooms == if e.reply == Done
                                then s.rooms[id := Opened(conversation, membershipRevision, generation, socket, s.now)]
                                else s.rooms
  {
  }

  // ----- Every command -----

  lemma {:induction false} CallCommandLeavesRooms(w: World, c: Command)
    requires !RoomCommand(c) && !c.Wait?
    ensures Step(w, c).store.rooms == w.store.rooms
  {
    hide CloseCall, ReleaseAll, Devices, Admitted, Online, MayEnd, IsEndpoint, AllDue, ExpireCalls, Recovered;
    match c {
      case SweepCalls(ids) => ExpireCallsLeaveRooms(w.store, ids);
      case StartDirect(_, _, caller, recipient, _, _, online) => RecoveredEvolves(w.store, caller, recipient, online);
      case Decline(id, _) => if id in w.store.calls { CloseCallKeepsRooms(w.store, id, {CallerDevice(w.store.calls[id])}); }
      case Cancel(id, _, _) => if id in w.store.calls { CloseCallKeepsRooms(w.store, id, {CallerDevice(w.store.calls[id])}); }
      case EndDirect(id, _, _, _) => if id in w.store.calls { CloseCallKeepsRooms(w.store, id, Devices(w.store.calls[id])); }
      case _ =>
    }
  }

  lemma {:induction false} ExpireCallsLeaveRooms(s: Store, ids: seq<CallId>)
    ensures ExpireCalls(s, ids).rooms == s.rooms
    decreases |ids|
  {
    hide CloseCall, Devices;
    if ids != [] {
      if ids[0] in s.calls { CloseCallKeepsRooms(s, ids[0], Devices(s.calls[ids[0]])); }
      ExpireCallsLeaveRooms(ExpireCall(s, ids[0]), ids[1..]);
    }
  }

  lemma {:induction false} EntryIsLawful(w: World, c: Command)
    requires Inv(w.store) && Known(w) && (c.StartGroup? || c.Join? || c.Leave?)
    ensures RoomsLawful(w.store, Step(w, c).store, c)
  {
    var s := w.store;
    SameRooms(s, s, c);
    hide Inv, Known, RoomsLawful, StartRoom, JoinRoom, LeaveRoom;
    match c {
      case StartGroup(id, conversation, membershipRevision, generation, socket, token) =>
        if id !in w.usedRooms {
          UnusedRoom(w, id);
          StartLawful(s, id, conversation, membershipRevision, generation, socket, token);
        }
      case Join(id, socket, membershipRevision, token) => JoinLawful(s, id, socket, membershipRevision, token);
      case Leave(id, socket) => LeaveLawful(s, id, socket);
    }
  }

  lemma {:induction false} StepIsLawful(w: World, c: Command)
    requires Inv(w.store) && Known(w)
    ensures RoomsLawful(w.store, Step(w, c).store, c)
  {
    var s := w.store;
    SameRooms(s, s, c);
    hide Inv, Known, RoomsLawful, DueBatch, AllDue;
    if !RoomCommand(c) {
      OtherCommandLawful(w, c);
      hide Step;
    } else if c.StartGroup? || c.Join? || c.Leave? {
      EntryIsLawful(w, c);
      hide Step;
    } else {
      hide EndRoom, SetPresenter, EndRoomForMembership, AbortRoomStart, ExpireRooms;
      match c {
        case EndGroup(id, socket) => EndLawful(s, id, socket);
        case Present(id, socket, presenting) => PresentLawful(s, id, socket, presenting);
        case MembershipChanged(id, conversation, generation, stateRevision, membershipRevision) =>
          MembershipLawful(s, id, conversation, generation, stateRevision, membershipRevision);
        case Abort(id, generation, socket) => AbortLawful(s, id, generation, socket);
        case SweepRooms(ids, limit) => SweepLawful(s, ids, limit);
      }
    }
  }

  lemma SameRooms(s: Store, t: Store, c: Command)
    requires t.rooms == s.rooms
    ensures RoomsLawful(s, t, c)
  {
    hide ChangedBy, Free;
  }

  lemma OneRoomChanged(s: Store, t: Store, id: RoomId, d: Room, c: Command)
    requires id in s.rooms && t.rooms == s.rooms[id := d] && ChangedBy(s, id, d, c)
    ensures RoomsLawful(s, t, c)
  {
    hide ChangedBy, Free;
  }

  lemma {:induction false} StartLawful(s: Store, id: RoomId, conversation: ConversationId, membershipRevision: int, generation: int,
                                       socket: Socket, token: Token)
    ensures RoomsLawful(s, StartRoom(s, id, conversation, membershipRevision, generation, socket, token).store,
                        StartGroup(id, conversation, membershipRevision, generation, socket, token))
  {
    StartIsLawful(s, id, conversation, membershipRevision, generation, socket, token);
    hide StartRoom, ChangedBy, Free, Opened;
  }

  lemma {:induction false} JoinLawful(s: Store, id: RoomId, socket: Socket, membershipRevision: int, token: Token)
    requires Inv(s)
    ensures RoomsLawful(s, JoinRoom(s, id, socket, membershipRevision, token).store, Join(id, socket, membershipRevision, token))
  {
    JoinIsLawful(s, id, socket, membershipRevision, token);
    hide JoinRoom, Inv, Free, Grown, RoomsLawful;
    var t := JoinRoom(s, id, socket, membershipRevision, token).store;
    if t.rooms == s.rooms { SameRooms(s, t, Join(id, socket, membershipRevision, token)); }
    else { OneRoomChanged(s, t, id, Grown(s.rooms[id], socket, s.now), Join(id, socket, membershipRevision, token)); }
  }

  lemma {:induction false} PresentLawful(s: Store, id: RoomId, socket: Socket, presenting: bool)
    ensures RoomsLawful(s, SetPresenter(s, id, socket, presenting).store, Present(id, socket, presenting))
  {
    PresentIsLawful(s, id, socket, presenting);
    var e := SetPresenter(s, id, socket, presenting);
    hide SetPresenter, RoomsLawful;
    if e.reply == Done { OneRoomChanged(s, e.store, id, e.store.rooms[id], Present(id, socket, presenting)); }
    else { SameRooms(s, e.store, Present(id, socket, presenting)); }
  }

  lemma {:induction false} EndLawful(s: Store, id: RoomId, socket: Socket)
    ensures RoomsLawful(s, EndRoom(s, id, socket).store, EndGroup(id, socket))
  {
    EndIsLawful(s, id, socket);
    var e := EndRoom(s, id, socket);
    hide EndRoom, RoomsLawful, Finished;
    if e.reply == Done { OneRoomChanged(s, e.store, id, e.store.rooms[id], EndGroup(id, socket)); }
    else { SameRooms(s, e.store, EndGroup(id, socket)); }
  }

  lemma {:induction false} AbortLawful(s: Store, id: RoomId, generation: int, socket: Socket)
    ensures RoomsLawful(s, AbortRoomStart(s, id, generation, socket).store, Abort(id, generation, socket))
  {
    AbortIsLawful(s, id, generation, socket);
    var e := AbortRoomStart(s, id, generation, socket);
    hide AbortRoomStart, RoomsLawful, Finished;
    if e.reply == Done { OneRoomChanged(s, e.store, id, e.store.rooms[id], Abort(id, generation, socket)); }
    else { SameRooms(s, e.store, Abort(id, generation, socket)); }
  }

  lemma {:induction false} MembershipLawful(s: Store, id: RoomId, conversation: ConversationId, generation: int, stateRevision: int,
                                            membershipRevision: int)
    requires Inv(s)
    ensures RoomsLawful(s, EndRoomForMembership(s, id, conversation, generation, stateRevision, membershipRevision).store,
                        MembershipChanged(id, conversation, generation, stateRevision, membershipRevision))
  {
    MembershipEndIsLawful(s, id, conversation, generation, stateRevision, membershipRevision);
    var c := MembershipChanged(id, conversation, generation, stateRevision, membershipRevision);
    var e := EndRoomForMembership(s, id, conversation, generation, stateRevision, membershipRevision);
    hide EndRoomForMembership, RoomsLawful, Finished, Inv;
    if e.reply == Done { OneRoomChanged(s, e.store, id, e.store.rooms[id], c); } else { SameRooms(s, e.store, c); }
  }

  lemma {:induction false} OtherCommandLawful(w: World, c: Command)
    requires !RoomCommand(c)
    ensures RoomsLawful(w.store, Step(w, c).store, c)
  {
    hide ChangedBy;
    if !c.Wait? {
      CallCommandLeavesRooms(w, c);
      hide Step;
    }
  }

  lemma {:induction false} LeaveLawful(s: Store, id: RoomId, socket: Socket)
    ensures RoomsLawful(s, LeaveRoom(s, id, socket).store, Leave(id, socket))
  {
    LeaveStep(s, id, socket);
    hide LeaveRoom, LeftBy, Free;
  }

  lemma {:induction false} SweepLawful(s: Store, ids: seq<RoomId>, limit: nat)
    ensures RoomsLawful(s, ExpireRooms(s, ids).store, SweepRooms(ids, limit))
  {
    SweepTimesOut(s, ids);
    hide ExpireRooms, TimedOut, Free;
    forall id <- s.rooms ensures SweptRoom(s, ExpireRooms(s, ids).store, ids, id) {}
  }

  lemma UnusedRoom(w: World, id: RoomId)
    requires Known(w) && id !in w.usedRooms
    ensures id !in w.store.rooms
  {
  }

  lemma {:induction false} LeaveStep(s: Store, id: RoomId, socket: Socket)
    ensures var e := LeaveRoom(s, id, socket);
            && (e.reply == Done <==> id in s.rooms && socket in s.rooms[id].connections)
            && (if e.reply == Done then id in e.store.rooms && LeftBy(s.rooms[id], e.store.rooms[id], socket, s.now)
                else e.store.rooms == s.rooms)
            && e.store.rooms.Keys == s.rooms.Keys
            && (forall other <- e.store.rooms :: other != id ==> e.store.rooms[other] == s.rooms[other])
  {
    if id in s.rooms && socket in s.rooms[id].connections {
      LeaveIsLawful(s, id, socket);
      assert LeaveRoom(s, id, socket).reply == Done by { hide CloseRoom, Without, KeptSockets, ReleaseAll; }
      hide LeaveRoom;
    }
  }

  /** Over every run: a stored room changes only by a free user joining it in time, by one of
      its own sockets leaving, ending, presenting or undoing its start, by a newer membership,
      or by a sweep after its deadline; and each leaves exactly the fields it should. */
  lemma {:induction false} OnlyTheRightfulChangeARoom(now: int, commands: seq<Command>, c: Command)
    ensures RoomsLawful(At(now, commands), After(now, commands, c), c)
  {
    AtOk(now, commands);
    var w := Run(Initial(now), commands);
    hide Run, Step;
    StepIsLawful(w, c);
  }

  // ----- A ringing room has one participant -----

  ghost predicate RingsAlone(s: Store) {
    forall id <- s.rooms :: s.rooms[id].status == Ringing ==> |s.rooms[id].participants| == 1
  }

  lemma {:induction false} StepRingsAlone(w: World, c: Command)
    requires Inv(w.store) && Known(w) && RingsAlone(w.store)
    ensures RingsAlone(Step(w, c).store)
  {
    StepIsLawful(w, c);
    var s, t := w.store, Step(w, c).store;
    hide Step, CallsInv, RoomUsersOk, RoomConversationsOk, Exclusive, ChangedBy, Free;
    forall id <- t.rooms | id in s.rooms && t.rooms[id].status == Ringing ensures |t.rooms[id].participants| == 1 {
      assert RoomOk(s, id);
      if t.rooms[id] != s.rooms[id] {
        ChangeRingsAlone(s, id, t.rooms[id], c);
      }
    }
  }

  lemma {:induction false} ChangeRingsAlone(s: Store, id: RoomId, d: Room, c: Command)
    requires id in s.rooms && (s.rooms[id].status == Ringing ==> RosterOk(s.rooms[id]) && |s.rooms[id].participants| == 1)
    requires ChangedBy(s, id, d, c)
    ensures d.status == Ringing ==> |d.participants| == 1
  {
    hide Free;
    if c.Leave? && d.participants != [] {
      assert d.participants[0] in d.participants;
    }
  }

  lemma {:induction false} RunRingsAlone(w: World, commands: seq<Command>)
    requires Good(w) && RingsAlone(w.store)
    ensures RingsAlone(Run(w, commands).store)
    decreases |commands|
  {
    hide Step, RingsAlone, Known, Inv, ClaimsOk, CallClaimsOk, AcceptancesOk;
    if commands != [] {
      StepRingsAlone(w, commands[0]);
      StepGood(w, commands[0]);
      RunRingsAlone(Step(w, commands[0]), commands[1..]);
    }
  }

  /** In every reachable store a ringing room has exactly its starter in it: the first join
      makes it active. */
  lemma {:induction false} RingingRoomsAreAlone(now: int, commands: seq<Command>, id: RoomId)
    requires id in At(now, commands).rooms && At(now, commands).rooms[id].status == Ringing
    ensures |At(now, commands).rooms[id].participants| == 1
  {
    InitialGood(now);
    RunRingsAlone(Initial(now), commands);
    hide Run, Good;
  }

  /** Exactly the free user who comes in time, under the room's membership revision, to a room
      with a place left joins it; the room is active then, with the joiner behind the others,
      the same presenter and two more hours. */
  lemma {:induction false} JoinSucceedsExactly(now: int, commands: seq<Command>, id: RoomId, socket: Socket, membershipRevision: int,
                                               token: Token)
    ensures var s := At(now, commands);
            var e := JoinRoom(s, id, socket, membershipRevision, token);
            && (e.reply == Done <==>
                  && id in s.rooms && s.rooms[id].status != Ended && s.now < s.rooms[id].expiresAt
                  && s.rooms[id].membershipRevision == membershipRevision && |s.rooms[id].participants| < 4
                  && Free(s, socket.participant.user, token))
            && (e.reply == Done ==>
                  var r, d := s.rooms[id], e.store.rooms[id];
                  && d.status == Active && d.participants == r.participants + [socket.participant]
                  && d.connections == r.connections + [socket] && d.presenter == r.presenter
                  && d.expiresAt == s.now + 7_200_000 && d.stateRevision == r.stateRevision + 1)
  {
    AtOk(now, commands);
    hide Run;
    JoinIsLawful(At(now, commands), id, socket, membershipRevision, token);
    hide JoinRoom, Inv, At;
  }

  // ----- Leaving a live room -----

  lemma {:induction false} WithoutOne(ps: seq<Participant>, i: nat)
    requires DistinctUsers(ps) && i < |ps|
    ensures Without(ps, ps[i]) == RemoveAt(ps, i)
    decreases |ps|
  {
    var rest := ps[1..];
    assert forall j :: 0 <= j < |rest| ==> rest[j] == ps[j + 1];
    if i == 0 {
      WithoutNone(rest, ps[0]);
    } else {
      WithoutOne(rest, i - 1);
      assert ps[i] == rest[i - 1] && ps[0] != ps[i];
      assert RemoveAt(ps, i) == [ps[0]] + RemoveAt(rest, i - 1);
    }
  }

  lemma {:induction false} WithoutNone(ps: seq<Participant>, p: Participant)
    requires forall j :: 0 <= j < |ps| ==> ps[j] != p
    ensures Without(ps, p) == ps
    decreases |ps|
  {
    if ps != [] {
      assert forall j :: 0 <= j < |ps[1..]| ==> ps[1..][j] == ps[j + 1];
      WithoutNone(ps[1..], p);
    }
  }

  /** The sockets kept for a part of the roster are the corresponding part of the sockets. */
  lemma {:induction false} KeptPart(ps: seq<Participant>, connections: seq<Socket>, from: nat, to: nat)
    requires Aligned(ps, connections) && DistinctUsers(ps) && from <= to <= |ps|
    ensures KeptSockets(ps[from..to], connections) == connections[from..to]
    decreases |ps| - from
  {
    if from < to {
      OneSocket(ps, connections, from);
      KeptPart(ps, connections, from + 1, to);
      assert ps[from..to][0] == ps[from] && ps[from..to][1..] == ps[from + 1..to];
      assert connections[from..to] == [connections[from]] + connections[from + 1..to];
    }
  }

  lemma {:induction false} KeptConcat(a: seq<Participant>, b: seq<Participant>, connections: seq<Socket>)
    ensures KeptSockets(a + b, connections) == KeptSockets(a, connections) + KeptSockets(b, connections)
    decreases |a|
  {
    if a == [] {
      assert a + b == b;
    } else {
      assert (a + b)[0] == a[0] && (a + b)[1..] == a[1..] + b;
      KeptConcat(a[1..], b, connections);
    }
  }

  /** A leave from a live room with others in it takes out the leaver and the leaver's socket
      and leaves everybody else in place; a presentation of somebody else goes on. */
  lemma {:induction false} LeaveTakesOneOut(now: int, commands: seq<Command>, id: RoomId, i: nat)
    requires var s := At(now, commands);
             id in s.rooms && s.rooms[id].status != Ended && 1 < |s.rooms[id].participants| && i < |s.rooms[id].participants|
    ensures var s := At(now, commands);
            var r := s.rooms[id];
            && |r.connections| == |r.participants|
            && var e := LeaveRoom(s, id, r.connections[i]);
            && e.reply == Done && id in e.store.rooms
            && e.store.rooms[id] == r.(participants := RemoveAt(r.participants, i), connections := RemoveAt(r.connections, i),
                                       presenter := if r.presenter == Some(r.participants[i]) then None else r.presenter,
                                       stateRevision := r.stateRevision + 1)
  {
    AtOk(now, commands);
    hide Run;
    assert RoomOk(At(now, commands), id);
    hide At, Inv;
    LiveLeave(At(now, commands), id, i);
    hide LeaveRoom, RoomOk;
  }

  lemma {:induction false} LiveLeave(s: Store, id: RoomId, i: nat)
    requires id in s.rooms && RosterOk(s.rooms[id]) && 1 < |s.rooms[id].participants| && i < |s.rooms[id].participants|
    ensures var r := s.rooms[id];
            && |r.connections| == |r.participants|
            && var e := LeaveRoom(s, id, r.connections[i]);
            && e.reply == Done && id in e.store.rooms
            && e.store.rooms[id] == r.(participants := RemoveAt(r.participants, i), connections := RemoveAt(r.connections, i),
                                       presenter := if r.presenter == Some(r.participants[i]) then None else r.presenter,
                                       stateRevision := r.stateRevision + 1)
  {
    var r := s.rooms[id];
    assert r.connections[i].participant == r.participants[i] && r.connections[i] in r.connections;
    RosterWithoutOne(r.participants, r.connections, i);
    hide Without, KeptSockets, CloseRoom, ReleaseAll, RosterOk;
  }

  lemma {:induction false} RosterWithoutOne(ps: seq<Participant>, connections: seq<Socket>, i: nat)
    requires Aligned(ps, connections) && DistinctUsers(ps) && i < |ps|
    ensures Without(ps, ps[i]) == RemoveAt(ps, i) && KeptSockets(RemoveAt(ps, i), connections) == RemoveAt(connections, i)
  {
    WithoutOne(ps, i);
    KeptPart(ps, connections, 0, i);
    KeptPart(ps, connections, i + 1, |ps|);
    KeptConcat(ps[..i], ps[i + 1..], connections);
    assert ps[0..i] == ps[..i] && connections[0..i] == connections[..i];
    assert ps[i + 1..|ps|] == ps[i + 1..] && connections[i + 1..|ps|] == connections[i + 1..];
    hide Without, KeptSockets, Aligned, DistinctUsers;
  }

  /** In any store, also one that no run reaches: a join touches no key that names another
      room, and the end for a membership change leaves no key of the conversation. */
  lemma {:induction false} OtherRoomsKeepTheirKeys(s: Store, id: RoomId, socket: Socket, membershipRevision: int, token: Token, u: UserId)
    requires u in s.roomUsers && s.roomUsers[u].id != id
    ensures var t := JoinRoom(s, id, socket, membershipRevision, token).store;
            && u in t.roomUsers && t.roomUsers[u] == s.roomUsers[u]
            && forall c <- s.roomConversations :: s.roomConversations[c].id != id ==>
                 c in t.roomConversations && t.roomConversations[c] == s.roomConversations[c]
  {
    hide Users;
  }

  lemma {:induction false} MembershipEndFreesTheConversation(s: Store, id: RoomId, conversation: ConversationId, generation: int,
                                                             stateRevision: int, membershipRevision: int)
    requires EndRoomForMembership(s, id, conversation, generation, stateRevision, membershipRevision).reply == Done
    ensures conversation !in EndRoomForMembership(s, id, conversation, generation, stateRevision, membershipRevision).store.roomConversations
  {
    hide CloseRoom, Users;
  }
}
