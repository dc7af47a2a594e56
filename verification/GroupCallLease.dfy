/** Group-call commands run under a lease on the group's membership: the conversation row
    stays locked while the room script runs, so both are one step. */
module GroupCallLease {
  import opened Options
  import M = Conversations
  import MI = ConversationInvariant
  import MR = ConversationRuns
  import MH = ConversationHistory
  import opened CallStore
  import opened CallInvariant
  import opened RoomInvariant
  import opened CallRuns
  import opened CallHistory

  datatype Lease = Lease(revision: int, members: set<UserId>)

  /** Only an active member of an existing group gets a lease. */
  function BeginGroupCall(db: M.Db, conversation: ConversationId, user: UserId): Option<Lease> {
    if M.Actor(db, conversation, user)
    then Some(Lease(db.conversations[conversation].kind.revision, M.Active(db.conversations[conversation])))
    else None
  }

  datatype Both = Both(chat: MR.World, calls: World)

  /** Rooms are started and joined under a lease only; every other script may run at any
      time, and so may every transaction of the message database. */
  datatype Action =
    | Chat(message: MR.Command)
    | Script(script: Command)
    | StartUnderLease(room: RoomId, conversation: ConversationId, socket: Socket, token: Token)
    | JoinUnderLease(room: RoomId, conversation: ConversationId, generation: int, socket: Socket, token: Token)

  function Joinable(s: Store, id: RoomId, conversation: ConversationId, generation: int, revision: int): bool {
    id in s.rooms && s.rooms[id].conversation == conversation && s.rooms[id].generation == generation
    && s.rooms[id].membershipRevision == revision
  }

  function Act(b: Both, a: Action): Both {
    match a
    case Chat(command) => b.(chat := MR.Step(b.chat, command))
    case Script(script) => if script.StartGroup? || script.Join? then b else b.(calls := Step(b.calls, script))
    case StartUnderLease(id, conversation, socket, token) =>
      var lease := BeginGroupCall(b.chat.db, conversation, socket.participant.user);
      if lease.None? then b
      else b.(calls := Step(b.calls, StartGroup(id, conversation, lease.value.revision, 1, socket, token)))
    case JoinUnderLease(id, conversation, generation, socket, token) =>
      var lease := BeginGroupCall(b.chat.db, conversation, socket.participant.user);
      if lease.None? || !Joinable(b.calls.store, id, conversation, generation, lease.value.revision) then b
      else b.(calls := Step(b.calls, Join(id, socket, lease.value.revision, token)))
  }

  function ActAll(b: Both, actions: seq<Action>): Both
    decreases |actions|
  {
    if actions == [] then b else ActAll(Act(b, actions[0]), actions[1..])
  }

  function Start(directory: M.Directory, now: int): Both {
    Both(MR.Initial(directory), Initial(now))
  }

  lemma {:induction false} ActAllOfConcat(b: Both, x: seq<Action>, y: seq<Action>)
    ensures ActAll(b, x + y) == ActAll(ActAll(b, x), y)
    decreases |x|
  {
    hide Act;
    if x == [] {
      assert x + y == y;
    } else {
      assert (x + y)[0] == x[0] && (x + y)[1..] == x[1..] + y;
      ActAllOfConcat(Act(b, x[0]), x[1..], y);
    }
  }

  // ----- Rosters only shrink outside a lease -----

  /** The rooms of `t` are rooms of `s` with no new participant. */
  ghost predicate NoNewcomers(s: Store, t: Store) {
    forall id <- t.rooms :: id in s.rooms && NoNewcomer(s.rooms[id], t.rooms[id])
  }

  ghost predicate NoNewcomer(a: Room, b: Room) {
    a.conversation == b.conversation && a.membershipRevision == b.membershipRevision && Users(b.participants) <= Users(a.participants)
  }

  lemma {:induction false} SameRooms(s: Store, t: Store)
    requires forall id <- t.rooms :: id in s.rooms && t.rooms[id] == s.rooms[id]
    ensures NoNewcomers(s, t)
  {
    hide Users;
  }

  lemma {:induction false} OneRoom(s: Store, t: Store, id: RoomId)
    requires id in s.rooms && id in t.rooms && t.rooms == s.rooms[id := t.rooms[id]] && NoNewcomer(s.rooms[id], t.rooms[id])
    ensures NoNewcomers(s, t)
  {
    hide Users;
  }

  lemma {:induction false} NoNewcomersChain(s: Store, t: Store, u: Store)
    requires NoNewcomers(s, t) && NoNewcomers(t, u)
    ensures NoNewcomers(s, u)
  {
    hide Users;
    forall id <- u.rooms ensures id in s.rooms && NoNewcomer(s.rooms[id], u.rooms[id]) {
      assert id in t.rooms;
    }
  }

  lemma {:induction false} ClosedRoomRoster(s: Store, id: RoomId, released: set<UserId>, keepRoster: bool, keepPresenter: bool)
    requires id in s.rooms
    ensures NoNewcomers(s, CloseRoom(s, id, released, keepRoster, keepPresenter))
  {
    hide ReleaseAll, Release, NoNewcomers;
    OneRoom(s, CloseRoom(s, id, released, keepRoster, keepPresenter), id);
  }

  lemma {:induction false} LeaveRoomRoster(s: Store, id: RoomId, socket: Socket)
    ensures NoNewcomers(s, LeaveRoom(s, id, socket).store)
  {
    hide ReleaseAll, Release, Without, KeptSockets, NoNewcomers;
    var t := LeaveRoom(s, id, socket).store;
    SameRooms(s, s);
    if LeaveRoom(s, id, socket).reply == Done {
      WithoutKeeps(s.rooms[id].participants, socket.participant);
      OneRoom(s, t, id);
    }
  }

  lemma {:induction false} ExpireRoomsRoster(s: Store, ids: seq<RoomId>)
    ensures NoNewcomers(s, ExpireRooms(s, ids).store)
    decreases |ids|
  {
    hide CloseRoom, Users, NoNewcomers;
    SameRooms(s, s);
    if ids != [] {
      var t := ExpireRoom(s, ids[0]);
      if Expired(s, ids[0]) {
        ClosedRoomRoster(s, ids[0], Users(s.rooms[ids[0]].participants), true, false);
      } else {
        SameRooms(s, t);
      }
      ExpireRoomsRoster(t, ids[1..]);
      NoNewcomersChain(s, t, ExpireRooms(t, ids[1..]).store);
    }
  }

  lemma {:induction false} ScriptRoster(s: Store, c: Command, w: World)
    requires w.store == s
    requires c.Leave? || c.EndGroup? || c.Present? || c.MembershipChanged? || c.Abort? || c.SweepRooms?
    ensures NoNewcomers(s, Step(w, c).store)
  {
    hide CloseRoom, Users, LeaveRoom, ExpireRooms, DueBatch, NoNewcomers;
    SameRooms(s, s);
    match c
    case Leave(id, socket) => LeaveRoomRoster(s, id, socket);
    case EndGroup(id, socket) =>
      if id in s.rooms { ClosedRoomRoster(s, id, Users(s.rooms[id].participants), false, true); }
    case Present(id, socket, presenting) =>
      if SetPresenter(s, id, socket, presenting).reply == Done {
        OneRoom(s, SetPresenter(s, id, socket, presenting).store, id);
      }
    case MembershipChanged(id, conversation, generation, stateRevision, membershipRevision) =>
      if id in s.rooms {
        var closed := CloseRoom(s, id, Users(s.rooms[id].participants), false, true);
        ClosedRoomRoster(s, id, Users(s.rooms[id].participants), false, true);
        SameRooms(closed, closed.(roomConversations := s.roomConversations - {conversation}));
        NoNewcomersChain(s, closed, closed.(roomConversations := s.roomConversations - {conversation}));
      }
    case Abort(id, generation, socket) =>
      if id in s.rooms { ClosedRoomRoster(s, id, Users(s.rooms[id].participants), false, false); }
    case SweepRooms(ids, limit) => ExpireRoomsRoster(s, ids);
  }

  lemma {:induction false} ExpireCallsRooms(s: Store, ids: seq<CallId>)
    ensures ExpireCalls(s, ids).rooms == s.rooms
    decreases |ids|
  {
    hide ReleaseAll, Devices;
    if ids != [] {
      ExpireCallsRooms(ExpireCall(s, ids[0]), ids[1..]);
    }
  }

  lemma {:induction false} CallScriptRooms(s: Store, c: Command, w: World)
    requires w.store == s
    requires c.Accept? || c.Decline? || c.Cancel? || c.EndDirect? || c.SweepCalls?
    ensures Step(w, c).store.rooms == s.rooms
  {
    hide ReleaseAll, Devices, MayEnd, DueBatch, ExpireCalls;
    if c.SweepCalls? { ExpireCallsRooms(s, c.ids); }
  }

  lemma {:induction false} OtherScriptRooms(s: Store, c: Command, w: World)
    requires w.store == s
    requires c.StartDirect? || c.Wait? || c.Acquire? || c.GiveBack?
    ensures NoNewcomers(s, Step(w, c).store)
  {
    hide ReleaseAll, Live, StartCall, NoNewcomers;
    if c.StartDirect? {
      StartCallEvolves(s, c.call, c.conversation, c.caller, c.recipient, c.endpoint, c.token, c.online);
    }
    SameRooms(s, Step(w, c).store);
  }

  // ----- The invariant of both systems together -----

  /** A room belongs to a group that exists or existed; it was opened under the group's
      current or an earlier revision, and while the revision is the same everyone in the
      room is an active member. */
  ghost predicate RosterWithin(chat: MR.World, room: Room) {
    && room.conversation in chat.used
    && (room.conversation in chat.db.conversations ==>
          var c := chat.db.conversations[room.conversation];
          && c.kind.Group?
          && room.membershipRevision <= c.kind.revision
          && (room.membershipRevision == c.kind.revision ==> Users(room.participants) <= M.Active(c)))
  }

  ghost predicate RostersOk(b: Both) {
    forall id <- b.calls.store.rooms :: RosterWithin(b.chat, b.calls.store.rooms[id])
  }

  ghost predicate BothOk(b: Both) {
    MH.Inv(b.chat) && Good(b.calls) && RostersOk(b)
  }

  lemma {:induction false} WithinLater(chat: MR.World, later: MR.World, room: Room)
    requires RosterWithin(chat, room) && MH.WorldLater(chat, later)
    ensures RosterWithin(later, room)
  {
    hide Users, M.Active, MI.Reading;
    if room.conversation in later.db.conversations {
      assert MI.Later(chat.db.conversations[room.conversation], later.db.conversations[room.conversation]);
    }
  }

  lemma {:induction false} ChatKeeps(b: Both, command: MR.Command)
    requires BothOk(b)
    ensures BothOk(Act(b, Chat(command)))
  {
    hide MH.Inv, Good, RosterWithin, MH.WorldLater, MH.Told, MR.Step;
    MH.StepKeeps(b.chat, command);
    var later := MR.Step(b.chat, command);
    forall id <- b.calls.store.rooms ensures RosterWithin(later, b.calls.store.rooms[id]) {
      WithinLater(b.chat, later, b.calls.store.rooms[id]);
    }
  }

  lemma {:induction false} NoNewcomersKeep(b: Both, calls: World)
    requires RostersOk(b) && NoNewcomers(b.calls.store, calls.store)
    ensures RostersOk(b.(calls := calls))
  {
    hide Users, M.Active;
    forall id <- calls.store.rooms ensures RosterWithin(b.chat, calls.store.rooms[id]) {
      assert RosterWithin(b.chat, b.calls.store.rooms[id]);
      assert NoNewcomer(b.calls.store.rooms[id], calls.store.rooms[id]);
    }
  }

  lemma {:induction false} RoomKeeps(b: Both, script: Command)
    requires BothOk(b)
    ensures BothOk(Act(b, Script(script)))
  {
    hide MH.Inv, Good, RostersOk, NoNewcomers, Step, Later;
    if !script.StartGroup? && !script.Join? {
      StepGood(b.calls, script);
      if script.Accept? || script.Decline? || script.Cancel? || script.EndDirect? || script.SweepCalls? {
        CallScriptRooms(b.calls.store, script, b.calls);
        SameRooms(b.calls.store, Step(b.calls, script).store);
      } else if script.StartDirect? || script.Wait? || script.Acquire? || script.GiveBack? {
        OtherScriptRooms(b.calls.store, script, b.calls);
      } else {
        ScriptRoster(b.calls.store, script, b.calls);
      }
      NoNewcomersKeep(b, Step(b.calls, script));
    }
  }

  lemma {:induction false} StartedRoom(s: Store, id: RoomId, conversation: ConversationId, revision: int, socket: Socket, token: Token)
    ensures var t := StartRoom(s, id, conversation, revision, 1, socket, token).store;
            && forall other <- t.rooms ::
                 (other in s.rooms && t.rooms[other] == s.rooms[other])
                 || (other == id && t.rooms[id].conversation == conversation && t.rooms[id].membershipRevision == revision
                     && Users(t.rooms[id].participants) == {socket.participant.user})
  {
    hide Admitted;
    assert socket.participant in [socket.participant];
  }

  lemma {:induction false} LeasedConversation(chat: MR.World, conversation: ConversationId, user: UserId)
    requires MH.Inv(chat) && BeginGroupCall(chat.db, conversation, user).Some?
    ensures conversation in chat.used && conversation in chat.db.conversations && chat.db.conversations[conversation].kind.Group?
    ensures user in M.Active(chat.db.conversations[conversation])
  {
    hide MR.DbOk, MH.SentOk, MH.BoxesOk, MH.EventsOk;
  }

  lemma {:induction false} StartKeeps(b: Both, a: Action)
    requires BothOk(b) && a.StartUnderLease?
    ensures BothOk(Act(b, a))
  {
    hide MH.Inv, Good, Later, StartRoom, M.Active, M.Actor, Users;
    var lease := BeginGroupCall(b.chat.db, a.conversation, a.socket.participant.user);
    if lease.Some? {
      LeasedConversation(b.chat, a.conversation, a.socket.participant.user);
      LeaseShows(b.chat.db, a.conversation, a.socket.participant.user);
      StepGood(b.calls, StartGroup(a.room, a.conversation, lease.value.revision, 1, a.socket, a.token));
      StartedRoom(b.calls.store, a.room, a.conversation, lease.value.revision, a.socket, a.token);
    }
  }

  lemma LeaseShows(db: M.Db, conversation: ConversationId, user: UserId)
    requires BeginGroupCall(db, conversation, user).Some?
    ensures conversation in db.conversations && db.conversations[conversation].kind.Group?
    ensures BeginGroupCall(db, conversation, user).value.revision == db.conversations[conversation].kind.revision
    ensures BeginGroupCall(db, conversation, user).value.members == M.Active(db.conversations[conversation])
    ensures user in M.Active(db.conversations[conversation])
  {
  }

  lemma {:induction false} JoinedRoom(s: Store, id: RoomId, socket: Socket, revision: int, token: Token)
    ensures var t := JoinRoom(s, id, socket, revision, token).store;
            && forall other <- t.rooms ::
                 other in s.rooms
                 && (t.rooms[other] == s.rooms[other]
                     || (other == id && t.rooms[id].conversation == s.rooms[id].conversation
                         && t.rooms[id].membershipRevision == s.rooms[id].membershipRevision
                         && Users(t.rooms[id].participants) == Users(s.rooms[id].participants) + {socket.participant.user}))
  {
    hide Admitted, Renew, Users;
    if JoinRoom(s, id, socket, revision, token).reply == Done {
      UsersOfAppend(s.rooms[id].participants, socket.participant);
    }
  }

  lemma {:induction false} JoinKeeps(b: Both, a: Action)
    requires BothOk(b) && a.JoinUnderLease?
    ensures BothOk(Act(b, a))
  {
    hide MH.Inv, Good, Later, JoinRoom, M.Active, M.Actor, Users;
    var lease := BeginGroupCall(b.chat.db, a.conversation, a.socket.participant.user);
    if lease.Some? && Joinable(b.calls.store, a.room, a.conversation, a.generation, lease.value.revision) {
      LeaseShows(b.chat.db, a.conversation, a.socket.participant.user);
      StepGood(b.calls, Join(a.room, a.socket, lease.value.revision, a.token));
      JoinedRoom(b.calls.store, a.room, a.socket, lease.value.revision, a.token);
      assert RosterWithin(b.chat, b.calls.store.rooms[a.room]);
    }
  }

  lemma {:induction false} ActAllKeeps(b: Both, actions: seq<Action>)
    requires BothOk(b)
    ensures BothOk(ActAll(b, actions)) && MH.WorldLater(b.chat, ActAll(b, actions).chat)
    decreases |actions|
  {
    hide BothOk, MH.WorldLater, Act;
    if actions == [] {
      ChatUnchanged(b);
    } else {
      var a := actions[0];
      match a {
        case Chat(command) => ChatKeeps(b, command);
        case Script(script) => RoomKeeps(b, script);
        case StartUnderLease(_, _, _, _) => StartKeeps(b, a);
        case JoinUnderLease(_, _, _, _, _) => JoinKeeps(b, a);
      }
      ActLater(b, a);
      ActAllKeeps(Act(b, a), actions[1..]);
      MH.WorldLaterChain(b.chat, Act(b, a).chat, ActAll(b, actions).chat);
    }
  }

  lemma {:induction false} ChatUnchanged(b: Both)
    requires BothOk(b)
    ensures MH.WorldLater(b.chat, b.chat)
  {
    hide MH.Inv, Good, RostersOk;
    MH.NothingHappens(b.chat);
  }

  lemma {:induction false} ActLater(b: Both, a: Action)
    requires BothOk(b)
    ensures MH.WorldLater(b.chat, Act(b, a).chat)
  {
    hide MH.Inv, Good, RostersOk, MR.Step, Step, MH.WorldLater, MH.Told, BeginGroupCall, Joinable;
    MH.NothingHappens(b.chat);
    if a.Chat? {
      MH.StepKeeps(b.chat, a.message);
    }
  }

  lemma StartOk(directory: M.Directory, now: int)
    ensures BothOk(Start(directory, now))
  {
    MH.InitialOk(directory);
    InitialGood(now);
  }

  // ----- What a recipient is shown -----

  /** The room as one recipient may see it, decided by a lease taken for that recipient. */
  function AuthorizedRoom(room: Room, lease: Lease, recipient: UserId, terminal: bool, projection: int): Option<Room> {
    if (if terminal then lease.revision < (if projection == 0 then room.membershipRevision else projection)
        else lease.revision != room.membershipRevision)
       || recipient !in lease.members
    then None
    else
      Some(room.(participants := Members(room.participants, lease.members),
                 presenter := if room.presenter.Some? && room.presenter.value.user in lease.members then room.presenter else None))
  }

  function Members(participants: seq<Participant>, members: set<UserId>): seq<Participant> {
    if participants == [] then []
    else if participants[0].user in members then [participants[0]] + Members(participants[1..], members)
    else Members(participants[1..], members)
  }

  lemma {:induction false} MembersGrows(ps: seq<Participant>, p: Participant, members: set<UserId>)
    ensures Members(ps + [p], members) == Members(ps, members) + if p.user in members then [p] else []
    decreases |ps|
  {
    if ps == [] {
      assert ps + [p] == [p];
    } else {
      assert (ps + [p])[0] == ps[0] && (ps + [p])[1..] == ps[1..] + [p];
      MembersGrows(ps[1..], p, members);
    }
  }

  method AuthorizedGroupRoom(room: Room, lease: Option<Lease>, recipient: UserId, terminal: bool, projection: int)
    returns (shown: Option<Room>)
    ensures shown == if lease.None? then None else AuthorizedRoom(room, lease.value, recipient, terminal, projection)
  {
    if lease.None? { return None; }
    var revision, active := lease.value.revision, lease.value.members;
    if terminal {
      var minimum := projection;
      if minimum == 0 {
        minimum := room.membershipRevision;
      }
      if revision < minimum { return None; }
    } else if revision != room.membershipRevision {
      return None;
    }
    if recipient !in active { return None; }
    var participants := [];
    for i := 0 to |room.participants|
      invariant participants == Members(room.participants[..i], active)
    {
      var p := room.participants[i];
      assert room.participants[..i + 1] == room.participants[..i] + [p];
      MembersGrows(room.participants[..i], p, active);
      if p.user in active {
        participants := participants + [p];
      }
    }
    assert room.participants[..|room.participants|] == room.participants;
    var result := room.(participants := participants);
    if room.presenter.Some? && room.presenter.value.user !in active {
      result := result.(presenter := None);
    }
    return Some(result);
  }

  lemma {:induction false} AllMembers(ps: seq<Participant>, members: set<UserId>)
    requires Users(ps) <= members
    ensures Members(ps, members) == ps
    decreases |ps|
  {
    if ps != [] {
      assert ps[0] in ps;
      forall p <- ps[1..] ensures p.user in Users(ps) { assert p in ps; }
      AllMembers(ps[1..], members);
    }
  }

  lemma {:induction false} OnlyMembers(ps: seq<Participant>, members: set<UserId>)
    ensures forall p :: p in Members(ps, members) <==> p in ps && p.user in members
    decreases |ps|
  {
    if ps != [] {
      OnlyMembers(ps[1..], members);
      assert forall p :: p in ps <==> p == ps[0] || p in ps[1..];
    }
  }

  // ----- The results -----

  /** A lease that shows the revision of a room, taken when the room was stored or any time
      later, has every participant of that room as an active member. */
  lemma {:induction false} SameRevisionMeansMembers(directory: M.Directory, now: int, x: seq<Action>, y: seq<Action>,
                                                    id: RoomId, recipient: UserId)
    requires id in ActAll(Start(directory, now), x).calls.store.rooms
    requires var room := ActAll(Start(directory, now), x).calls.store.rooms[id];
             var lease := BeginGroupCall(ActAll(Start(directory, now), x + y).chat.db, room.conversation, recipient);
             lease.Some? && lease.value.revision == room.membershipRevision
    ensures var room := ActAll(Start(directory, now), x).calls.store.rooms[id];
            var lease := BeginGroupCall(ActAll(Start(directory, now), x + y).chat.db, room.conversation, recipient);
            Users(room.participants) <= lease.value.members
  {
    hide ActAll, MH.Inv, Good, Users, M.Active, MI.Reading;
    StartOk(directory, now);
    ActAllKeeps(Start(directory, now), x);
    ActAllOfConcat(Start(directory, now), x, y);
    ActAllKeeps(ActAll(Start(directory, now), x), y);
    var b, c := ActAll(Start(directory, now), x), ActAll(Start(directory, now), x + y);
    assert RosterWithin(b.chat, b.calls.store.rooms[id]);
    WithinLater(b.chat, c.chat, b.calls.store.rooms[id]);
    LeaseShows(c.chat.db, b.calls.store.rooms[id].conversation, recipient);
  }

  /** So the roster filter of a live snapshot, however late the snapshot is delivered,
      removes nobody: a recipient sees the whole room or nothing. */
  lemma {:induction false} FilterRemovesNobody(directory: M.Directory, now: int, x: seq<Action>, y: seq<Action>, id: RoomId,
                                               recipient: UserId)
    requires id in ActAll(Start(directory, now), x).calls.store.rooms
    requires ActAll(Start(directory, now), x).calls.store.rooms[id].status != Ended
    requires var room := ActAll(Start(directory, now), x).calls.store.rooms[id];
             BeginGroupCall(ActAll(Start(directory, now), x + y).chat.db, room.conversation, recipient).Some?
    ensures var room := ActAll(Start(directory, now), x).calls.store.rooms[id];
            var lease := BeginGroupCall(ActAll(Start(directory, now), x + y).chat.db, room.conversation, recipient).value;
            AuthorizedRoom(room, lease, recipient, false, 0) ==
              if lease.revision == room.membershipRevision then Some(room) else None
  {
    var room := ActAll(Start(directory, now), x).calls.store.rooms[id];
    var db := ActAll(Start(directory, now), x + y).chat.db;
    var lease := BeginGroupCall(db, room.conversation, recipient).value;
    LeaseShows(db, room.conversation, recipient);
    if lease.revision == room.membershipRevision {
      SameRevisionMeansMembers(directory, now, x, y, id, recipient);
      AllMembers(room.participants, lease.members);
      PresenterIsMember(directory, now, x, id);
      hide ActAll, BeginGroupCall, Members, Users;
    }
  }

  lemma {:induction false} PresenterIsMember(directory: M.Directory, now: int, x: seq<Action>, id: RoomId)
    requires id in ActAll(Start(directory, now), x).calls.store.rooms
    requires ActAll(Start(directory, now), x).calls.store.rooms[id].status != Ended
    ensures var room := ActAll(Start(directory, now), x).calls.store.rooms[id];
            room.presenter.Some? ==> room.presenter.value.user in Users(room.participants)
  {
    hide ActAll, MH.Inv, RostersOk, Known, ClaimsOk, AcceptancesOk;
    StartOk(directory, now);
    ActAllKeeps(Start(directory, now), x);
    assert RoomOk(ActAll(Start(directory, now), x).calls.store, id);
  }

  /** Even a final snapshot of a room shows active members only, and only to one of them. */
  lemma {:induction false} OnlyMembersAreShown(room: Room, lease: Lease, recipient: UserId, terminal: bool, projection: int)
    requires AuthorizedRoom(room, lease, recipient, terminal, projection).Some?
    ensures var shown := AuthorizedRoom(room, lease, recipient, terminal, projection).value;
            && recipient in lease.members
            && (forall p :: p in shown.participants <==> p in room.participants && p.user in lease.members)
            && (shown.presenter.Some? ==> shown.presenter.value.user in lease.members)
            && lease.revision >= if terminal && projection != 0 then projection else room.membershipRevision
  {
    OnlyMembers(room.participants, lease.members);
  }

  /** Exactly the active members of an existing group get a lease, on its current revision
      and its current active members. */
  lemma {:induction false} LeaseIsExact(db: M.Db, conversation: ConversationId, user: UserId)
    ensures var lease := BeginGroupCall(db, conversation, user);
            && (lease.Some? <==>
                  && conversation in db.conversations && db.conversations[conversation].kind.Group?
                  && user in db.conversations[conversation].members && db.conversations[conversation].members[user].active)
            && (lease.Some? ==>
                  var c := db.conversations[conversation];
                  lease.value.revision == c.kind.revision && lease.value.members == set u <- c.members | c.members[u].active)
  {
  }

  /** Some of the participants, in the order of the roster. */
  predicate InOrder(some: seq<Participant>, ps: seq<Participant>)
    decreases |ps|
  {
    || some == []
    || (ps != [] && (if some[0] == ps[0] then InOrder(some[1..], ps[1..]) else InOrder(some, ps[1..])))
  }

  lemma {:induction false} MembersInOrder(ps: seq<Participant>, members: set<UserId>)
    ensures InOrder(Members(ps, members), ps)
    ensures forall p :: multiset(Members(ps, members))[p] == if p.user in members then multiset(ps)[p] else 0
    decreases |ps|
  {
    if ps != [] {
      MembersInOrder(ps[1..], members);
      assert ps == [ps[0]] + ps[1..];
      OnlyMembers(ps, members);
      if ps[0].user in members {
        assert Members(ps, members)[1..] == Members(ps[1..], members);
      } else {
        SkipsOthers(Members(ps[1..], members), ps, members);
      }
    }
  }

  lemma SkipsOthers(some: seq<Participant>, ps: seq<Participant>, members: set<UserId>)
    requires ps != [] && ps[0].user !in members && InOrder(some, ps[1..]) && forall p <- some :: p.user in members
    ensures InOrder(some, ps)
  {
  }

  /** The final snapshot of a room, delivered at any later moment, reaches every active
      member and nobody else: what it shows is the room with the participants who are still
      active members, in order, and with the presenter if still one of them.  A snapshot
      that carries the revision of a membership change waits for that revision. */
  lemma {:induction false} FinalSnapshotReachesEveryMember(directory: M.Directory, now: int, x: seq<Action>, y: seq<Action>, id: RoomId,
                                                           recipient: UserId, projection: int)
    requires id in ActAll(Start(directory, now), x).calls.store.rooms
    requires var room := ActAll(Start(directory, now), x).calls.store.rooms[id];
             BeginGroupCall(ActAll(Start(directory, now), x + y).chat.db, room.conversation, recipient).Some?
    ensures var room := ActAll(Start(directory, now), x).calls.store.rooms[id];
            var lease := BeginGroupCall(ActAll(Start(directory, now), x + y).chat.db, room.conversation, recipient).value;
            var shown := AuthorizedRoom(room, lease, recipient, true, projection);
            && (shown.Some? <==> projection == 0 || projection <= lease.revision)
            && (shown.Some? ==>
                  && shown.value == room.(participants := shown.value.participants, presenter := shown.value.presenter)
                  && InOrder(shown.value.participants, room.participants)
                  && (forall p :: multiset(shown.value.participants)[p] == if p.user in lease.members then multiset(room.participants)[p] else 0)
                  && shown.value.presenter ==
                       if room.presenter.Some? && room.presenter.value.user in lease.members then room.presenter else None)
  {
    var room := ActAll(Start(directory, now), x).calls.store.rooms[id];
    var lease := BeginGroupCall(ActAll(Start(directory, now), x + y).chat.db, room.conversation, recipient).value;
    MembersInOrder(room.participants, lease.members);
    LeasesAreNoOlder(directory, now, x, y, id, recipient);
    hide ActAll, Members, InOrder;
  }

  lemma {:induction false} LeasesAreNoOlder(directory: M.Directory, now: int, x: seq<Action>, y: seq<Action>, id: RoomId, recipient: UserId)
    requires id in ActAll(Start(directory, now), x).calls.store.rooms
    requires var room := ActAll(Start(directory, now), x).calls.store.rooms[id];
             BeginGroupCall(ActAll(Start(directory, now), x + y).chat.db, room.conversation, recipient).Some?
    ensures var room := ActAll(Start(directory, now), x).calls.store.rooms[id];
            var lease := BeginGroupCall(ActAll(Start(directory, now), x + y).chat.db, room.conversation, recipient).value;
            room.membershipRevision <= lease.revision && recipient in lease.members
  {
    hide ActAll, MH.Inv, Good, Users, M.Active, MI.Reading;
    StartOk(directory, now);
    ActAllKeeps(Start(directory, now), x);
    ActAllOfConcat(Start(directory, now), x, y);
    ActAllKeeps(ActAll(Start(directory, now), x), y);
    var b, c := ActAll(Start(directory, now), x), ActAll(Start(directory, now), x + y);
    assert RosterWithin(b.chat, b.calls.store.rooms[id]);
    WithinLater(b.chat, c.chat, b.calls.store.rooms[id]);
    LeaseShows(c.chat.db, b.calls.store.rooms[id].conversation, recipient);
  }
}
