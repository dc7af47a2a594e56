/** Runs of both call machines: any interleaving of scripts, replicas and clock steps. */
module CallRuns {
  import opened Options
  import opened CallStore
  import opened CallInvariant
  import opened RoomInvariant

  datatype Command =
    | Wait(until: int)
    | Acquire(users: seq<UserId>, token: Token)
    | GiveBack(users: seq<UserId>, token: Token)
    | StartDirect(call: CallId, conversation: ConversationId, caller: UserId, recipient: UserId,
                  endpoint: Endpoint, token: Token, online: Presence)
    | Accept(call: CallId, user: UserId, endpoint: Endpoint)
    | Decline(call: CallId, user: UserId)
    | Cancel(call: CallId, user: UserId, endpoint: Endpoint)
    | EndDirect(call: CallId, user: UserId, endpoint: Endpoint, online: Presence)
    | SweepCalls(ids: seq<CallId>)
    | StartGroup(room: RoomId, conversation: ConversationId, membershipRevision: int, generation: int,
                 socket: Socket, token: Token)
    | Join(room: RoomId, socket: Socket, membershipRevision: int, token: Token)
    | Leave(room: RoomId, socket: Socket)
    | EndGroup(room: RoomId, socket: Socket)
    | Present(room: RoomId, socket: Socket, presenting: bool)
    | MembershipChanged(room: RoomId, conversation: ConversationId, generation: int,
                        stateRevision: int, membershipRevision: int)
    | Abort(room: RoomId, generation: int, socket: Socket)
    | SweepRooms(ids: seq<RoomId>, limit: nat)

  datatype Acceptance = Acceptance(call: CallId, endpoint: Endpoint)

  /** The store, the identifiers handed out so far, what was accepted, and what the two
      sweeps answered: the due calls, and the rooms they ended. */
  datatype World = World(
    store: Store,
    usedCalls: set<CallId>,
    usedRooms: set<RoomId>,
    acceptances: seq<Acceptance>,
    callClaims: seq<CallId>,
    claims: seq<RoomId>)

  function Initial(now: int): World {
    World(Empty(now), {}, {}, [], [], [])
  }

  /** Start commands carry an identifier never used before; sweeps act on what the
      expiry index answers.  Anything else is not a command of the system. */
  function Step(w: World, c: Command): World {
    var s := w.store;
    match c
    case Wait(until) => w.(store := Tick(s, until))
    case Acquire(users, token) => w.(store := AcquireAdmission(s, users, token).store)
    case GiveBack(users, token) => w.(store := ReleaseAdmission(s, users, token).store)
    case StartDirect(id, conversation, caller, recipient, endpoint, token, online) =>
      if id in w.usedCalls then w
      else w.(store := StartCall(s, id, conversation, caller, recipient, endpoint, token, online).store,
              usedCalls := w.usedCalls + {id})
    case Accept(id, user, endpoint) =>
      var e := AcceptCall(s, id, user, endpoint);
      w.(store := e.store,
         acceptances := if e.reply == Done then w.acceptances + [Acceptance(id, endpoint)] else w.acceptances)
    case Decline(id, user) => w.(store := DeclineCall(s, id, user).store)
    case Cancel(id, user, endpoint) => w.(store := CancelCall(s, id, user, endpoint).store)
    case EndDirect(id, user, endpoint, online) => w.(store := EndCall(s, id, user, endpoint, online).store)
    case SweepCalls(ids) =>
      if AllDue(s.callExpiry, s.now, ids) then
        w.(store := ExpireCalls(s, ids), callClaims := w.callClaims + ids)
      else w
    case StartGroup(id, conversation, membershipRevision, generation, socket, token) =>
      if id in w.usedRooms then w
      else w.(store := StartRoom(s, id, conversation, membershipRevision, generation, socket, token).store,
              usedRooms := w.usedRooms + {id})
    case Join(id, socket, membershipRevision, token) =>
      w.(store := JoinRoom(s, id, socket, membershipRevision, token).store)
    case Leave(id, socket) => w.(store := LeaveRoom(s, id, socket).store)
    case EndGroup(id, socket) => w.(store := EndRoom(s, id, socket).store)
    case Present(id, socket, presenting) => w.(store := SetPresenter(s, id, socket, presenting).store)
    case MembershipChanged(id, conversation, generation, stateRevision, membershipRevision) =>
      w.(store := EndRoomForMembership(s, id, conversation, generation, stateRevision, membershipRevision).store)
    case Abort(id, generation, socket) => w.(store := AbortRoomStart(s, id, generation, socket).store)
    case SweepRooms(ids, limit) =>
      if DueBatch(s.roomExpiry, s.now, ids, limit) then
        var sweep := ExpireRooms(s, ids);
        w.(store := sweep.store, claims := w.claims + sweep.claimed)
      else w
  }

  function Run(w: World, commands: seq<Command>): World
    decreases |commands|
  {
    if commands == [] then w else Run(Step(w, commands[0]), commands[1..])
  }

  lemma {:induction false} RunOfConcat(w: World, a: seq<Command>, b: seq<Command>)
    ensures Run(w, a + b) == Run(Run(w, a), b)
    decreases |a|
  {
    hide Step;
    if a == [] {
      assert a + b == b;
    } else {
      assert (a + b)[0] == a[0] && (a + b)[1..] == a[1..] + b;
      RunOfConcat(Step(w, a[0]), a[1..], b);
    }
  }

  // ----- The invariant over runs -----

  ghost predicate Known(w: World) {
    w.store.calls.Keys <= w.usedCalls && w.store.rooms.Keys <= w.usedRooms
  }

  lemma {:induction false} StepKeepsInv(w: World, c: Command)
    requires Inv(w.store) && Known(w)
    ensures Inv(Step(w, c).store)
  {
    hide Inv, Known, DueBatch, Tick, AcquireAdmission, ReleaseAdmission, StartCall, AcceptCall, DeclineCall, CancelCall,
      EndCall, ExpireCalls, AllDue, StartRoom, JoinRoom, LeaveRoom, EndRoom, SetPresenter, EndRoomForMembership, AbortRoomStart,
      ExpireRooms;
    var s := w.store;
    match c
    case Wait(until) => TickKeeps(s, until);
    case Acquire(users, token) => AcquireKeeps(s, users, token);
    case GiveBack(users, token) => ReleaseKeeps(s, users, token);
    case StartDirect(id, conversation, caller, recipient, endpoint, token, online) =>
      if id !in w.usedCalls {
        UnusedCall(w, id);
        StartCallKeeps(s, id, conversation, caller, recipient, endpoint, token, online);
      }
    case Accept(id, user, endpoint) => AcceptCallKeeps(s, id, user, endpoint);
    case Decline(id, user) => DeclineCallKeeps(s, id, user);
    case Cancel(id, user, endpoint) => CancelCallKeeps(s, id, user, endpoint);
    case EndDirect(id, user, endpoint, online) => EndCallKeeps(s, id, user, endpoint, online);
    case SweepCalls(ids) => ExpireCallsKeeps(s, ids);
    case StartGroup(id, conversation, membershipRevision, generation, socket, token) =>
      StartRoomKeeps(s, id, conversation, membershipRevision, generation, socket, token);
    case Join(id, socket, membershipRevision, token) => JoinRoomKeeps(s, id, socket, membershipRevision, token);
    case Leave(id, socket) => LeaveRoomKeeps(s, id, socket);
    case EndGroup(id, socket) => EndRoomKeeps(s, id, socket);
    case Present(id, socket, presenting) => SetPresenterKeeps(s, id, socket, presenting);
    case MembershipChanged(id, conversation, generation, stateRevision, membershipRevision) =>
      EndRoomForMembershipKeeps(s, id, conversation, generation, stateRevision, membershipRevision);
    case Abort(id, generation, socket) => AbortRoomStartKeeps(s, id, generation, socket);
    case SweepRooms(ids, limit) =>
      if DueBatch(s.roomExpiry, s.now, ids, limit) {
        BatchIsDue(s.roomExpiry, s.now, ids, limit);
        ExpireRoomsKeeps(s, ids);
      }
  }

  lemma UnusedCall(w: World, id: CallId)
    requires Known(w) && id !in w.usedCalls
    ensures id !in w.store.calls
  {
  }

  lemma BatchIsDue(index: map<nat, int>, now: int, ids: seq<nat>, limit: nat)
    requires DueBatch(index, now, ids, limit)
    ensures forall id <- ids :: id in index ==> index[id] <= now
  {
  }

  lemma {:induction false} AcquireKeeps(s: Store, users: seq<UserId>, token: Token)
    requires Inv(s)
    ensures Inv(AcquireAdmission(s, users, token).store)
  {
    hide Inv;
    AdmissionKeeps(s, AcquireAdmission(s, users, token).store.admissions);
  }

  lemma {:induction false} ReleaseKeeps(s: Store, users: seq<UserId>, token: Token)
    requires Inv(s)
    ensures Inv(ReleaseAdmission(s, users, token).store)
  {
    hide Inv, ReleaseAll;
    AdmissionKeeps(s, ReleaseAdmission(s, users, token).store.admissions);
  }
}
