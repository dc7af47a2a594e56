/** The coordination scripts as functions on the keys they read and write.

    Every script is one atomic step and reads the clock once.  A key at or past its
    deadline is absent, so the store keeps live keys only and the passing of time
    removes them.  Identifiers are opaque numbers; zero stands for an empty string or
    nil identifier.  Times are milliseconds. */
module CallStore {
  import opened Options

  const RING_TTL := 30_000
  const ACTIVE_TTL := 7_200_000
  const ENDED_TTL := 60_000
  const ADMISSION_TTL := 2_000
  const ROOM_CAPACITY := 4

  type UserId = nat
  type DeviceId = nat
  type ConnectionId = nat
  type CallId = nat
  type RoomId = nat
  type ConversationId = nat
  type Token = nat

  /** A string key and the moment it expires. */
  datatype Hold = Hold(id: nat, until: int)

  datatype Status = Ringing | Active | Ended

  datatype Endpoint = Endpoint(device: DeviceId, connection: ConnectionId)

  datatype Call = Call(
    conversation: ConversationId,
    caller: UserId,
    recipient: UserId,
    callerEndpoint: Endpoint,
    accepted: Option<Endpoint>,
    status: Status,
    expiresAt: int,
    until: int)

  datatype Participant = Participant(user: UserId, device: DeviceId)

  datatype Socket = Socket(participant: Participant, connection: ConnectionId)

  datatype Room = Room(
    conversation: ConversationId,
    membershipRevision: int,
    generation: int,
    stateRevision: int,
    status: Status,
    expiresAt: int,
    participants: seq<Participant>,
    connections: seq<Socket>,
    presenter: Option<Participant>,
    endedParticipants: seq<Participant>,
    endedConnections: seq<Socket>,
    until: int)

  datatype Store = Store(
    now: int,
    calls: map<CallId, Call>,
    callUsers: map<UserId, Hold>,
    callDevices: map<Participant, Hold>,
    callExpiry: map<CallId, int>,
    admissions: map<UserId, Hold>,
    rooms: map<RoomId, Room>,
    roomUsers: map<UserId, Hold>,
    roomConversations: map<ConversationId, Hold>,
    roomExpiry: map<RoomId, int>)

  datatype Reply = Done | NotFound | NotAllowed | Busy | Taken | Unavailable | Full

  datatype Effect = Effect(store: Store, reply: Reply)

  /** The connections each user is known to have; presence itself is not modelled. */
  type Presence = set<(UserId, ConnectionId)>

  predicate Online(online: Presence, user: UserId) {
    exists member <- online :: member.0 == user
  }

  /** An empty connection identifier is never checked against presence. */
  predicate Lost(online: Presence, user: UserId, connection: ConnectionId) {
    connection != 0 && (user, connection) !in online
  }

  function Empty(now: int): Store {
    Store(now, map[], map[], map[], map[], map[], map[], map[], map[], map[])
  }

  // ----- Keys -----

  function Release<K>(holds: map<K, Hold>, key: K, id: nat): map<K, Hold> {
    if key in holds && holds[key].id == id then holds - {key} else holds
  }

  function ReleaseAll<K>(holds: map<K, Hold>, keys: set<K>, id: nat): map<K, Hold> {
    map k | k in holds && !(k in keys && holds[k].id == id) :: holds[k]
  }

  function Live<K>(holds: map<K, Hold>, now: int): map<K, Hold> {
    map k | k in holds && now < holds[k].until :: holds[k]
  }

  /** Time passes and expired keys disappear; sorted sets carry no deadline. */
  function Tick(s: Store, now: int): Store {
    if now < s.now then s
    else s.(now := now,
            calls := map id | id in s.calls && now < s.calls[id].until :: s.calls[id],
            callUsers := Live(s.callUsers, now),
            callDevices := Live(s.callDevices, now),
            admissions := Live(s.admissions, now),
            rooms := map id | id in s.rooms && now < s.rooms[id].until :: s.rooms[id],
            roomUsers := Live(s.roomUsers, now),
            roomConversations := Live(s.roomConversations, now))
  }

  // ----- Admission tokens -----

  predicate Admitted(s: Store, user: UserId, token: Token) {
    token != 0 && user in s.admissions && s.admissions[user].id == token
  }

  function AcquireAdmission(s: Store, users: seq<UserId>, token: Token): Effect {
    if users == [] || 0 in users then Effect(s, NotAllowed)
    else if exists u <- users :: u in s.admissions then Effect(s, Busy)
    else Effect(s.(admissions := s.admissions + (map u <- users :: Hold(token, s.now + ADMISSION_TTL))), Done)
  }

  function ReleaseAdmission(s: Store, users: seq<UserId>, token: Token): Effect {
    if token == 0 then Effect(s, Done)
    else Effect(s.(admissions := ReleaseAll(s.admissions, (set u <- users), token)), Done)
  }

  // ----- Direct calls -----

  function CallerDevice(c: Call): Participant {
    Participant(c.caller, c.callerEndpoint.device)
  }

  function Devices(c: Call): set<Participant> {
    {CallerDevice(c)} + if c.accepted.Some? then {Participant(c.recipient, c.accepted.value.device)} else {}
  }

  /** End a call and give back the keys that still name it. */
  function CloseCall(s: Store, id: CallId, devices: set<Participant>): Store
    requires id in s.calls
  {
    var call := s.calls[id];
    s.(calls := s.calls[id := call.(status := Ended, until := s.now + ENDED_TTL)],
       callUsers := ReleaseAll(s.callUsers, {call.caller, call.recipient}, id),
       callDevices := ReleaseAll(s.callDevices, devices, id),
       callExpiry := s.callExpiry - {id})
  }

  predicate Stale(c: Call, online: Presence) {
    match c.status
    case Ended => true
    case Active =>
      || Lost(online, c.caller, c.callerEndpoint.connection)
      || (c.accepted.Some? && Lost(online, c.recipient, c.accepted.value.connection))
    case Ringing =>
      || Lost(online, c.caller, c.callerEndpoint.connection)
      || !Online(online, c.recipient)
  }

  /** A reservation left by a call whose browsers are gone does not block a new call. */
  function RecoverStaleCall(s: Store, id: CallId, caller: UserId, recipient: UserId, online: Presence): Store {
    if id !in s.calls then s.(callUsers := ReleaseAll(s.callUsers, {caller, recipient}, id))
    else if Stale(s.calls[id], online) then CloseCall(s, id, Devices(s.calls[id]))
    else s
  }

  function Recovered(s: Store, caller: UserId, recipient: UserId, online: Presence): Store {
    if caller in s.callUsers then RecoverStaleCall(s, s.callUsers[caller].id, caller, recipient, online)
    else if recipient in s.callUsers then RecoverStaleCall(s, s.callUsers[recipient].id, caller, recipient, online)
    else s
  }

  function RingCall(s: Store, id: CallId, conversation: ConversationId, caller: UserId, recipient: UserId,
                    endpoint: Endpoint): Store
  {
    var hold := Hold(id, s.now + RING_TTL);
    s.(calls := s.calls[id := Call(conversation, caller, recipient, endpoint, None, Ringing,
                                   s.now + RING_TTL, s.now + 60_000)],
       callUsers := s.callUsers[caller := hold][recipient := hold],
       callDevices := s.callDevices[Participant(caller, endpoint.device) := hold],
       callExpiry := s.callExpiry[id := s.now + RING_TTL])
  }

  function StartCall(s: Store, id: CallId, conversation: ConversationId, caller: UserId, recipient: UserId,
                     endpoint: Endpoint, token: Token, online: Presence): Effect
  {
    if token == 0 then Effect(s, NotAllowed)
    else if !Admitted(s, caller, token) || !Admitted(s, recipient, token) then Effect(s, Busy)
    else if caller in s.roomUsers || recipient in s.roomUsers then Effect(s, Busy)
    else
      var r := Recovered(s, caller, recipient, online);
      if caller in r.callUsers || recipient in r.callUsers then Effect(r, Busy)
      else if !Online(online, recipient) then Effect(r, Unavailable)
      else
        Effect(RingCall(r, id, conversation, caller, recipient, endpoint), Done)
  }

  function ActivateCall(s: Store, id: CallId, user: UserId, endpoint: Endpoint): Store
    requires id in s.calls
  {
    var call := s.calls[id];
    var hold := Hold(id, s.now + ACTIVE_TTL);
    s.(calls := s.calls[id := call.(accepted := Some(endpoint), status := Active,
                                    expiresAt := s.now + ACTIVE_TTL, until := s.now + ACTIVE_TTL)],
       callUsers := s.callUsers[call.caller := hold][user := hold],
       callDevices := s.callDevices[CallerDevice(call) := hold][Participant(user, endpoint.device) := hold],
       callExpiry := s.callExpiry[id := s.now + ACTIVE_TTL])
  }

  /** Accepting does not look at the room reservations again. */
  function AcceptCall(s: Store, id: CallId, user: UserId, endpoint: Endpoint): Effect {
    if id !in s.calls then Effect(s, NotFound)
    else if s.calls[id].status != Ringing || s.calls[id].expiresAt <= s.now then Effect(s, Taken)
    else if s.calls[id].recipient != user then Effect(s, NotAllowed)
    else Effect(ActivateCall(s, id, user, endpoint), Done)
  }

  function DeclineCall(s: Store, id: CallId, user: UserId): Effect {
    if id !in s.calls then Effect(s, NotFound)
    else if s.calls[id].status != Ringing then Effect(s, Taken)
    else if s.calls[id].recipient != user then Effect(s, NotAllowed)
    else Effect(CloseCall(s, id, {CallerDevice(s.calls[id])}), Done)
  }

  predicate IsEndpoint(stored: Endpoint, given: Endpoint) {
    stored.device == given.device && (stored.connection == 0 || stored.connection == given.connection)
  }

  function CancelCall(s: Store, id: CallId, user: UserId, endpoint: Endpoint): Effect {
    if id !in s.calls then Effect(s, NotFound)
    else if s.calls[id].status != Ringing then Effect(s, Taken)
    else if s.calls[id].caller != user || !IsEndpoint(s.calls[id].callerEndpoint, endpoint) then Effect(s, NotAllowed)
    else Effect(CloseCall(s, id, {CallerDevice(s.calls[id])}), Done)
  }

  predicate MayEnd(c: Call, user: UserId, endpoint: Endpoint, online: Presence) {
    || (user == c.caller && IsEndpoint(c.callerEndpoint, endpoint))
    || (user == c.recipient && c.accepted.Some? && IsEndpoint(c.accepted.value, endpoint))
    || (c.status == Ringing && user == c.recipient && (c.accepted.None? || c.accepted.value.device == 0)
        && !Online(online, c.recipient))
  }

  function EndCall(s: Store, id: CallId, user: UserId, endpoint: Endpoint, online: Presence): Effect {
    if id !in s.calls then Effect(s, NotFound)
    else if !MayEnd(s.calls[id], user, endpoint, online) then Effect(s, NotAllowed)
    else if s.calls[id].status == Ended then Effect(s, NotFound)
    else Effect(CloseCall(s, id, Devices(s.calls[id])), Done)
  }

  function ExpireCall(s: Store, id: CallId): Store {
    if id in s.calls then CloseCall(s, id, Devices(s.calls[id]))
    else s.(callExpiry := s.callExpiry - {id})
  }

  function ExpireCalls(s: Store, ids: seq<CallId>): Store
    decreases |ids|
  {
    if ids == [] then s else ExpireCalls(ExpireCall(s, ids[0]), ids[1..])
  }

  /** The swept calls whose record can still be read, in the order of the batch. */
  function Readable(s: Store, ids: seq<CallId>): seq<CallId> {
    if ids == [] then []
    else Readable(s, ids[..|ids| - 1]) + if ids[|ids| - 1] in s.calls then [ids[|ids| - 1]] else []
  }

  // ----- Group rooms -----

  function Users(participants: seq<Participant>): set<UserId> {
    set p <- participants :: p.user
  }

  function OpenRoom(s: Store, id: RoomId, conversation: ConversationId, membershipRevision: int, generation: int,
                    socket: Socket): Store
  {
    var until := s.now + RING_TTL + ENDED_TTL;
    s.(rooms := s.rooms[id := Room(conversation, membershipRevision, generation, 1, Ringing, s.now + RING_TTL,
                                   [socket.participant], [socket], None, [], [], until)],
       roomConversations := s.roomConversations[conversation := Hold(id, until)],
       roomUsers := s.roomUsers[socket.participant.user := Hold(id, until)],
       roomExpiry := s.roomExpiry[id := s.now + RING_TTL])
  }

  function StartRoom(s: Store, id: RoomId, conversation: ConversationId, membershipRevision: int, generation: int,
                     socket: Socket, token: Token): Effect
  {
    var user := socket.participant.user;
    if id == 0 || conversation == 0 || membershipRevision <= 0 || generation <= 0
       || user == 0 || socket.participant.device == 0 || socket.connection == 0 || token == 0
    then Effect(s, NotAllowed)
    else if !Admitted(s, user, token) then Effect(s, Busy)
    else if id in s.rooms then Effect(s, Unavailable)
    else if conversation in s.roomConversations || user in s.roomUsers || user in s.callUsers then Effect(s, Busy)
    else
      Effect(OpenRoom(s, id, conversation, membershipRevision, generation, socket), Done)
  }

  /** Renewed reservations of the participants whose key still names the room. */
  function Renew(holds: map<UserId, Hold>, users: set<UserId>, id: RoomId, until: int): map<UserId, Hold> {
    map u | u in holds :: if u in users && holds[u].id == id then Hold(id, until) else holds[u]
  }

  function AddParticipant(s: Store, id: RoomId, socket: Socket): Store
    requires id in s.rooms
  {
    var room := s.rooms[id];
    var until := s.now + ACTIVE_TTL + ENDED_TTL;
    var participants := room.participants + [socket.participant];
    s.(rooms := s.rooms[id := room.(participants := participants,
                                    connections := room.connections + [socket],
                                    stateRevision := room.stateRevision + 1,
                                    status := Active,
                                    expiresAt := s.now + ACTIVE_TTL,
                                    until := until)],
       roomUsers := Renew(s.roomUsers[socket.participant.user := Hold(id, until)], Users(participants), id, until),
       roomConversations := s.roomConversations[room.conversation := Hold(id, until)],
       roomExpiry := s.roomExpiry[id := s.now + ACTIVE_TTL])
  }

  function JoinRoom(s: Store, id: RoomId, socket: Socket, membershipRevision: int, token: Token): Effect {
    var user := socket.participant.user;
    if token == 0 then Effect(s, NotAllowed)
    else if !Admitted(s, user, token) then Effect(s, Busy)
    else if id !in s.rooms then Effect(s, NotFound)
    else
      var room := s.rooms[id];
      if room.status == Ended then Effect(s, Unavailable)
      else if room.expiresAt <= s.now then Effect(s, NotFound)
      else if user in s.roomUsers || user in s.callUsers then Effect(s, Busy)
      else if room.membershipRevision != membershipRevision then Effect(s, NotAllowed)
      else if |room.participants| >= ROOM_CAPACITY then Effect(s, Full)
      else if room.conversation in s.roomConversations && s.roomConversations[room.conversation].id != id then Effect(s, Busy)
      else
        Effect(AddParticipant(s, id, socket), Done)
  }

  function Without(participants: seq<Participant>, leaver: Participant): seq<Participant> {
    if participants == [] then []
    else if participants[0] == leaver then Without(participants[1..], leaver)
    else [participants[0]] + Without(participants[1..], leaver)
  }

  function SocketsOf(p: Participant, connections: seq<Socket>): seq<Socket> {
    if connections == [] then []
    else if connections[0].participant == p then [connections[0]] + SocketsOf(p, connections[1..])
    else SocketsOf(p, connections[1..])
  }

  /** The sockets of each remaining participant, in the participants' order. */
  function KeptSockets(kept: seq<Participant>, connections: seq<Socket>): seq<Socket> {
    if kept == [] then [] else SocketsOf(kept[0], connections) + KeptSockets(kept[1..], connections)
  }

  /** The hash of an ended room: a tombstone of the roster stays for late readers. */
  function ClosedRoom(room: Room, now: int, keepRoster: bool, keepPresenter: bool): Room {
    room.(stateRevision := room.stateRevision + 1,
          status := Ended,
          participants := if keepRoster then room.participants else [],
          connections := if keepRoster then room.connections else [],
          presenter := if keepPresenter then room.presenter else None,
          endedParticipants := room.participants,
          endedConnections := room.connections,
          until := now + ENDED_TTL)
  }

  function CloseRoom(s: Store, id: RoomId, released: set<UserId>, keepRoster: bool, keepPresenter: bool): Store
    requires id in s.rooms
  {
    s.(rooms := s.rooms[id := ClosedRoom(s.rooms[id], s.now, keepRoster, keepPresenter)],
       roomUsers := ReleaseAll(s.roomUsers, released, id),
       roomConversations := Release(s.roomConversations, s.rooms[id].conversation, id),
       roomExpiry := s.roomExpiry - {id})
  }

  function LeaveRoom(s: Store, id: RoomId, socket: Socket): Effect {
    if id !in s.rooms then Effect(s, NotFound)
    else if socket !in s.rooms[id].connections then Effect(s, NotAllowed)
    else
      var room := s.rooms[id];
      var kept := Without(room.participants, socket.participant);
      var presenter := if room.presenter == Some(socket.participant) then None else room.presenter;
      if kept == [] then
        Effect(CloseRoom(s.(rooms := s.rooms[id := room.(presenter := presenter)]), id,
                         {socket.participant.user}, false, true),
               Done)
      else
        Effect(s.(rooms := s.rooms[id := room.(participants := kept,
                                               connections := KeptSockets(kept, room.connections),
                                               presenter := presenter,
                                               stateRevision := room.stateRevision + 1)],
                  roomUsers := ReleaseAll(s.roomUsers, {socket.participant.user}, id)),
               Done)
  }

  function EndRoom(s: Store, id: RoomId, socket: Socket): Effect {
    if id !in s.rooms then Effect(s, NotFound)
    else if socket !in s.rooms[id].connections then Effect(s, NotAllowed)
    else Effect(CloseRoom(s, id, Users(s.rooms[id].participants), false, true), Done)
  }

  function SetPresenter(s: Store, id: RoomId, socket: Socket, presenting: bool): Effect {
    if id !in s.rooms then Effect(s, NotFound)
    else
      var room := s.rooms[id];
      if socket !in room.connections then Effect(s, NotAllowed)
      else if !presenting && room.presenter.Some? && room.presenter != Some(socket.participant) then Effect(s, NotAllowed)
      else Effect(s.(rooms := s.rooms[id := room.(presenter := if presenting then Some(socket.participant) else None,
                                                  stateRevision := room.stateRevision + 1)]),
                  Done)
  }

  /** A membership change ends the room it observed, and no later one. */
  function EndRoomForMembership(s: Store, id: RoomId, conversation: ConversationId, generation: int,
                                stateRevision: int, membershipRevision: int): Effect
  {
    if id !in s.rooms then Effect(s, NotFound)
    else
      var room := s.rooms[id];
      if conversation !in s.roomConversations || s.roomConversations[conversation].id != id
         || room.generation != generation || room.stateRevision != stateRevision
         || room.membershipRevision >= membershipRevision || room.status == Ended
      then Effect(s, NotAllowed)
      else
        var closed := CloseRoom(s, id, Users(room.participants), false, true);
        Effect(closed.(roomConversations := s.roomConversations - {conversation}), Done)
  }

  /** Undo one attempted start, by the socket that attempted it. */
  function AbortRoomStart(s: Store, id: RoomId, generation: int, socket: Socket): Effect {
    if id !in s.rooms then Effect(s, NotFound)
    else
      var room := s.rooms[id];
      if room.generation != generation then Effect(s, NotAllowed)
      else if socket !in room.connections then Effect(s, NotAllowed)
      else if room.status == Ended then Effect(s, NotFound)
      else Effect(CloseRoom(s, id, Users(room.participants), false, false), Done)
  }

  predicate Expired(s: Store, id: RoomId) {
    id in s.rooms && s.rooms[id].status != Ended && s.rooms[id].expiresAt <= s.now
  }

  function ExpireRoom(s: Store, id: RoomId): Store {
    if Expired(s, id) then CloseRoom(s, id, Users(s.rooms[id].participants), true, false)
    else s.(roomExpiry := s.roomExpiry - {id})
  }

  datatype Sweep = Sweep(store: Store, claimed: seq<RoomId>)

  function ExpireRooms(s: Store, ids: seq<RoomId>): Sweep
    decreases |ids|
  {
    if ids == [] then Sweep(s, [])
    else
      var rest := ExpireRooms(ExpireRoom(s, ids[0]), ids[1..]);
      Sweep(rest.store, (if Expired(s, ids[0]) then [ids[0]] else []) + rest.claimed)
  }

  /** What a range query over the expiry index may answer: distinct members that are due,
      earliest first, and all of them unless the limit cuts the answer short. */
  predicate DueBatch(index: map<nat, int>, now: int, ids: seq<nat>, limit: nat) {
    && |ids| <= limit
    && (forall i, j :: 0 <= i < j < |ids| ==> ids[i] != ids[j])
    && (forall id <- ids :: id in index && index[id] <= now)
    && (forall i, j :: 0 <= i < j < |ids| ==> index[ids[i]] <= index[ids[j]])
    && (forall id <- index :: index[id] <= now && id !in ids ==>
          |ids| == limit && forall other <- ids :: index[other] <= index[id])
  }

  /** The same query without a limit. */
  predicate AllDue(index: map<nat, int>, now: int, ids: seq<nat>) {
    DueBatch(index, now, ids, |ids| + 1)
  }
}
