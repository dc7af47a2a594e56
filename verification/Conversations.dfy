/** Conversations, their message logs, memberships and read cursors, one function for
    each database transaction.

    Every transaction locks the conversation row, so it is one step.  Identifiers are
    opaque numbers and zero is the nil identifier.  Sequences start at one. */
module Conversations {
  import opened Options

  const MAX_GROUP_MEMBERS := 16

  type UserId = nat
  type ConversationId = nat
  type ClientId = nat

  datatype Role = Owner | Admin | Member

  datatype Membership = Membership(role: Role, active: bool, visibleFrom: int)

  datatype Cursor = Cursor(lastRead: int, unread: int)

  /** What makes a message unique for its sender: the identifier the client chose, or a
      generated one for entries the system writes. */
  datatype MessageKey = Chosen(client: ClientId) | Generated(conversation: ConversationId, sequence: int)

  datatype Message = Message(sender: UserId, key: MessageKey, sequence: int, system: bool, expiresAt: Option<int>)

  datatype Kind = Direct(low: UserId, high: UserId) | Group(owner: UserId, revision: int)

  datatype Conversation = Conversation(
    kind: Kind,
    members: map<UserId, Membership>,
    cursors: map<UserId, Cursor>,
    log: seq<Message>,
    next: int)

  datatype Slot = Slot(conversation: ConversationId, message: Message)

  /** A membership event on its way to the group's members. */
  datatype Event = Event(conversation: ConversationId, revision: int, deleted: bool,
                         recipients: set<UserId>, authorized: set<UserId>)

  /** The accounts, and those of them that may be put into a group. */
  datatype Directory = Directory(known: set<UserId>, verified: set<UserId>)

  datatype Db = Db(
    directory: Directory,
    conversations: map<ConversationId, Conversation>,
    sent: map<(UserId, MessageKey), Slot>,
    events: seq<Event>)

  datatype Reply =
    | Done
    | NotFound
    | Forbidden
    | GroupFull
    | MemberExists
    | SelfTransfer
    | InvalidMembers
    | InvalidRole
    | Failed
    | ConversationNotFound
    | KeyConflict
    | MessageExpired
    | InvalidMention
    | Sent(message: Message, created: bool, recipients: set<UserId>)
    | Read(sequence: int, visibleFrom: int, peers: set<UserId>)

  datatype Outcome = Outcome(db: Db, reply: Reply)

  // ----- Reading a conversation -----

  predicate IsActive(c: Conversation, user: UserId) {
    user in c.members && c.members[user].active
  }

  function Active(c: Conversation): set<UserId> {
    set u <- c.members | c.members[u].active
  }

  function Elements(users: seq<UserId>): set<UserId> {
    set u <- users
  }

  function Max(a: int, b: int): int {
    if a < b then b else a
  }

  function Min(a: int, b: int): int {
    if a < b then a else b
  }

  /** How many messages of others lie after a position and not before a boundary. */
  function Recount(log: seq<Message>, user: UserId, from: int, after: int): nat {
    if log == [] then 0
    else
      var m := log[|log| - 1];
      Recount(log[..|log| - 1], user, from, after)
        + if m.sender != user && m.sequence >= from && m.sequence > after then 1 else 0
  }

  /** The highest sequence at or after a boundary, or the one just before the boundary. */
  function HighestFrom(log: seq<Message>, from: int): int {
    if log == [] then from - 1
    else
      var rest := HighestFrom(log[..|log| - 1], from);
      if log[|log| - 1].sequence >= from then Max(rest, log[|log| - 1].sequence) else rest
  }

  // ----- Writing a message -----

  /** Everyone active but the sender has one more unread message. */
  function Bumped(c: Conversation, sender: UserId): map<UserId, Cursor> {
    map u | u in c.cursors.Keys + (Active(c) - {sender}) ::
      if u == sender || !IsActive(c, u) then c.cursors[u]
      else if u in c.cursors then Cursor(c.cursors[u].lastRead, c.cursors[u].unread + 1)
      else Cursor(c.members[u].visibleFrom - 1, 1)
  }

  function Appended(c: Conversation, m: Message): Conversation {
    c.(log := c.log + [m], next := c.next + 1, cursors := Bumped(c, m.sender))
  }

  function Write(db: Db, id: ConversationId, m: Message): Db
    requires id in db.conversations
  {
    db.(conversations := db.conversations[id := Appended(db.conversations[id], m)],
        sent := db.sent[(m.sender, m.key) := Slot(id, m)])
  }

  function Send(db: Db, id: ConversationId, sender: UserId, client: ClientId, mentions: set<UserId>, now: int,
                retention: Option<int>): Outcome
  {
    if id !in db.conversations || !IsActive(db.conversations[id], sender) then Outcome(db, ConversationNotFound)
    else
      var c := db.conversations[id];
      var peers := Active(c) - {sender};
      if (sender, Chosen(client)) in db.sent then
        var slot := db.sent[(sender, Chosen(client))];
        if slot.conversation != id then Outcome(db, KeyConflict)
        else if slot.message.expiresAt.Some? && slot.message.expiresAt.value <= now then Outcome(db, MessageExpired)
        else Outcome(db, Sent(slot.message, false, peers))
      else if sender in mentions || !(mentions <= Active(c)) then Outcome(db, InvalidMention)
      else
        var expiresAt := if retention.Some? then Some(now + retention.value) else None;
        var m := Message(sender, Chosen(client), c.next, false, expiresAt);
        Outcome(Write(db, id, m), Sent(m, true, peers))
  }

  // ----- Reading -----

  predicate MayRead(c: Conversation, user: UserId) {
    IsActive(c, user) || (c.kind.Direct? && user in {c.kind.low, c.kind.high})
  }

  function Boundary(c: Conversation, user: UserId): int {
    if IsActive(c, user) then c.members[user].visibleFrom else 1
  }

  function Peers(c: Conversation, user: UserId): set<UserId> {
    if c.kind.Direct? then {if c.kind.low == user then c.kind.high else c.kind.low}
    else Active(c) - {user}
  }

  /** The position a request to read up to `sequence` may really reach. */
  function Reachable(c: Conversation, from: int, sequence: int): int {
    Max(from - 1, Min(sequence, HighestFrom(c.log, from)))
  }

  function Advanced(c: Conversation, user: UserId, sequence: int): Conversation {
    var from := Boundary(c, user);
    var requested := Reachable(c, from, sequence);
    var counted := Cursor(requested, Recount(c.log, user, from, requested));
    c.(cursors := c.cursors[user :=
      if user !in c.cursors || requested > c.cursors[user].lastRead then counted else c.cursors[user]])
  }

  function Advance(db: Db, id: ConversationId, user: UserId, sequence: int): Outcome {
    if id !in db.conversations || !MayRead(db.conversations[id], user) then Outcome(db, Failed)
    else
      var c := Advanced(db.conversations[id], user, sequence);
      Outcome(db.(conversations := db.conversations[id := c]),
              Read(c.cursors[user].lastRead, Boundary(c, user), Peers(c, user)))
  }

  // ----- Creating conversations -----

  function NewDirect(low: UserId, high: UserId): Conversation {
    var member := Membership(Member, true, 1);
    Conversation(Direct(low, high), map[low := member, high := member], map[], [], 1)
  }

  function NewGroup(owner: UserId, members: set<UserId>): Conversation {
    Conversation(Group(owner, 1),
                 map u | u in members :: Membership(if u == owner then Owner else Member, true, 1),
                 map u | u in members :: Cursor(0, 0), [], 1)
  }

  function Pair(a: UserId, b: UserId): Kind {
    if a < b then Direct(a, b) else Direct(b, a)
  }

  function CreateDirect(db: Db, id: ConversationId, user: UserId, other: UserId): Outcome {
    if other !in db.directory.known then Outcome(db, NotFound)
    else if user == other || user !in db.directory.known then Outcome(db, Failed)
    else if exists known <- db.conversations :: db.conversations[known].kind == Pair(user, other) then Outcome(db, Done)
    else
      var pair := Pair(user, other);
      Outcome(db.(conversations := db.conversations[id := NewDirect(pair.low, pair.high)]), Done)
  }

  function MembershipEvent(id: ConversationId, c: Conversation, deleted: bool, extra: set<UserId>): Event
    requires c.kind.Group?
  {
    Event(id, c.kind.revision + if deleted then 1 else 0, deleted, Active(c) + (extra - {0}), Active(c))
  }

  function CreateGroup(db: Db, id: ConversationId, owner: UserId, invited: seq<UserId>): Outcome {
    var members := {owner} + Elements(invited);
    if owner == 0 || 0 in invited || |members| > MAX_GROUP_MEMBERS then Outcome(db, InvalidMembers)
    else if !(members <= db.directory.verified) then Outcome(db, NotFound)
    else
      var c := NewGroup(owner, members);
      Outcome(db.(conversations := db.conversations[id := c], events := db.events + [MembershipEvent(id, c, false, {})]), Done)
  }

  // ----- Changing a group -----

  /** The group as an active member may address it. */
  predicate Actor(db: Db, id: ConversationId, caller: UserId) {
    id in db.conversations && db.conversations[id].kind.Group? && IsActive(db.conversations[id], caller)
  }

  predicate Manages(c: Conversation, caller: UserId) {
    IsActive(c, caller) && c.members[caller].role != Member
  }

  /** Store a changed group under its next revision, with a system entry when `entry` says
      so, and tell its members and `extra`. */
  function Publish(db: Db, id: ConversationId, changed: Conversation, actor: UserId, entry: bool, extra: set<UserId>): Db
    requires changed.kind.Group?
  {
    var c := changed.(kind := changed.kind.(revision := changed.kind.revision + 1));
    var stored := db.(conversations := db.conversations[id := c]);
    var written := if entry then Write(stored, id, Message(actor, Generated(id, c.next), c.next, true, None)) else stored;
    written.(events := db.events + [MembershipEvent(id, c, false, extra)])
  }

  function Joined(c: Conversation, member: UserId): Conversation {
    c.(members := c.members[member := Membership(Member, true, c.next)],
       cursors := c.cursors[member := Cursor(c.next - 1, 0)])
  }

  function AddMember(db: Db, id: ConversationId, caller: UserId, member: UserId): Outcome {
    if member == 0 || !Actor(db, id, caller) then Outcome(db, NotFound)
    else
      var c := db.conversations[id];
      if !Manages(c, caller) then Outcome(db, Forbidden)
      else if member !in db.directory.known then Outcome(db, Failed)
      else if member !in db.directory.verified then Outcome(db, NotFound)
      else if |Active(c)| >= MAX_GROUP_MEMBERS then Outcome(db, GroupFull)
      else if IsActive(c, member) then Outcome(db, MemberExists)
      else Outcome(Publish(db, id, Joined(c, member), caller, true, {member}), Done)
  }

  function Left(c: Conversation, member: UserId): Conversation
    requires member in c.members
  {
    c.(members := c.members[member := c.members[member].(active := false)])
  }

  function RemoveMember(db: Db, id: ConversationId, caller: UserId, member: UserId): Outcome {
    if !Actor(db, id, caller) then Outcome(db, NotFound)
    else
      var c := db.conversations[id];
      if !Manages(c, caller) || member == c.kind.owner then Outcome(db, Forbidden)
      else if member !in db.directory.known then Outcome(db, Failed)
      else if !IsActive(c, member) then Outcome(db, NotFound)
      else Outcome(Publish(db, id, Left(c, member), caller, true, {member}), Done)
  }

  function Rename(db: Db, id: ConversationId, caller: UserId): Outcome {
    if !Actor(db, id, caller) then Outcome(db, NotFound)
    else if !Manages(db.conversations[id], caller) then Outcome(db, Forbidden)
    else Outcome(Publish(db, id, db.conversations[id], caller, false, {}), Done)
  }

  function WithRole(c: Conversation, member: UserId, role: Role): Conversation
    requires member in c.members
  {
    c.(members := c.members[member := c.members[member].(role := role)])
  }

  function ChangeRole(db: Db, id: ConversationId, caller: UserId, member: UserId, role: Role): Outcome {
    if role == Owner then Outcome(db, InvalidRole)
    else if !Actor(db, id, caller) then Outcome(db, NotFound)
    else
      var c := db.conversations[id];
      if !Manages(c, caller) || member == c.kind.owner then Outcome(db, Forbidden)
      else if member !in db.directory.known then Outcome(db, Failed)
      else if !IsActive(c, member) then Outcome(db, NotFound)
      else Outcome(Publish(db, id, WithRole(c, member, role), caller, true, {}), Done)
  }

  function Handed(c: Conversation, caller: UserId, member: UserId): Conversation
    requires c.kind.Group? && caller in c.members && member in c.members
  {
    WithRole(WithRole(c, member, Owner), caller, Admin).(kind := c.kind.(owner := member))
  }

  function TransferOwnership(db: Db, id: ConversationId, caller: UserId, member: UserId): Outcome {
    if caller == member then Outcome(db, SelfTransfer)
    else if !Actor(db, id, caller) then Outcome(db, NotFound)
    else
      var c := db.conversations[id];
      if c.members[caller].role != Owner then Outcome(db, Forbidden)
      else if member !in db.directory.known then Outcome(db, Failed)
      else if !IsActive(c, member) then Outcome(db, NotFound)
      else Outcome(Publish(db, id, Handed(c, caller, member), caller, true, {}), Done)
  }

  /** Deleting the conversation row takes its members, cursors and messages with it. */
  function Drop(db: Db, id: ConversationId, extra: set<UserId>): Db
    requires id in db.conversations && db.conversations[id].kind.Group?
  {
    db.(conversations := db.conversations - {id},
        sent := map k | k in db.sent && db.sent[k].conversation != id :: db.sent[k],
        events := db.events + [MembershipEvent(id, db.conversations[id], true, extra)])
  }

  function LeaveGroup(db: Db, id: ConversationId, caller: UserId): Outcome {
    if !Actor(db, id, caller) then Outcome(db, NotFound)
    else
      var c := db.conversations[id];
      if c.members[caller].role == Owner then
        if |Active(c)| > 1 then Outcome(db, Forbidden) else Outcome(Drop(db, id, {caller}), Done)
      else Outcome(Publish(db, id, Left(c, caller), caller, true, {caller}), Done)
  }

  function DeleteGroup(db: Db, id: ConversationId, caller: UserId): Outcome {
    if !Actor(db, id, caller) then Outcome(db, NotFound)
    else if db.conversations[id].members[caller].role != Owner then Outcome(db, Forbidden)
    else Outcome(Drop(db, id, {}), Done)
  }

  // ----- What a member may see -----

  predicate Unexpired(m: Message, now: int) {
    m.expiresAt.None? || now < m.expiresAt.value
  }

  /** The rows every listing shows a user: current members only, from their boundary on. */
  function Visible(c: Conversation, user: UserId, now: int): set<Message> {
    if IsActive(c, user) then
      set m <- c.log | m.sequence >= c.members[user].visibleFrom && Unexpired(m, now)
    else {}
  }
}
