/** Runs of the message database: any interleaving of sends, reads and membership changes. */
module ConversationRuns {
  import opened Options
  import opened Conversations
  import opened ConversationInvariant

  datatype Command =
    | OpenDirect(id: ConversationId, user: UserId, other: UserId)
    | OpenGroup(id: ConversationId, owner: UserId, invited: seq<UserId>)
    | Add(id: ConversationId, caller: UserId, member: UserId)
    | Remove(id: ConversationId, caller: UserId, member: UserId)
    | Retitle(id: ConversationId, caller: UserId)
    | SetRole(id: ConversationId, caller: UserId, member: UserId, role: Role)
    | Transfer(id: ConversationId, caller: UserId, member: UserId)
    | Leave(id: ConversationId, caller: UserId)
    | Delete(id: ConversationId, caller: UserId)
    | Post(id: ConversationId, sender: UserId, client: ClientId, mentions: set<UserId>, now: int, retention: Option<int>)
    | MarkRead(id: ConversationId, user: UserId, sequence: int)

  function Apply(db: Db, c: Command): Outcome {
    match c
    case OpenDirect(id, user, other) => CreateDirect(db, id, user, other)
    case OpenGroup(id, owner, invited) => CreateGroup(db, id, owner, invited)
    case Add(id, caller, member) => AddMember(db, id, caller, member)
    case Remove(id, caller, member) => RemoveMember(db, id, caller, member)
    case Retitle(id, caller) => Rename(db, id, caller)
    case SetRole(id, caller, member, role) => ChangeRole(db, id, caller, member, role)
    case Transfer(id, caller, member) => TransferOwnership(db, id, caller, member)
    case Leave(id, caller) => LeaveGroup(db, id, caller)
    case Delete(id, caller) => DeleteGroup(db, id, caller)
    case Post(id, sender, client, mentions, now, retention) => Send(db, id, sender, client, mentions, now, retention)
    case MarkRead(id, user, sequence) => Advance(db, id, user, sequence)
  }

  /** The database, the conversation identifiers handed out so far, and for every current
      member a box of the messages that arrived since the latest join. */
  datatype World = World(db: Db, used: set<ConversationId>, boxes: map<ConversationId, map<UserId, seq<Message>>>)

  function Initial(directory: Directory): World {
    World(Db(directory, map[], map[], []), {}, map[])
  }

  /** The messages a step adds to a conversation. */
  function Arrived(before: Db, after: Db, id: ConversationId): seq<Message>
    requires id in after.conversations
  {
    var log := after.conversations[id].log;
    if id in before.conversations && |before.conversations[id].log| <= |log| then log[|before.conversations[id].log|..] else log
  }

  /** Whoever was a member before keeps the box; whoever joins starts with an empty one. */
  function NextBox(before: Db, after: Db, boxes: map<ConversationId, map<UserId, seq<Message>>>, id: ConversationId,
                   user: UserId): seq<Message>
    requires id in after.conversations
  {
    if id in before.conversations && IsActive(before.conversations[id], user) && id in boxes && user in boxes[id]
    then boxes[id][user] + Arrived(before, after, id)
    else Arrived(before, after, id)
  }

  function NextBoxes(before: Db, after: Db, boxes: map<ConversationId, map<UserId, seq<Message>>>)
    : map<ConversationId, map<UserId, seq<Message>>>
  {
    map id | id in after.conversations ::
      map u | u in Active(after.conversations[id]) :: NextBox(before, after, boxes, id, u)
  }

  /** New conversations carry an identifier never used before. */
  function Step(w: World, c: Command): World {
    var creates := c.OpenDirect? || c.OpenGroup?;
    if creates && c.id in w.used then w
    else
      var db := Apply(w.db, c).db;
      World(db, if creates then w.used + {c.id} else w.used, NextBoxes(w.db, db, w.boxes))
  }

  function Run(w: World, commands: seq<Command>): World
    decreases |commands|
  {
    if commands == [] then w else Run(Step(w, commands[0]), commands[1..])
  }

  lemma {:induction false} RunOfConcat(w: World, a: seq<Command>, b: seq<Command>)
    ensures Run(w, a + b) == Run(Run(w, a), b)
    decreases |a|
  {
    hide Step;
    if a == [] {
      assert a + b == b;
    } else {
      assert (a + b)[0] == a[0] && (a + b)[1..] == a[1..] + b;
      RunOfConcat(Step(w, a[0]), a[1..], b);
    }
  }

  // ----- The few ways in which a command changes the database -----

  datatype Change =
    | Nothing
    | Opened(id: ConversationId, low: UserId, high: UserId)
    | Founded(id: ConversationId, owner: UserId, members: set<UserId>)
    | Posted(id: ConversationId, message: Message)
    | ReadTo(id: ConversationId, user: UserId, sequence: int)
    | Published(id: ConversationId, changed: Conversation, actor: UserId, entry: bool, extra: set<UserId>)
    | Dropped(id: ConversationId, extra: set<UserId>)

  ghost predicate Allowed(db: Db, used: set<ConversationId>, change: Change) {
    match change
    case Nothing => true
    case Opened(id, low, high) => id !in used && low != high
    case Founded(id, owner, members) => id !in used && owner in members && 0 !in members && |members| <= MAX_GROUP_MEMBERS
    case Posted(id, m) =>
      id in db.conversations && m.sequence == db.conversations[id].next && m.key.Chosen? && (m.sender, m.key) !in db.sent
    case ReadTo(id, user, sequence) => id in db.conversations && MayRead(db.conversations[id], user)
    case Published(id, changed, actor, entry, extra) => id in db.conversations && Prepared(db.conversations[id], changed, extra)
    case Dropped(id, extra) => id in db.conversations && db.conversations[id].kind.Group?
  }

  function Applied(db: Db, change: Change): Db
    requires change.Posted? ==> change.id in db.conversations
    requires change.ReadTo? ==> change.id in db.conversations
    requires change.Published? ==> change.changed.kind.Group?
    requires change.Dropped? ==> change.id in db.conversations && db.conversations[change.id].kind.Group?
  {
    match change
    case Nothing => db
    case Opened(id, low, high) => db.(conversations := db.conversations[id := NewDirect(low, high)])
    case Founded(id, owner, members) =>
      var c := NewGroup(owner, members);
      db.(conversations := db.conversations[id := c], events := db.events + [MembershipEvent(id, c, false, {})])
    case Posted(id, m) => Write(db, id, m)
    case ReadTo(id, user, sequence) =>
      db.(conversations := db.conversations[id := Advanced(db.conversations[id], user, sequence)])
    case Published(id, changed, actor, entry, extra) => Publish(db, id, changed, actor, entry, extra)
    case Dropped(id, extra) => Drop(db, id, extra)
  }

  ghost predicate DbOk(db: Db) {
    forall id <- db.conversations :: ConversationOk(db.conversations[id])
  }

  lemma {:induction false} GroupCommand(db: Db, used: set<ConversationId>, c: Command) returns (change: Change)
    requires DbOk(db)
    requires c.Add? || c.Remove? || c.SetRole? || c.Transfer? || c.Retitle?
    ensures Allowed(db, used, change) && Apply(db, c).db == Applied(db, change)
    ensures !change.Opened? && !change.Founded?
  {
    hide ConversationOk, Publish, Prepared, Joined, Left, WithRole, Handed, Active;
    change := Nothing;
    if Apply(db, c).reply == Done {
      var g := db.conversations[c.id];
      assert ConversationOk(g);
      match c
      case Add(id, caller, member) =>
        JoinedPrepared(g, member);
        change := Published(id, Joined(g, member), caller, true, {member});
      case Remove(id, caller, member) =>
        LeftPrepared(g, member);
        change := Published(id, Left(g, member), caller, true, {member});
      case Retitle(id, caller) =>
        SamePrepared(g);
        change := Published(id, g, caller, false, {});
      case SetRole(id, caller, member, role) =>
        WithRolePrepared(g, member, role);
        change := Published(id, WithRole(g, member, role), caller, true, {});
      case Transfer(id, caller, member) =>
        HandedPrepared(g, caller, member);
        change := Published(id, Handed(g, caller, member), caller, true, {});
      PreparedIsGroup(g, change.changed, change.extra);
    }
  }

  lemma PreparedIsGroup(c: Conversation, changed: Conversation, extra: set<UserId>)
    requires Prepared(c, changed, extra)
    ensures changed.kind.Group?
  {
  }

  lemma {:induction false} LeaveCommand(db: Db, used: set<ConversationId>, c: Command) returns (change: Change)
    requires DbOk(db)
    requires c.Leave? || c.Delete?
    ensures Allowed(db, used, change) && Apply(db, c).db == Applied(db, change)
    ensures !change.Opened? && !change.Founded?
  {
    hide Publish, Drop, Prepared, Left, Active;
    change := Nothing;
    if Apply(db, c).reply == Done {
      var g := db.conversations[c.id];
      assert ConversationOk(g);
      if c.Delete? {
        change := Dropped(c.id, {});
      } else if g.members[c.caller].role == Owner {
        change := Dropped(c.id, {c.caller});
      } else {
        assert c.caller != g.kind.owner;
        LeftPrepared(g, c.caller);
        change := Published(c.id, Left(g, c.caller), c.caller, true, {c.caller});
        PreparedIsGroup(g, change.changed, change.extra);
      }
    }
  }

  lemma {:induction false} OpenCommand(db: Db, used: set<ConversationId>, c: Command) returns (change: Change)
    requires c.OpenDirect? || c.OpenGroup?
    requires c.id !in used
    ensures Allowed(db, used, change) && Apply(db, c).db == Applied(db, change)
    ensures (change.Opened? || change.Founded?) ==> change.id == c.id
  {
    hide NewDirect, NewGroup, Active;
    change := Nothing;
    if c.OpenDirect? {
      if CreateDirect(db, c.id, c.user, c.other).db != db {
        change := Opened(c.id, Pair(c.user, c.other).low, Pair(c.user, c.other).high);
      }
    } else if CreateGroup(db, c.id, c.owner, c.invited).reply == Done {
      change := Founded(c.id, c.owner, {c.owner} + Elements(c.invited));
    }
  }

  lemma {:induction false} LogCommand(db: Db, used: set<ConversationId>, c: Command) returns (change: Change)
    requires c.Post? || c.MarkRead?
    ensures Allowed(db, used, change) && Apply(db, c).db == Applied(db, change)
    ensures !change.Opened? && !change.Founded?
  {
    hide Write, Advanced;
    change := Nothing;
    if c.Post? {
      var reply := Send(db, c.id, c.sender, c.client, c.mentions, c.now, c.retention).reply;
      if reply.Sent? && reply.created {
        change := Posted(c.id, reply.message);
      }
    } else if Advance(db, c.id, c.user, c.sequence).reply.Read? {
      change := ReadTo(c.id, c.user, c.sequence);
    }
  }

  /** Every command makes one of the changes that the proofs distinguish. */
  lemma {:induction false} Classify(db: Db, used: set<ConversationId>, c: Command) returns (change: Change)
    requires DbOk(db)
    requires (c.OpenDirect? || c.OpenGroup?) ==> c.id !in used
    ensures Allowed(db, used, change) && Apply(db, c).db == Applied(db, change)
    ensures (change.Opened? || change.Founded?) ==> (c.OpenDirect? || c.OpenGroup?) && change.id == c.id
  {
    hide Allowed, Applied, Apply, DbOk;
    if c.OpenDirect? || c.OpenGroup? {
      change := OpenCommand(db, used, c);
    } else {
      if c.Post? || c.MarkRead? {
        change := LogCommand(db, used, c);
      } else if c.Leave? || c.Delete? {
        change := LeaveCommand(db, used, c);
      } else {
        change := GroupCommand(db, used, c);
      }
    }
  }
}
