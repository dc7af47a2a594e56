/** Who may change a group, who succeeds, and what each transaction leaves: laws of every
    reachable database. */
module GroupLaws {
  import opened Options
  import opened Conversations
  import opened ConversationInvariant
  import opened ConversationRuns
  import opened ConversationHistory

  function At(directory: Directory, commands: seq<Command>): Db {
    Run(Initial(directory), commands).db
  }

  function After(directory: Directory, commands: seq<Command>, c: Command): Db {
    Step(Run(Initial(directory), commands), c).db
  }

  lemma {:induction false} AtOk(directory: Directory, commands: seq<Command>)
    ensures Inv(Run(Initial(directory), commands))
  {
    hide Inv, Run;
    InitialOk(directory);
    RunKeeps(Initial(directory), commands);
  }

  predicate HasRole(c: Conversation, user: UserId, roles: set<Role>) {
    user in c.members && c.members[user].active && c.members[user].role in roles
  }

  // ----- What a published change leaves -----

  /** One conversation is replaced, its members are these, it belongs to this owner under the
      next revision, and its log gains the system entry of the actor, if any. */
  ghost predicate Changed(db: Db, t: Db, id: ConversationId, members: map<UserId, Membership>, owner: UserId, entries: seq<Message>)
    requires id in db.conversations && db.conversations[id].kind.Group?
  {
    var c := db.conversations[id];
    && t.conversations.Keys == db.conversations.Keys
    && (forall other <- db.conversations :: other != id ==> t.conversations[other] == db.conversations[other])
    && t.conversations[id].members == members
    && t.conversations[id].kind == Group(owner, c.kind.revision + 1)
    && t.conversations[id].log == c.log + entries
    && t.directory == db.directory
  }

  function Entry(id: ConversationId, c: Conversation, actor: UserId): seq<Message> {
    [Message(actor, Generated(id, c.next), c.next, true, None)]
  }

  lemma {:induction false} PublishedIs(db: Db, id: ConversationId, changed: Conversation, actor: UserId, entry: bool, extra: set<UserId>)
    requires id in db.conversations && db.conversations[id].kind.Group?
    requires changed.kind.Group? && changed.kind.revision == db.conversations[id].kind.revision
    requires changed.log == db.conversations[id].log && changed.next == db.conversations[id].next
    ensures Changed(db, Publish(db, id, changed, actor, entry, extra), id, changed.members, changed.kind.owner,
                    if entry then Entry(id, db.conversations[id], actor) else [])
    ensures Publish(db, id, changed, actor, entry, extra).events ==
            db.events + [Event(id, changed.kind.revision + 1, false,
                               (set u <- changed.members | changed.members[u].active) + (extra - {0}),
                               set u <- changed.members | changed.members[u].active)]
  {
    hide Bumped;
  }

  lemma {:induction false} OwnerIs(c: Conversation, user: UserId)
    requires ConversationOk(c) && c.kind.Group?
    ensures HasRole(c, user, {Owner}) <==> user == c.kind.owner
    ensures c.kind.owner != 0 && 0 !in c.members
  {
    hide LogOk, BoundariesOk, CursorsOk;
  }

  // ----- Who succeeds -----

  /** An active owner or admin, and nobody else, adds an active verified account to a group
      with a place left: as a plain member from the next message on, announced to both. */
  lemma {:induction false} AddSucceedsExactly(db: Db, id: ConversationId, caller: UserId, member: UserId)
    requires DbOk(db)
    ensures var o := AddMember(db, id, caller, member);
            && (o.reply == Done <==>
                  && member != 0 && id in db.conversations && db.conversations[id].kind.Group?
                  && HasRole(db.conversations[id], caller, {Owner, Admin})
                  && member in db.directory.known && member in db.directory.verified
                  && |Active(db.conversations[id])| < 16
                  && !IsActive(db.conversations[id], member))
            && (o.reply != Done ==> o.db == db)
            && (o.reply == Done ==>
                  var c := db.conversations[id];
                  Changed(db, o.db, id, c.members[member := Membership(Member, true, c.next)], c.kind.owner, Entry(id, c, caller)))
  {
    if id in db.conversations && db.conversations[id].kind.Group? {
      PublishedIs(db, id, Joined(db.conversations[id], member), caller, true, {member});
      ManagersAre(db.conversations[id], caller);
    }
    hide Publish, Changed, Manages;
  }

  lemma ManagersAre(c: Conversation, user: UserId)
    ensures Manages(c, user) <==> HasRole(c, user, {Owner, Admin})
  {
  }

  /** An active owner or admin, and nobody else, removes an active known member who is not
      the owner: the membership row stays, inactive. */
  lemma {:induction false} RemoveSucceedsExactly(db: Db, id: ConversationId, caller: UserId, member: UserId)
    requires DbOk(db)
    ensures var o := RemoveMember(db, id, caller, member);
            && (o.reply == Done <==>
                  && id in db.conversations && db.conversations[id].kind.Group?
                  && HasRole(db.conversations[id], caller, {Owner, Admin}) && member != db.conversations[id].kind.owner
                  && member in db.directory.known && IsActive(db.conversations[id], member))
            && (o.reply != Done ==> o.db == db)
            && (o.reply == Done ==>
                  var c := db.conversations[id];
                  Changed(db, o.db, id, c.members[member := c.members[member].(active := false)], c.kind.owner, Entry(id, c, caller)))
  {
    if id in db.conversations && db.conversations[id].kind.Group? && IsActive(db.conversations[id], member) {
      PublishedIs(db, id, Left(db.conversations[id], member), caller, true, {member});
    }
    if id in db.conversations { ManagersAre(db.conversations[id], caller); }
    hide Publish, Changed, Manages;
  }

  /** Renaming only moves the revision on. */
  lemma {:induction false} RenameSucceedsExactly(db: Db, id: ConversationId, caller: UserId)
    ensures var o := Rename(db, id, caller);
            && (o.reply == Done <==>
                  id in db.conversations && db.conversations[id].kind.Group? && HasRole(db.conversations[id], caller, {Owner, Admin}))
            && (o.reply != Done ==> o.db == db)
            && (o.reply == Done ==> Changed(db, o.db, id, db.conversations[id].members, db.conversations[id].kind.owner, []))
  {
    if id in db.conversations && db.conversations[id].kind.Group? {
      PublishedIs(db, id, db.conversations[id], caller, false, {});
      ManagersAre(db.conversations[id], caller);
    }
    hide Publish, Changed, Manages;
  }

  /** An active owner or admin, and nobody else, gives an active known member who is not the
      owner exactly the role asked for, which cannot be that of owner. */
  lemma {:induction false} RoleSucceedsExactly(db: Db, id: ConversationId, caller: UserId, member: UserId, role: Role)
    ensures var o := ChangeRole(db, id, caller, member, role);
            && (o.reply == Done <==>
                  && role != Owner && id in db.conversations && db.conversations[id].kind.Group?
                  && HasRole(db.conversations[id], caller, {Owner, Admin}) && member != db.conversations[id].kind.owner
                  && member in db.directory.known && IsActive(db.conversations[id], member))
            && (o.reply != Done ==> o.db == db)
            && (o.reply == Done ==>
                  var c := db.conversations[id];
                  Changed(db, o.db, id, c.members[member := c.members[member].(role := role)], c.kind.owner, Entry(id, c, caller)))
  {
    if id in db.conversations && db.conversations[id].kind.Group? && IsActive(db.conversations[id], member) {
      PublishedIs(db, id, WithRole(db.conversations[id], member, role), caller, true, {});
    }
    if id in db.conversations { ManagersAre(db.conversations[id], caller); }
    hide Publish, Changed, Manages;
  }

  /** The active owner, and nobody else, hands the group to another active known member and
      stays in it as an admin. */
  lemma {:induction false} TransferSucceedsExactly(db: Db, id: ConversationId, caller: UserId, member: UserId)
    requires DbOk(db)
    ensures var o := TransferOwnership(db, id, caller, member);
            && (o.reply == Done <==>
                  && caller != member && id in db.conversations && db.conversations[id].kind.Group?
                  && HasRole(db.conversations[id], caller, {Owner})
                  && member in db.directory.known && IsActive(db.conversations[id], member))
            && (o.reply != Done ==> o.db == db)
            && (o.reply == Done ==>
                  var c := db.conversations[id];
                  Changed(db, o.db, id, c.members[member := c.members[member].(role := Owner)][caller := c.members[caller].(role := Admin)],
                          member, Entry(id, c, caller)))
  {
    if id in db.conversations && db.conversations[id].kind.Group? && IsActive(db.conversations[id], member)
       && IsActive(db.conversations[id], caller) {
      PublishedIs(db, id, Handed(db.conversations[id], caller, member), caller, true, {});
    }
    hide Publish, Changed;
  }

  /** The conversation is gone, with its messages; all others stay. */
  ghost predicate Dropped(db: Db, t: Db, id: ConversationId) {
    && id !in t.conversations && t.directory == db.directory
    && t.conversations.Keys == db.conversations.Keys - {id}
    && (forall other <- t.conversations :: t.conversations[other] == db.conversations[other])
    && (forall k <- db.sent :: if db.sent[k].conversation == id then k !in t.sent else k in t.sent && t.sent[k] == db.sent[k])
  }

  lemma {:induction false} DroppedIs(db: Db, id: ConversationId, extra: set<UserId>)
    requires id in db.conversations && db.conversations[id].kind.Group?
    ensures Dropped(db, Drop(db, id, extra), id)
    ensures Drop(db, id, extra).events ==
            db.events + [Event(id, db.conversations[id].kind.revision + 1, true,
                               Active(db.conversations[id]) + (extra - {0}), Active(db.conversations[id]))]
  {
  }

  lemma {:induction false} LastMember(c: Conversation, caller: UserId)
    requires IsActive(c, caller)
    ensures |Active(c)| <= 1 <==> Active(c) == {caller}
  {
    if |Active(c)| <= 1 {
      assert |Active(c) - {caller}| == 0;
    }
  }

  /** A member leaves at any time; the owner only as the last one, which deletes the group. */
  lemma {:induction false} LeaveSucceedsExactly(db: Db, id: ConversationId, caller: UserId)
    requires DbOk(db)
    ensures var o := LeaveGroup(db, id, caller);
            && (o.reply == Done <==>
                  && id in db.conversations && db.conversations[id].kind.Group? && IsActive(db.conversations[id], caller)
                  && (caller == db.conversations[id].kind.owner ==> Active(db.conversations[id]) == {caller}))
            && (o.reply != Done ==> o.db == db)
            && (o.reply == Done ==>
                  var c := db.conversations[id];
                  if caller == c.kind.owner then Dropped(db, o.db, id)
                  else Changed(db, o.db, id, c.members[caller := c.members[caller].(active := false)], c.kind.owner, Entry(id, c, caller)))
  {
    if id in db.conversations && db.conversations[id].kind.Group? && IsActive(db.conversations[id], caller) {
      var c := db.conversations[id];
      assert ConversationOk(c);
      OwnerIs(c, caller);
      LastMember(c, caller);
      DroppedIs(db, id, {caller});
      LeftIs(c, caller);
      PublishedIs(db, id, Left(c, caller), caller, true, {caller});
    }
    hide Publish, Changed, Drop, Dropped, DbOk, ConversationOk, Active, Left, Entry;
  }

  lemma LeftIs(c: Conversation, member: UserId)
    requires member in c.members
    ensures Left(c, member) == c.(members := c.members[member := c.members[member].(active := false)])
  {
  }

  /** The active owner, and nobody else, deletes the group. */
  lemma {:induction false} DeleteSucceedsExactly(db: Db, id: ConversationId, caller: UserId)
    requires DbOk(db)
    ensures var o := DeleteGroup(db, id, caller);
            && (o.reply == Done <==>
                  && id in db.conversations && db.conversations[id].kind.Group? && IsActive(db.conversations[id], caller)
                  && caller == db.conversations[id].kind.owner)
            && (o.reply != Done ==> o.db == db)
            && (o.reply == Done ==> Dropped(db, o.db, id))
  {
    if id in db.conversations && db.conversations[id].kind.Group? {
      assert ConversationOk(db.conversations[id]);
      OwnerIs(db.conversations[id], caller);
      DroppedIs(db, id, {});
    }
    hide Drop, Dropped, DbOk, ConversationOk;
  }

  // ----- Creating conversations -----

  /** The founder and the invited, all verified and at most sixteen, form a group from its
      first message on: the founder owns it, the others are plain members. */
  lemma {:induction false} FoundSucceedsExactly(db: Db, id: ConversationId, owner: UserId, invited: seq<UserId>)
    ensures var o := CreateGroup(db, id, owner, invited);
            var members := {owner} + (set u <- invited);
            && (o.reply == Done <==> 0 !in members && |members| <= 16 && members <= db.directory.verified)
            && (o.reply != Done ==> o.db == db)
            && (o.reply == Done ==>
                  && o.db == db.(conversations := o.db.conversations, events := o.db.events)
                  && o.db.events == db.events + [Event(id, 1, false, members, members)]
                  && o.db.conversations.Keys == db.conversations.Keys + {id}
                  && (forall other <- db.conversations :: other != id ==> o.db.conversations[other] == db.conversations[other])
                  && var c := o.db.conversations[id];
                     && c.kind == Group(owner, 1) && c.log == [] && c.next == 1 && c.members.Keys == members
                     && c.cursors == (map u <- members :: Cursor(0, 0))
                     && (forall u <- members :: c.members[u] == Membership(if u == owner then Owner else Member, true, 1)))
  {
    NewGroupIs(owner, {owner} + Elements(invited));
    hide NewGroup, Active;
  }

  lemma NewGroupIs(owner: UserId, members: set<UserId>)
    ensures NewGroup(owner, members) ==
            Conversation(Group(owner, 1), map u | u in members :: Membership(if u == owner then Owner else Member, true, 1),
                         map u | u in members :: Cursor(0, 0), [], 1)
    ensures Active(NewGroup(owner, members)) == members
  {
    assert Active(NewGroup(owner, members)) == members;
  }

  /** Direct conversations name the smaller account first. */
  ghost predicate Ascending(db: Db) {
    forall id <- db.conversations :: var kind := db.conversations[id].kind; kind.Direct? ==> kind.low < kind.high
  }

  ghost predicate Between(c: Conversation, a: UserId, b: UserId) {
    c.kind == Direct(a, b) || c.kind == Direct(b, a)
  }

  /** Two different accounts have a direct conversation afterwards, a new one only when
      there was none. */
  lemma {:induction false} DirectSucceedsExactly(db: Db, id: ConversationId, user: UserId, other: UserId)
    requires Ascending(db)
    ensures var o := CreateDirect(db, id, user, other);
            && (o.reply == Done <==> user in db.directory.known && other in db.directory.known && user != other)
            && (o.reply == Done ==> exists known <- o.db.conversations :: Between(o.db.conversations[known], user, other))
            && (o.db != db ==>
                  && o.reply == Done
                  && (forall known <- db.conversations :: !Between(db.conversations[known], user, other))
                  && o.db == db.(conversations := db.conversations[id := o.db.conversations[id]])
                  && var c := o.db.conversations[id];
                     && Between(c, user, other) && c.kind.low < c.kind.high
                     && c.log == [] && c.members == map[user := Membership(Member, true, 1), other := Membership(Member, true, 1)])
  {
    forall known <- db.conversations | Between(db.conversations[known], user, other)
      ensures db.conversations[known].kind == Pair(user, other)
    {
      assert db.conversations[known].kind.low < db.conversations[known].kind.high;
    }
    var o := CreateDirect(db, id, user, other);
    if user in db.directory.known && other in db.directory.known && user != other {
      if known :| known in db.conversations && db.conversations[known].kind == Pair(user, other) {
        assert Between(o.db.conversations[known], user, other);
      } else {
        assert Between(o.db.conversations[id], user, other);
        assert o.db.conversations[id].members == map[user := Membership(Member, true, 1), other := Membership(Member, true, 1)];
      }
    }
  }

  // ----- Sending and reading -----

  /** A message of the sender under the client's identifier is stored in some conversation. */
  ghost predicate Taken(db: Db, sender: UserId, client: ClientId) {
    exists id <- db.conversations :: StoredIn(db.conversations[id], sender, client)
  }

  ghost predicate StoredIn(c: Conversation, sender: UserId, client: ClientId) {
    exists m <- c.log :: m.sender == sender && m.key == Chosen(client)
  }

  lemma {:induction false} TakenIsSent(db: Db, sender: UserId, client: ClientId)
    requires SentOk(db)
    ensures Taken(db, sender, client) <==> (sender, Chosen(client)) in db.sent
  {
    if (sender, Chosen(client)) in db.sent {
      assert SlotOk(db, (sender, Chosen(client)));
      assert StoredIn(db.conversations[db.sent[(sender, Chosen(client))].conversation], sender, client);
    }
    if Taken(db, sender, client) {
      var id :| id in db.conversations && StoredIn(db.conversations[id], sender, client);
      var m :| m in db.conversations[id].log && m.sender == sender && m.key == Chosen(client);
      assert LogSent(db, id);
      assert EntryOk(db, id, m);
    }
  }

  lemma {:induction false} StoredIsSent(db: Db, id: ConversationId, sender: UserId, client: ClientId)
    requires SentOk(db) && id in db.conversations
    ensures StoredIn(db.conversations[id], sender, client) <==>
              (sender, Chosen(client)) in db.sent && db.sent[(sender, Chosen(client))].conversation == id
  {
    if (sender, Chosen(client)) in db.sent && db.sent[(sender, Chosen(client))].conversation == id {
      assert SlotOk(db, (sender, Chosen(client)));
    }
    if StoredIn(db.conversations[id], sender, client) {
      var m :| m in db.conversations[id].log && m.sender == sender && m.key == Chosen(client);
      assert LogSent(db, id);
      assert EntryOk(db, id, m);
    }
  }

  /** Only other active members can be mentioned. */
  predicate Mentionable(c: Conversation, sender: UserId, mentions: set<UserId>) {
    forall u <- mentions :: u != sender && IsActive(c, u)
  }

  /** A new message is stored exactly for an active member under a fresh identifier who
      mentions only other active members. */
  lemma {:induction false} SendSucceedsExactly(db: Db, id: ConversationId, sender: UserId, client: ClientId, mentions: set<UserId>,
                                               now: int, retention: Option<int>)
    requires SentOk(db)
    ensures var o := Send(db, id, sender, client, mentions, now, retention);
            var member := id in db.conversations && IsActive(db.conversations[id], sender);
            var fitting := member && Mentionable(db.conversations[id], sender, mentions);
            && (o.reply.Sent? && o.reply.created <==> fitting && !Taken(db, sender, client))
            && (o.reply == InvalidMention <==> member && !fitting && !Taken(db, sender, client))
            && (o.reply == ConversationNotFound <==> !member)
            && (o.reply == KeyConflict <==>
                  member && Taken(db, sender, client) && !StoredIn(db.conversations[id], sender, client))
            && (!(o.reply.Sent? && o.reply.created) ==> o.db == db)
  {
    TakenIsSent(db, sender, client);
    if id in db.conversations { StoredIsSent(db, id, sender, client); }
    hide SentOk, Taken, StoredIn, Write;
  }

  ghost function OneMore(c: Conversation, u: UserId, sender: UserId): Cursor
    requires u in c.members
  {
    Cursor(Reading(c, u).lastRead, Reading(c, u).unread + if c.members[u].active && u != sender then 1 else 0)
  }

  lemma {:induction false} SentIsUnread(c: Conversation, m: Message, u: UserId)
    requires u in c.members
    ensures var d := Appended(c, m); u in d.members && Reading(d, u) == OneMore(c, u, m.sender)
  {
  }

  /** A new message is one more unread message for each other active member and for nobody
      else, and moves no read position. */
  lemma {:induction false} SentIsCounted(db: Db, id: ConversationId, sender: UserId, client: ClientId, mentions: set<UserId>,
                                         now: int, retention: Option<int>, u: UserId)
    requires var reply := Send(db, id, sender, client, mentions, now, retention).reply; reply.Sent? && reply.created
    requires id in db.conversations && u in db.conversations[id].members
    ensures var t := Send(db, id, sender, client, mentions, now, retention).db;
            && id in t.conversations && u in t.conversations[id].members
            && Reading(t.conversations[id], u) == OneMore(db.conversations[id], u, sender)
  {
    SentIsUnread(db.conversations[id], Send(db, id, sender, client, mentions, now, retention).reply.message, u);
    hide Bumped, Reading, OneMore;
  }

  /** It comes last in its log, expires after the retention, and goes to everyone else who
      is active. */
  lemma {:induction false} SentIs(db: Db, id: ConversationId, sender: UserId, client: ClientId, mentions: set<UserId>,
                                  now: int, retention: Option<int>)
    requires DbOk(db)
    requires var reply := Send(db, id, sender, client, mentions, now, retention).reply; reply.Sent? && reply.created
    ensures id in db.conversations
    ensures var o := Send(db, id, sender, client, mentions, now, retention);
            var c := db.conversations[id];
            var m := Message(sender, Chosen(client), |c.log| + 1, false,
                             match retention case None => None case Some(length) => Some(now + length));
            && o.reply == Sent(m, true, set u <- c.members | c.members[u].active && u != sender)
            && id in o.db.conversations
            && o.db.conversations == db.conversations[id := c.(log := c.log + [m], next := c.next + 1, cursors := o.db.conversations[id].cursors)]
            && o.db.events == db.events && o.db.directory == db.directory
  {
    hide Bumped, DbOk;
    var c := db.conversations[id];
    AnyOk(db, id);
    NextOfLog(c);
    assert Active(c) - {sender} == set u <- c.members | c.members[u].active && u != sender;
    hide ConversationOk;
  }

  /** Exactly the active members read: the position becomes the largest of the old one, the
      join boundary and the requested existing sequence, and everyone else active hears. */
  lemma {:induction false} ReadSucceedsExactly(db: Db, id: ConversationId, user: UserId, sequence: int)
    requires DbOk(db)
    ensures var reply := Advance(db, id, user, sequence).reply;
            if id in db.conversations && IsActive(db.conversations[id], user) then
              var c := db.conversations[id];
              reply == Read(Max(Reading(c, user).lastRead, Max(c.members[user].visibleFrom - 1, Min(sequence, |c.log|))),
                            c.members[user].visibleFrom, set u <- c.members | c.members[u].active && u != user)
            else reply == Failed
  {
    if id in db.conversations && MayRead(db.conversations[id], user) {
      var c := db.conversations[id];
      AnyOk(db, id);
      ReadToKnown(c, user, sequence);
      AdvancedCursor(c, user, sequence);
      ReadersHaveCursors(c, user, sequence);
      PeersAre(c, user);
      NextOfLog(c);
    }
    hide DbOk, ConversationOk, CursorOk, Recount, Reachable, Peers, Advanced;
  }

  lemma ReadersHaveCursors(c: Conversation, user: UserId, sequence: int)
    ensures user in Advanced(c, user, sequence).cursors
  {
  }

  /** Reading writes that one position; every other row of the database stays, and when the
      position does not move all of them do. */
  lemma {:induction false} ReadWrites(db: Db, id: ConversationId, user: UserId, sequence: int)
    ensures var o := Advance(db, id, user, sequence);
            && (o.reply == Failed ==> o.db == db)
            && (o.reply != Failed ==>
                  && id in db.conversations && o.reply.Read? && id in o.db.conversations
                  && var c, d := db.conversations[id], o.db.conversations[id];
                     && o.db == db.(conversations := db.conversations[id := c.(cursors := d.cursors)])
                     && user in d.cursors && d.cursors[user].lastRead == o.reply.sequence
                     && d.cursors == c.cursors[user := d.cursors[user]]
                     && (user in c.cursors && o.reply.sequence == c.cursors[user].lastRead ==> o.db == db))
  {
    if Advance(db, id, user, sequence).reply != Failed && user in db.conversations[id].cursors {
      var c := db.conversations[id];
      assert c.cursors[user := c.cursors[user]] == c.cursors;
      assert db.conversations[id := c] == db.conversations;
    }
    hide Reachable, Recount;
  }

  lemma {:induction false} PeersAre(c: Conversation, user: UserId)
    requires ConversationOk(c) && IsActive(c, user)
    ensures Peers(c, user) == set u <- c.members | c.members[u].active && u != user
  {
    hide LogOk, BoundariesOk, CursorsOk;
  }

  // ----- Who may change what -----

  predicate ByMember(c: Command) {
    c.Add? || c.Remove? || c.Retitle? || c.SetRole? || c.Transfer? || c.Leave? || c.Delete?
  }

  function Row(c: Conversation, user: UserId): Option<Membership> {
    if user in c.members then Some(c.members[user]) else None
  }

  /** Whoever changes a membership is an active owner or admin just before, unless it is a
      member who leaves; only the owner touches the owner's. */
  predicate RowRightful(g: Conversation, h: Conversation, c: Command, u: UserId) {
    Row(g, u) != Row(h, u) ==>
      && ByMember(c) && g.kind.Group?
      && (HasRole(g, c.caller, {Owner, Admin})
          || (c.Leave? && c.caller == u && HasRole(g, u, {Member}) && Row(h, u) == Some(g.members[u].(active := false))))
      && (u == g.kind.owner ==> c.Transfer? && c.caller == u)
  }

  /** Only the owner hands a group on. */
  predicate KindRightful(g: Conversation, h: Conversation, c: Command) {
    && (g.kind.Direct? ==> h.kind == g.kind && h.members == g.members)
    && (g.kind.Group? ==>
          && h.kind.Group?
          && (h.kind.owner != g.kind.owner ==> c.Transfer? && HasRole(g, c.caller, {Owner}) && h.kind.owner == c.member)
          && (h.kind.revision != g.kind.revision ==>
                h.kind.revision == g.kind.revision + 1 && ByMember(c) && (HasRole(g, c.caller, {Owner, Admin}) || c.Leave?)))
  }

  /** What enters a log is one message at a time, from an active member who sends it or
      whose command it records. */
  predicate LogRightful(g: Conversation, h: Conversation, c: Command) {
    h.log != g.log ==>
      && |h.log| == |g.log| + 1 && h.log[..|g.log|] == g.log
      && var m := h.log[|g.log|];
         && IsActive(g, m.sender)
         && ((c.Post? && m.sender == c.sender && !m.system) || (ByMember(c) && m.sender == c.caller && m.system))
  }

  ghost predicate Rightful(g: Conversation, h: Conversation, c: Command) {
    && (forall u :: RowRightful(g, h, c, u))
    && KindRightful(g, h, c) && LogRightful(g, h, c)
  }

  ghost predicate AllRightful(db: Db, t: Db, c: Command) {
    forall id <- db.conversations ::
      if id in t.conversations then t.conversations[id] == db.conversations[id] || (c.id == id && Rightful(db.conversations[id], t.conversations[id], c))
      else
        && c.id == id && ByMember(c) && HasRole(db.conversations[id], c.caller, {Owner})
        && db.conversations[id].kind.Group? && (c.Delete? || Active(db.conversations[id]) == {c.caller})
  }

  lemma {:induction false} ChangedIsRightful(db: Db, t: Db, c: Command, members: map<UserId, Membership>, owner: UserId, entries: seq<Message>)
    requires c.id in db.conversations && db.conversations[c.id].kind.Group? && ByMember(c) && IsActive(db.conversations[c.id], c.caller)
    requires Changed(db, t, c.id, members, owner, entries)
    requires entries == [] || entries == Entry(c.id, db.conversations[c.id], c.caller)
    requires HasRole(db.conversations[c.id], c.caller, {Owner, Admin}) || c.Leave?
    requires owner != db.conversations[c.id].kind.owner ==>
               c.Transfer? && HasRole(db.conversations[c.id], c.caller, {Owner}) && owner == c.member
    requires forall u :: RowRightful(db.conversations[c.id], db.conversations[c.id].(members := members), c, u)
    ensures AllRightful(db, t, c)
  {
    var g, h := db.conversations[c.id], t.conversations[c.id];
    assert h.log[..|g.log|] == g.log;
    forall u ensures RowRightful(g, h, c, u) {
      assert RowRightful(g, g.(members := members), c, u);
      assert Row(h, u) == Row(g.(members := members), u);
    }
    assert Rightful(g, h, c);
    hide Rightful, HasRole;
  }

  lemma {:induction false} AddIsRightful(db: Db, c: Command)
    requires DbOk(db) && c.Add?
    ensures AllRightful(db, Apply(db, c).db, c)
  {
    AddSucceedsExactly(db, c.id, c.caller, c.member);
    hide DbOk, Changed, AllRightful, AddMember;
    if Apply(db, c).reply == Done {
      var g := db.conversations[c.id];
      OwnerStands(db, c.id);
      ChangedIsRightful(db, Apply(db, c).db, c, g.members[c.member := Membership(Member, true, g.next)], g.kind.owner, Entry(c.id, g, c.caller));
    } else {
      SameIsRightful(db, c);
    }
  }

  lemma {:induction false} RemoveIsRightful(db: Db, c: Command)
    requires DbOk(db) && c.Remove?
    ensures AllRightful(db, Apply(db, c).db, c)
  {
    RemoveSucceedsExactly(db, c.id, c.caller, c.member);
    hide DbOk, Changed, AllRightful, RemoveMember;
    if Apply(db, c).reply == Done {
      var g := db.conversations[c.id];
      OwnerStands(db, c.id);
      ChangedIsRightful(db, Apply(db, c).db, c, g.members[c.member := g.members[c.member].(active := false)], g.kind.owner, Entry(c.id, g, c.caller));
    } else {
      SameIsRightful(db, c);
    }
  }

  lemma {:induction false} RenameIsRightful(db: Db, c: Command)
    requires DbOk(db) && c.Retitle?
    ensures AllRightful(db, Apply(db, c).db, c)
  {
    RenameSucceedsExactly(db, c.id, c.caller);
    hide DbOk, Changed, AllRightful, Rename;
    if Apply(db, c).reply == Done {
      var g := db.conversations[c.id];
      OwnerStands(db, c.id);
      ChangedIsRightful(db, Apply(db, c).db, c, g.members, g.kind.owner, []);
    } else {
      SameIsRightful(db, c);
    }
  }

  lemma {:induction false} RoleIsRightful(db: Db, c: Command)
    requires DbOk(db) && c.SetRole?
    ensures AllRightful(db, Apply(db, c).db, c)
  {
    RoleSucceedsExactly(db, c.id, c.caller, c.member, c.role);
    hide DbOk, Changed, AllRightful, ChangeRole;
    if Apply(db, c).reply == Done {
      var g := db.conversations[c.id];
      OwnerStands(db, c.id);
      ChangedIsRightful(db, Apply(db, c).db, c, g.members[c.member := g.members[c.member].(role := c.role)], g.kind.owner, Entry(c.id, g, c.caller));
    } else {
      SameIsRightful(db, c);
    }
  }

  lemma {:induction false} TransferIsRightful(db: Db, c: Command)
    requires DbOk(db) && c.Transfer?
    ensures AllRightful(db, Apply(db, c).db, c)
  {
    TransferSucceedsExactly(db, c.id, c.caller, c.member);
    hide DbOk, Changed, AllRightful, TransferOwnership;
    if Apply(db, c).reply == Done {
      var g := db.conversations[c.id];
      OwnerStands(db, c.id);
      ChangedIsRightful(db, Apply(db, c).db, c, g.members[c.member := g.members[c.member].(role := Owner)][c.caller := g.members[c.caller].(role := Admin)],
                        c.member, Entry(c.id, g, c.caller));
    } else {
      SameIsRightful(db, c);
    }
  }

  lemma {:induction false} LeaveIsRightful(db: Db, c: Command)
    requires DbOk(db) && c.Leave?
    ensures AllRightful(db, Apply(db, c).db, c)
  {
    LeaveSucceedsExactly(db, c.id, c.caller);
    hide DbOk, Changed, Dropped, AllRightful, LeaveGroup, Active, Entry;
    if Apply(db, c).reply == Done {
      var g := db.conversations[c.id];
      OwnerStands(db, c.id);
      if c.caller == g.kind.owner {
        DroppedIsRightful(db, Apply(db, c).db, c);
      } else {
        MembersHaveRoles(db, c.id, c.caller);
        ChangedIsRightful(db, Apply(db, c).db, c, g.members[c.caller := g.members[c.caller].(active := false)], g.kind.owner, Entry(c.id, g, c.caller));
      }
    } else {
      SameIsRightful(db, c);
    }
  }

  lemma {:induction false} DeleteIsRightful(db: Db, c: Command)
    requires DbOk(db) && c.Delete?
    ensures AllRightful(db, Apply(db, c).db, c)
  {
    DeleteSucceedsExactly(db, c.id, c.caller);
    hide DbOk, Dropped, AllRightful, DeleteGroup, Active;
    if Apply(db, c).reply == Done {
      OwnerStands(db, c.id);
      DroppedIsRightful(db, Apply(db, c).db, c);
    } else {
      SameIsRightful(db, c);
    }
  }

  lemma {:induction false} DroppedIsRightful(db: Db, t: Db, c: Command)
    requires (c.Leave? || c.Delete?) && c.id in db.conversations && db.conversations[c.id].kind.Group?
    requires Dropped(db, t, c.id) && HasRole(db.conversations[c.id], c.caller, {Owner})
    requires c.Delete? || Active(db.conversations[c.id]) == {c.caller}
    ensures AllRightful(db, t, c)
  {
    hide Rightful;
  }

  /** Every other command leaves memberships, owners and revisions alone. */
  lemma {:induction false} LogIsRightful(db: Db, c: Command)
    requires DbOk(db) && (c.Post? || c.MarkRead?)
    ensures AllRightful(db, Apply(db, c).db, c)
  {
    hide DbOk, Send, Advance, AllRightful;
    SameIsRightful(db, c);
    if c.Post? {
      var o := Send(db, c.id, c.sender, c.client, c.mentions, c.now, c.retention);
      if o.reply.Sent? && o.reply.created {
        SentIs(db, c.id, c.sender, c.client, c.mentions, c.now, c.retention);
        SenderIsActive(db, c);
        OnlyLogChanges(db, o.db, c);
      } else {
        SendOrNothing(db, c);
      }
    } else {
      ReadWrites(db, c.id, c.user, c.sequence);
      if Advance(db, c.id, c.user, c.sequence).reply != Failed {
        OnlyLogChanges(db, Advance(db, c.id, c.user, c.sequence).db, c);
      }
    }
  }

  lemma SenderIsActive(db: Db, c: Command)
    requires c.Post?
    requires Send(db, c.id, c.sender, c.client, c.mentions, c.now, c.retention).reply.Sent?
    ensures c.id in db.conversations && IsActive(db.conversations[c.id], c.sender)
  {
  }

  lemma SendOrNothing(db: Db, c: Command)
    requires c.Post?
    ensures var o := Send(db, c.id, c.sender, c.client, c.mentions, c.now, c.retention);
            (o.reply.Sent? && o.reply.created) || o.db == db
  {
  }

  lemma {:induction false} OnlyLogChanges(db: Db, t: Db, c: Command)
    requires c.id in db.conversations && c.id in t.conversations
    requires t.conversations == db.conversations[c.id := t.conversations[c.id]]
    requires var g, h := db.conversations[c.id], t.conversations[c.id];
             && h.members == g.members && h.kind == g.kind
             && (h.log == g.log
                 || (c.Post? && IsActive(g, c.sender) && exists m: Message :: h.log == g.log + [m] && m.sender == c.sender && !m.system))
    ensures AllRightful(db, t, c)
  {
    var g, h := db.conversations[c.id], t.conversations[c.id];
    if h.log != g.log {
      var m: Message :| h.log == g.log + [m] && m.sender == c.sender && !m.system;
      assert h.log[..|g.log|] == g.log;
    }
    assert Rightful(g, h, c);
    hide Rightful;
  }

  lemma {:induction false} OpenIsRightful(db: Db, c: Command)
    requires (c.OpenDirect? || c.OpenGroup?) && c.id !in db.conversations
    ensures AllRightful(db, Apply(db, c).db, c)
  {
    hide Rightful, NewDirect, NewGroup;
  }

  lemma OwnerStands(db: Db, id: ConversationId)
    requires DbOk(db) && id in db.conversations && db.conversations[id].kind.Group?
    ensures var g := db.conversations[id]; IsActive(g, g.kind.owner) && g.members[g.kind.owner].role == Owner
  {
    hide LogOk, BoundariesOk, CursorsOk;
    assert ConversationOk(db.conversations[id]);
  }

  lemma MembersHaveRoles(db: Db, id: ConversationId, user: UserId)
    requires DbOk(db) && id in db.conversations && db.conversations[id].kind.Group?
    requires IsActive(db.conversations[id], user) && user != db.conversations[id].kind.owner
    ensures db.conversations[id].members[user].role != Owner
  {
    hide LogOk, BoundariesOk, CursorsOk;
    assert ConversationOk(db.conversations[id]);
  }

  lemma AnyOk(db: Db, id: ConversationId)
    requires DbOk(db) && id in db.conversations
    ensures ConversationOk(db.conversations[id])
  {
  }

  lemma SameIsRightful(db: Db, c: Command)
    ensures AllRightful(db, db, c)
  {
  }

  lemma {:induction false} StepIsRightful(w: World, c: Command)
    requires Inv(w)
    ensures AllRightful(w.db, Step(w, c).db, c)
  {
    hide AllRightful, DbOk, SentOk, BoxesOk, EventsOk, Apply, NextBoxes;
    SameIsRightful(w.db, c);
    if c.OpenDirect? || c.OpenGroup? {
      if c.id !in w.used { OpenIsRightful(w.db, c); }
    } else if c.Post? || c.MarkRead? {
      LogIsRightful(w.db, c);
    } else {
      match c {
        case Add(_, _, _) => AddIsRightful(w.db, c);
        case Remove(_, _, _) => RemoveIsRightful(w.db, c);
        case Retitle(_, _) => RenameIsRightful(w.db, c);
        case SetRole(_, _, _, _) => RoleIsRightful(w.db, c);
        case Transfer(_, _, _) => TransferIsRightful(w.db, c);
        case Leave(_, _) => LeaveIsRightful(w.db, c);
        case Delete(_, _) => DeleteIsRightful(w.db, c);
      }
    }
  }

  /** Over every run: a membership changes only by an active owner or admin, or by a member
      who leaves; the owner's, the ownership and the existence of a group only by its owner,
      who cannot drop a group with others in it except by deleting it; a log only grows by
      what an active member sends, or by the record of that member's command. */
  lemma {:induction false} OnlyManagersChangeAGroup(directory: Directory, commands: seq<Command>, c: Command)
    ensures AllRightful(At(directory, commands), After(directory, commands, c), c)
  {
    AtOk(directory, commands);
    hide Run, Inv, AllRightful, Step;
    StepIsRightful(Run(Initial(directory), commands), c);
  }

  // ----- One direct conversation for two accounts -----

  ghost predicate PairsOk(db: Db) {
    && Ascending(db)
    && forall a, b :: a in db.conversations && b in db.conversations && SameKind(db.conversations[a], db.conversations[b]) ==> a == b
  }

  ghost predicate SameKind(c: Conversation, d: Conversation) {
    c.kind.Direct? && c.kind == d.kind
  }

  lemma {:induction false} RightfulKeepsPairs(db: Db, t: Db, c: Command)
    requires PairsOk(db) && AllRightful(db, t, c)
    requires forall id <- t.conversations :: id in db.conversations || (id == c.id && t.conversations[id].kind.Group?)
    ensures PairsOk(t)
  {
    forall id <- t.conversations ensures t.conversations[id].kind.Group? || (id in db.conversations && t.conversations[id].kind == db.conversations[id].kind) {
      if id in db.conversations && t.conversations[id] != db.conversations[id] {
        assert KindRightful(db.conversations[id], t.conversations[id], c);
      }
    }
    hide AllRightful;
    forall a, b | a in t.conversations && b in t.conversations && SameKind(t.conversations[a], t.conversations[b]) ensures a == b {
      assert SameKind(db.conversations[a], db.conversations[b]);
    }
  }

  lemma {:induction false} DirectKeepsPairs(db: Db, id: ConversationId, user: UserId, other: UserId)
    requires PairsOk(db)
    ensures PairsOk(CreateDirect(db, id, user, other).db)
  {
    DirectSucceedsExactly(db, id, user, other);
    hide CreateDirect;
    var t := CreateDirect(db, id, user, other).db;
    if t != db {
      forall a, b | a in t.conversations && b in t.conversations && SameKind(t.conversations[a], t.conversations[b]) ensures a == b {
        if a != id && b != id {
          assert SameKind(db.conversations[a], db.conversations[b]);
        }
      }
    }
  }

  lemma {:induction false} StepKeepsPairs(w: World, c: Command)
    requires Inv(w) && PairsOk(w.db)
    ensures PairsOk(Step(w, c).db)
  {
    hide PairsOk, AllRightful, DbOk, SentOk, BoxesOk, EventsOk, NextBoxes, Later, Told, Apply;
    StepKeeps(w, c);
    StepIsRightful(w, c);
    if c.OpenDirect? {
      DirectApplies(w.db, c);
      DirectKeepsPairs(w.db, c.id, c.user, c.other);
    } else {
      if c.OpenGroup? && c.id !in w.used { FoundedIsGroup(w.db, c); }
      RightfulKeepsPairs(w.db, Step(w, c).db, c);
    }
  }

  lemma DirectApplies(db: Db, c: Command)
    requires c.OpenDirect?
    ensures Apply(db, c) == CreateDirect(db, c.id, c.user, c.other)
  {
  }

  lemma {:induction false} FoundedIsGroup(db: Db, c: Command)
    requires c.OpenGroup? && c.id !in db.conversations
    ensures var t := Apply(db, c).db;
            forall id <- t.conversations :: id in db.conversations || (id == c.id && t.conversations[id].kind.Group?)
  {
    FoundSucceedsExactly(db, c.id, c.owner, c.invited);
    hide CreateGroup;
  }

  lemma {:induction false} RunKeepsPairs(w: World, commands: seq<Command>)
    requires Inv(w) && PairsOk(w.db)
    ensures PairsOk(Run(w, commands).db)
    decreases |commands|
  {
    hide Inv, PairsOk, Step, WorldLater, Told;
    if commands != [] {
      StepKeeps(w, commands[0]);
      StepKeepsPairs(w, commands[0]);
      RunKeepsPairs(Step(w, commands[0]), commands[1..]);
    }
  }

  /** Over every run, two accounts have one direct conversation at most, whoever opened it. */
  lemma {:induction false} OneDirectConversation(directory: Directory, commands: seq<Command>, a: ConversationId, b: ConversationId,
                                                 user: UserId, other: UserId)
    requires var db := At(directory, commands);
             && a in db.conversations && Between(db.conversations[a], user, other)
             && b in db.conversations && Between(db.conversations[b], user, other)
    ensures a == b
  {
    InitialOk(directory);
    RunKeepsPairs(Initial(directory), commands);
    hide Run;
    var db := At(directory, commands);
    assert SameKind(db.conversations[a], db.conversations[b]);
  }

  /** Every law above speaks of every reachable database. */
  lemma {:induction false} EveryDatabaseQualifies(directory: Directory, commands: seq<Command>)
    ensures var db := At(directory, commands); DbOk(db) && SentOk(db) && Ascending(db)
  {
    AtOk(directory, commands);
    InitialOk(directory);
    RunKeepsPairs(Initial(directory), commands);
    hide Run, DbOk, SentOk, BoxesOk, EventsOk;
  }
}
