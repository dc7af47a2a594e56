/** The transactions in the form they have in the source: statements on rows and loops
    over result rows.  Every method is tied to its transaction as a function. */
module MessageStore {
  import opened Options
  import opened Conversations

  ghost predicate Distinct<T>(q: seq<T>) {
    forall i, j :: 0 <= i < j < |q| ==> q[i] != q[j]
  }

  lemma ElementsGrow(users: seq<UserId>, user: UserId)
    ensures Elements(users + [user]) == Elements(users) + {user}
  {
    assert forall u :: u in users + [user] <==> u in users || u == user;
  }

  lemma {:induction false} DistinctCount(users: seq<UserId>)
    requires Distinct(users)
    ensures |Elements(users)| == |users|
    decreases |users|
  {
    if users != [] {
      var rest, last := users[..|users| - 1], users[|users| - 1];
      DistinctCount(rest);
      assert users == rest + [last];
      ElementsGrow(rest, last);
      assert last !in Elements(rest);
    }
  }

  lemma SmallerSet(a: set<UserId>, b: set<UserId>)
    requires a <= b
    ensures |a| <= |b| && (|a| == |b| <==> a == b)
  {
    assert b == a + (b - a);
    assert |b| == |a| + |b - a|;
  }

  /** Counting the matching rows of distinct identifiers tells whether all of them match. */
  lemma {:induction false} CountDecides(users: seq<UserId>, allowed: set<UserId>)
    requires Distinct(users)
    ensures |Elements(users) * allowed| == |users| <==> Elements(users) <= allowed
  {
    DistinctCount(users);
    SmallerSet(Elements(users) * allowed, Elements(users));
    assert Elements(users) * allowed == Elements(users) <==> Elements(users) <= allowed;
  }

  /** The rows of a query, in no particular order. */
  method Rows(found: set<UserId>) returns (rows: seq<UserId>)
    ensures Elements(rows) == found && Distinct(rows)
  {
    rows := [];
    var left := found;
    while left != {}
      invariant left <= found && Elements(rows) == found - left && Distinct(rows)
      decreases |left|
    {
      var u :| u in left;
      assert u !in Elements(rows);
      ElementsGrow(rows, u);
      rows := rows + [u];
      left := left - {u};
    }
  }

  /** The member and cursor rows of a new group. */
  method GroupRows(owner: UserId, ids: seq<UserId>) returns (c: Conversation)
    ensures c == NewGroup(owner, Elements(ids)) && c.kind == Group(owner, 1)
  {
    var members: map<UserId, Membership>, cursors: map<UserId, Cursor> := map[], map[];
    for i := 0 to |ids|
      invariant forall u :: u in members <==> u in ids[..i]
      invariant forall u :: u in cursors <==> u in ids[..i]
      invariant forall u <- members :: members[u] == Membership(if u == owner then Owner else Member, true, 1)
      invariant forall u <- cursors :: cursors[u] == Cursor(0, 0)
    {
      var role := Member;
      if ids[i] == owner {
        role := Owner;
      }
      members := members[ids[i] := Membership(role, true, 1)];
      cursors := cursors[ids[i] := Cursor(0, 0)];
    }
    assert ids[..|ids|] == ids;
    c := Conversation(Group(owner, 1), members, cursors, [], 1);
  }

  class MessageStore {
    const directory: Directory
    var conversations: map<ConversationId, Conversation>
    var sent: map<(UserId, MessageKey), Slot>
    var events: seq<Event>

    function View(): Db
      reads this
    {
      Db(directory, conversations, sent, events)
    }

    constructor (directory: Directory)
      ensures View() == Db(directory, map[], map[], [])
    {
      this.directory := directory;
      conversations, sent, events := map[], map[], [];
    }

    // ----- Messages -----

    method RecipientIds(id: ConversationId, sender: UserId) returns (recipients: seq<UserId>)
      requires id in conversations
      ensures Distinct(recipients) && Elements(recipients) == Active(conversations[id]) - {sender}
    {
      var rows := Rows(Active(conversations[id]) - {sender});
      recipients := [];
      for i := 0 to |rows|
        invariant recipients == rows[..i]
      {
        recipients := recipients + [rows[i]];
      }
    }

    /** The statements that store one message: take the next sequence, insert the row,
        count it as unread for every other active member. */
    method Insert(id: ConversationId, sender: UserId, key: MessageKey, system: bool, expiresAt: Option<int>) returns (m: Message)
      requires id in conversations
      modifies this`conversations, this`sent
      ensures m == Message(sender, key, old(conversations)[id].next, system, expiresAt)
      ensures View() == Write(old(View()), id, m)
    {
      hide Bumped;
      var c := conversations[id];
      var sequence := c.next;
      c := c.(next := c.next + 1);
      m := Message(sender, key, sequence, system, expiresAt);
      c := c.(log := c.log + [m]);
      sent := sent[(sender, key) := Slot(id, m)];
      SameUnread(c, conversations[id], sender);
      c := c.(cursors := Bumped(c, sender));
      conversations := conversations[id := c];
    }

    /** A failed transaction leaves everything as it was. */
    method Rollback(savedConversations: map<ConversationId, Conversation>, savedSent: map<(UserId, MessageKey), Slot>)
      modifies this`conversations, this`sent
      ensures conversations == savedConversations && sent == savedSent
    {
      conversations, sent := savedConversations, savedSent;
    }

    /** `mentions` lists each mentioned user once. */
    method SendMessage(id: ConversationId, sender: UserId, client: ClientId, mentions: seq<UserId>, now: int, retention: Option<int>)
      returns (reply: Reply)
      requires Distinct(mentions)
      modifies this`conversations, this`sent
      ensures Outcome(View(), reply) == Send(old(View()), id, sender, client, Elements(mentions), now, retention)
    {
      hide Active, Elements, Write;
      if id !in conversations || !IsActive(conversations[id], sender) { return ConversationNotFound; }
      var key := Chosen(client);
      if (sender, key) in sent {
        var slot := sent[(sender, key)];
        if slot.conversation != id { return KeyConflict; }
        var expiresAt := slot.message.expiresAt;
        if expiresAt.Some? && expiresAt.value <= now { return MessageExpired; }
        var recipients := RecipientIds(id, sender);
        return Sent(slot.message, false, Elements(recipients));
      }
      var savedConversations, savedSent := conversations, sent;
      var expiresAt := None;
      if retention.Some? {
        expiresAt := Some(now + retention.value);
      }
      var m := Insert(id, sender, key, false, expiresAt);
      MembersSurvive(old(View()), id, m);
      if |mentions| > 0 {
        for i := 0 to |mentions|
          invariant sender !in mentions[..i]
        {
          if mentions[i] == sender {
            SelfMention(mentions, i);
            Rollback(savedConversations, savedSent);
            return InvalidMention;
          }
        }
        var authorized := |Elements(mentions) * Active(conversations[id])|;
        CountDecides(mentions, Active(conversations[id]));
        if authorized != |mentions| {
          Rollback(savedConversations, savedSent);
          return InvalidMention;
        }
      }
      NotMentioned(mentions, sender);
      var recipients := RecipientIds(id, sender);
      return Sent(m, true, Elements(recipients));
    }

    // ----- Read positions -----

    method PeerIds(id: ConversationId, user: UserId) returns (peers: seq<UserId>)
      requires id in conversations
      ensures Distinct(peers) && Elements(peers) == Peers(conversations[id], user)
    {
      var rows := Rows(Peers(conversations[id], user));
      peers := [];
      for i := 0 to |rows|
        invariant peers == rows[..i]
      {
        peers := peers + [rows[i]];
      }
    }

    method AdvanceCursor(id: ConversationId, user: UserId, sequence: int) returns (reply: Reply)
      modifies this`conversations
      ensures Outcome(View(), reply) == Advance(old(View()), id, user, sequence)
    {
      hide Recount, HighestFrom, Peers, Elements;
      if id !in conversations { return Failed; }
      var c := conversations[id];
      if !MayRead(c, user) { return Failed; }
      var visibleFrom := Boundary(c, user);
      var peers := PeerIds(id, user);
      var requested := Max(visibleFrom - 1, Min(sequence, HighestFrom(c.log, visibleFrom)));
      var counted := Recount(c.log, user, visibleFrom, requested);
      var cursor := Cursor(requested, counted);
      if user in c.cursors {
        var stored := c.cursors[user];
        cursor := Cursor(Max(stored.lastRead, requested), if requested > stored.lastRead then counted else stored.unread);
      }
      conversations := conversations[id := c.(cursors := c.cursors[user := cursor])];
      SamePeers(c, conversations[id], user);
      return Read(cursor.lastRead, visibleFrom, Elements(peers));
    }

    // ----- Events -----

    method WriteGroupSystemEntry(id: ConversationId, actor: UserId)
      requires id in conversations
      modifies this`conversations, this`sent
      ensures var next := old(conversations)[id].next;
              View() == Write(old(View()), id, Message(actor, Generated(id, next), next, true, None))
    {
      var m := Insert(id, actor, Generated(id, conversations[id].next), true, None);
    }

    method WriteGroupEvent(id: ConversationId, deleted: bool, extra: seq<UserId>)
      requires id in conversations && conversations[id].kind.Group?
      modifies this`events
      ensures events == old(events) + [MembershipEvent(id, conversations[id], deleted, Elements(extra))]
    {
      hide Active;
      var revision := conversations[id].kind.revision;
      if deleted {
        revision := revision + 1;
      }
      var rows := Rows(Active(conversations[id]));
      var recipients, seen := [], {};
      for i := 0 to |rows|
        invariant events == old(events)
        invariant recipients == rows[..i] && seen == Elements(recipients)
      {
        ElementsGrow(recipients, rows[i]);
        seen := seen + {rows[i]};
        recipients := recipients + [rows[i]];
      }
      assert recipients == rows;
      var authorized := recipients;
      for i := 0 to |extra|
        invariant events == old(events)
        invariant seen == Elements(recipients) == Elements(rows) + (Elements(extra[..i]) - {0})
      {
        assert extra[..i + 1] == extra[..i] + [extra[i]];
        ElementsGrow(extra[..i], extra[i]);
        if extra[i] != 0 && extra[i] !in seen {
          ElementsGrow(recipients, extra[i]);
          seen := seen + {extra[i]};
          recipients := recipients + [extra[i]];
        }
      }
      assert extra[..|extra|] == extra;
      events := events + [Event(id, revision, deleted, Elements(recipients), Elements(authorized))];
    }

    // ----- Creating a group -----

    method CreateGroupRows(id: ConversationId, owner: UserId, others: seq<UserId>) returns (reply: Reply)
      requires Distinct([owner] + others)
      modifies this`conversations, this`events
      ensures var ids := Elements([owner] + others);
              if !(ids <= directory.verified) then View() == old(View()) && reply == NotFound
              else var c := NewGroup(owner, ids);
                   && reply == Done
                   && View() == old(View()).(conversations := old(conversations)[id := c],
                                             events := old(events) + [MembershipEvent(id, c, false, {})])
    {
      hide NewGroup, MembershipEvent;
      var ids := [owner] + others;
      var count := |Elements(ids) * directory.verified|;
      CountDecides(ids, directory.verified);
      if count != |ids| { return NotFound; }
      var c := GroupRows(owner, ids);
      conversations := conversations[id := c];
      assert Elements([]) == {};
      WriteGroupEvent(id, false, []);
      return Done;
    }

    method Create(id: ConversationId, owner: UserId, invited: seq<UserId>) returns (reply: Reply)
      modifies this`conversations, this`events
      ensures Outcome(View(), reply) == CreateGroup(old(View()), id, owner, invited)
    {
      hide NewGroup, MembershipEvent;
      if owner == 0 { return InvalidMembers; }
      var seen, members := {owner}, [];
      for i := 0 to |invited|
        invariant View() == old(View())
        invariant 0 !in invited[..i] && Distinct([owner] + members)
        invariant seen == Elements([owner] + members) == {owner} + Elements(invited[..i])
      {
        if invited[i] == 0 {
          assert 0 in invited;
          return InvalidMembers;
        }
        assert invited[..i + 1] == invited[..i] + [invited[i]];
        ElementsGrow(invited[..i], invited[i]);
        if invited[i] !in seen {
          assert [owner] + (members + [invited[i]]) == ([owner] + members) + [invited[i]];
          ElementsGrow([owner] + members, invited[i]);
          seen := seen + {invited[i]};
          members := members + [invited[i]];
        }
      }
      assert invited[..|invited|] == invited;
      if |seen| > MAX_GROUP_MEMBERS { return InvalidMembers; }
      reply := CreateGroupRows(id, owner, members);
    }

    method CreateConversation(id: ConversationId, user: UserId, other: UserId) returns (reply: Reply)
      modifies this`conversations
      ensures Outcome(View(), reply) == CreateDirect(old(View()), id, user, other)
    {
      if other !in directory.known { return NotFound; }
      if user == other || user !in directory.known { return Failed; }
      var pair := Pair(user, other);
      if exists known <- conversations :: conversations[known].kind == pair { return Done; }
      var member := Membership(Member, true, 1);
      conversations := conversations[id := Conversation(pair, map[pair.low := member][pair.high := member], map[], [], 1)];
      return Done;
    }

    // ----- Changing a group -----

    /** The last statements of every membership transaction: the next revision, the
        system entry, the event. */
    method Announce(id: ConversationId, actor: UserId, entry: bool, extra: seq<UserId>)
      requires id in conversations && conversations[id].kind.Group?
      modifies this`conversations, this`sent, this`events
      ensures View() == Publish(old(View()), id, old(conversations)[id], actor, entry, Elements(extra))
    {
      hide Active, Elements, Bumped;
      var c := conversations[id];
      conversations := conversations[id := c.(kind := c.kind.(revision := c.kind.revision + 1))];
      ghost var next := conversations[id];
      if entry {
        WriteGroupSystemEntry(id, actor);
      }
      WriteGroupEvent(id, false, extra);
      assert conversations[id].kind == next.kind && Active(conversations[id]) == Active(next) by {
        SameMembers(conversations[id], next);
      }
    }

    method Add(id: ConversationId, caller: UserId, member: UserId) returns (reply: Reply)
      modifies this`conversations, this`sent, this`events
      ensures Outcome(View(), reply) == AddMember(old(View()), id, caller, member)
    {
      hide Publish;
      if member == 0 || !Actor(View(), id, caller) { return NotFound; }
      var c := conversations[id];
      var role, nextSequence := c.members[caller].role, c.next;
      if role != Owner && role != Admin { return Forbidden; }
      if member !in directory.known { return Failed; }
      if member !in directory.verified { return NotFound; }
      if |Active(c)| >= MAX_GROUP_MEMBERS { return GroupFull; }
      if member in c.members && c.members[member].active { return MemberExists; }
      c := c.(members := c.members[member := Membership(Member, true, nextSequence)]);
      c := c.(cursors := c.cursors[member := Cursor(nextSequence - 1, 0)]);
      conversations := conversations[id := c];
      OneElement(member);
      PublishOver(old(View()), id, c, caller, true, {member});
      Announce(id, caller, true, [member]);
      return Done;
    }

    method Remove(id: ConversationId, caller: UserId, member: UserId) returns (reply: Reply)
      modifies this`conversations, this`sent, this`events
      ensures Outcome(View(), reply) == RemoveMember(old(View()), id, caller, member)
    {
      hide Publish;
      if !Actor(View(), id, caller) { return NotFound; }
      var c := conversations[id];
      var role, ownerId := c.members[caller].role, c.kind.owner;
      if role != Owner && role != Admin { return Forbidden; }
      if member == ownerId { return Forbidden; }
      if member !in directory.known { return Failed; }
      if member !in c.members || !c.members[member].active { return NotFound; }
      c := c.(members := c.members[member := c.members[member].(active := false)]);
      conversations := conversations[id := c];
      OneElement(member);
      PublishOver(old(View()), id, c, caller, true, {member});
      Announce(id, caller, true, [member]);
      return Done;
    }

    method RenameGroup(id: ConversationId, caller: UserId) returns (reply: Reply)
      modifies this`conversations, this`sent, this`events
      ensures Outcome(View(), reply) == Rename(old(View()), id, caller)
    {
      hide Publish;
      if !Actor(View(), id, caller) { return NotFound; }
      var role := conversations[id].members[caller].role;
      if role != Owner && role != Admin { return Forbidden; }
      assert Elements([]) == {};
      Announce(id, caller, false, []);
      return Done;
    }

    method SetRole(id: ConversationId, caller: UserId, member: UserId, role: Role) returns (reply: Reply)
      modifies this`conversations, this`sent, this`events
      ensures Outcome(View(), reply) == ChangeRole(old(View()), id, caller, member, role)
    {
      hide Publish;
      if role == Owner { return InvalidRole; }
      if !Actor(View(), id, caller) { return NotFound; }
      var c := conversations[id];
      var actorRole, ownerId := c.members[caller].role, c.kind.owner;
      if (actorRole != Owner && actorRole != Admin) || member == ownerId { return Forbidden; }
      if member !in directory.known { return Failed; }
      if member !in c.members || !c.members[member].active { return NotFound; }
      c := c.(members := c.members[member := c.members[member].(role := role)]);
      conversations := conversations[id := c];
      assert Elements([]) == {};
      PublishOver(old(View()), id, c, caller, true, {});
      Announce(id, caller, true, []);
      return Done;
    }

    method Transfer(id: ConversationId, caller: UserId, member: UserId) returns (reply: Reply)
      modifies this`conversations, this`sent, this`events
      ensures Outcome(View(), reply) == TransferOwnership(old(View()), id, caller, member)
    {
      hide Publish;
      if caller == member { return SelfTransfer; }
      if !Actor(View(), id, caller) { return NotFound; }
      var c := conversations[id];
      if c.members[caller].role != Owner { return Forbidden; }
      if member !in directory.known { return Failed; }
      if member !in c.members || !c.members[member].active { return NotFound; }
      c := c.(members := c.members[member := c.members[member].(role := Owner)]);
      c := c.(members := c.members[caller := c.members[caller].(role := Admin)]);
      c := c.(kind := c.kind.(owner := member));
      conversations := conversations[id := c];
      assert Elements([]) == {};
      PublishOver(old(View()), id, c, caller, true, {});
      Announce(id, caller, true, []);
      return Done;
    }

    method DeleteConversation(id: ConversationId)
      requires id in conversations
      modifies this`conversations, this`sent
      ensures conversations == old(conversations) - {id}
      ensures sent == map k | k in old(sent) && old(sent)[k].conversation != id :: old(sent)[k]
    {
      conversations := conversations - {id};
      sent := map k | k in sent && sent[k].conversation != id :: sent[k];
    }

    method Leave(id: ConversationId, caller: UserId) returns (reply: Reply)
      modifies this`conversations, this`sent, this`events
      ensures Outcome(View(), reply) == LeaveGroup(old(View()), id, caller)
    {
      hide Publish, MembershipEvent;
      if !Actor(View(), id, caller) { return NotFound; }
      var c := conversations[id];
      OneElement(caller);
      if c.members[caller].role == Owner {
        if |Active(c)| > 1 { return Forbidden; }
        WriteGroupEvent(id, true, [caller]);
        DeleteConversation(id);
      } else {
        c := c.(members := c.members[caller := c.members[caller].(active := false)]);
        conversations := conversations[id := c];
        PublishOver(old(View()), id, c, caller, true, {caller});
        Announce(id, caller, true, [caller]);
      }
      return Done;
    }

    method Delete(id: ConversationId, caller: UserId) returns (reply: Reply)
      modifies this`conversations, this`sent, this`events
      ensures Outcome(View(), reply) == DeleteGroup(old(View()), id, caller)
    {
      hide MembershipEvent;
      if !Actor(View(), id, caller) { return NotFound; }
      if conversations[id].members[caller].role != Owner { return Forbidden; }
      assert Elements([]) == {};
      WriteGroupEvent(id, true, []);
      DeleteConversation(id);
      return Done;
    }
  }

  lemma SameUnread(c: Conversation, d: Conversation, sender: UserId)
    requires c.members == d.members && c.cursors == d.cursors
    ensures Bumped(c, sender) == Bumped(d, sender)
  {
    assert Active(c) == Active(d);
  }

  lemma MembersSurvive(db: Db, id: ConversationId, m: Message)
    requires id in db.conversations
    ensures id in Write(db, id, m).conversations && Active(Write(db, id, m).conversations[id]) == Active(db.conversations[id])
  {
    hide Bumped;
  }

  lemma SelfMention(mentions: seq<UserId>, i: nat)
    requires i < |mentions|
    ensures mentions[i] in Elements(mentions)
  {
  }

  lemma NotMentioned(mentions: seq<UserId>, sender: UserId)
    ensures sender in Elements(mentions) <==> sender in mentions
    ensures mentions == [] ==> Elements(mentions) == {}
  {
  }

  lemma SameMembers(c: Conversation, d: Conversation)
    requires c.members == d.members
    ensures Active(c) == Active(d)
  {
  }

  lemma SamePeers(c: Conversation, d: Conversation, user: UserId)
    requires c.members == d.members && c.kind == d.kind
    ensures Peers(c, user) == Peers(d, user)
  {
    assert Active(c) == Active(d);
  }

  lemma OneElement(user: UserId)
    ensures Elements([user]) == {user}
  {
    assert user in [user];
  }

  /** Publishing reads nothing of the row it replaces. */
  lemma PublishOver(db: Db, id: ConversationId, c: Conversation, actor: UserId, entry: bool, extra: set<UserId>)
    requires c.kind.Group?
    ensures Publish(db.(conversations := db.conversations[id := c]), id, c, actor, entry, extra)
         == Publish(db, id, c, actor, entry, extra)
  {
    hide Bumped, Active;
    var next := c.(kind := c.kind.(revision := c.kind.revision + 1));
    assert db.conversations[id := c][id := next] == db.conversations[id := next];
  }
}
