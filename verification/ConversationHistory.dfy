/** What every run of the message database keeps, and what follows for every run. */
module ConversationHistory {
  import opened Options
  import opened Conversations
  import opened ConversationInvariant
  import opened ConversationRuns

  // ----- The uniqueness index agrees with the logs -----

  ghost predicate SlotOk(db: Db, k: (UserId, MessageKey))
    requires k in db.sent
  {
    var slot := db.sent[k];
    && slot.conversation in db.conversations
    && slot.message in db.conversations[slot.conversation].log
    && k == (slot.message.sender, slot.message.key)
  }

  ghost predicate EntryOk(db: Db, id: ConversationId, m: Message) {
    && (m.sender, m.key) in db.sent && db.sent[(m.sender, m.key)] == Slot(id, m)
    && (m.key.Generated? ==> m.key == Generated(id, m.sequence))
  }

  ghost predicate LogSent(db: Db, id: ConversationId)
    requires id in db.conversations
  {
    forall m <- db.conversations[id].log :: EntryOk(db, id, m)
  }

  ghost predicate SentOk(db: Db) {
    && (forall k <- db.sent :: SlotOk(db, k))
    && (forall id <- db.conversations :: LogSent(db, id))
  }

  /** A generated key names the position it is about to take, so it is never taken. */
  lemma {:induction false} GeneratedUnused(db: Db, id: ConversationId, sender: UserId)
    requires SentOk(db) && id in db.conversations && LogOk(db.conversations[id])
    ensures (sender, Generated(id, db.conversations[id].next)) !in db.sent
  {
  }

  /** Replacing a conversation by one with the same log disturbs no index entry. */
  lemma {:induction false} Replaced(db: Db, id: ConversationId, c: Conversation)
    requires DbOk(db) && SentOk(db) && ConversationOk(c)
    requires if id in db.conversations then c.log == db.conversations[id].log else c.log == []
    ensures DbOk(db.(conversations := db.conversations[id := c])) && SentOk(db.(conversations := db.conversations[id := c]))
  {
    hide ConversationOk;
    var t := db.(conversations := db.conversations[id := c]);
    forall k <- t.sent ensures SlotOk(t, k) { assert SlotOk(db, k); }
    forall other <- t.conversations ensures LogSent(t, other) {
      if other in db.conversations { assert LogSent(db, other); }
      forall m <- t.conversations[other].log ensures EntryOk(t, other, m) {
        assert EntryOk(db, other, m);
      }
    }
  }

  lemma {:induction false} WrittenSent(db: Db, id: ConversationId, m: Message)
    requires SentOk(db) && id in db.conversations && (m.sender, m.key) !in db.sent
    requires m.key.Generated? ==> m.key == Generated(id, m.sequence)
    ensures SentOk(Write(db, id, m))
  {
    hide Bumped;
    var t := Write(db, id, m);
    assert m in t.conversations[id].log;
    forall k <- t.sent ensures SlotOk(t, k) {
      if k != (m.sender, m.key) { assert SlotOk(db, k); }
    }
    forall other <- t.conversations ensures LogSent(t, other) {
      assert LogSent(db, other);
      forall x <- t.conversations[other].log ensures EntryOk(t, other, x) {
        if other != id || x != m {
          assert x in db.conversations[other].log;
          assert EntryOk(db, other, x);
        }
      }
    }
  }

  lemma {:induction false} Written(db: Db, id: ConversationId, m: Message)
    requires DbOk(db) && SentOk(db) && id in db.conversations && (m.sender, m.key) !in db.sent
    requires m.sequence == db.conversations[id].next
    requires m.key.Generated? ==> m.key == Generated(id, m.sequence)
    ensures DbOk(Write(db, id, m)) && SentOk(Write(db, id, m))
  {
    AppendedKeeps(db.conversations[id], m);
    WrittenSent(db, id, m);
    hide ConversationOk, SentOk, Appended;
  }

  lemma {:induction false} DroppedOk(db: Db, id: ConversationId, extra: set<UserId>)
    requires DbOk(db) && SentOk(db) && id in db.conversations && db.conversations[id].kind.Group?
    ensures DbOk(Drop(db, id, extra)) && SentOk(Drop(db, id, extra))
  {
    hide ConversationOk, MembershipEvent;
    var t := Drop(db, id, extra);
    forall k <- t.sent ensures SlotOk(t, k) { assert SlotOk(db, k); }
    forall other <- t.conversations ensures LogSent(t, other) {
      assert LogSent(db, other);
      forall m <- t.conversations[other].log ensures EntryOk(t, other, m) { assert EntryOk(db, other, m); }
    }
  }

  function NextRevision(c: Conversation): Conversation
    requires c.kind.Group?
  {
    c.(kind := c.kind.(revision := c.kind.revision + 1))
  }

  lemma {:induction false} NextRevisionOk(c: Conversation)
    requires ConversationOk(c) && c.kind.Group?
    ensures ConversationOk(NextRevision(c)) && Active(NextRevision(c)) == Active(c)
  {
    var d := NextRevision(c);
    forall u <- d.members ensures CursorOk(d, u) { assert CursorOk(c, u); }
    hide CursorOk, LogOk;
    assert Active(d) == Active(c);
  }

  /** What a published change stores for the group. */
  function Stored(id: ConversationId, changed: Conversation, actor: UserId, entry: bool): Conversation
    requires changed.kind.Group?
  {
    var c := NextRevision(changed);
    if entry then Appended(c, Message(actor, Generated(id, c.next), c.next, true, None)) else c
  }

  lemma {:induction false} PublishedAs(db: Db, id: ConversationId, changed: Conversation, actor: UserId, entry: bool, extra: set<UserId>)
    requires changed.kind.Group?
    ensures var t := Publish(db, id, changed, actor, entry, extra);
            && t.conversations == db.conversations[id := Stored(id, changed, actor, entry)]
            && t.events == db.events + [MembershipEvent(id, NextRevision(changed), false, extra)]
  {
    hide Bumped, Active;
  }

  lemma {:induction false} PublishedOk(db: Db, id: ConversationId, changed: Conversation, actor: UserId, entry: bool, extra: set<UserId>)
    requires DbOk(db) && SentOk(db) && id in db.conversations && Prepared(db.conversations[id], changed, extra)
    ensures DbOk(Publish(db, id, changed, actor, entry, extra)) && SentOk(Publish(db, id, changed, actor, entry, extra))
  {
    var c := NextRevision(changed);
    NextRevisionOk(changed);
    Replaced(db, id, c);
    var stored := db.(conversations := db.conversations[id := c]);
    if entry {
      GeneratedUnused(stored, id, actor);
      Written(stored, id, Message(actor, Generated(id, c.next), c.next, true, None));
    }
    hide SentOk, Write, ConversationOk, MembershipEvent, Prepared, NextRevision;
    EventsAside(Publish(db, id, changed, actor, entry, extra).(events := db.events), Publish(db, id, changed, actor, entry, extra).events);
  }

  lemma {:induction false} EventsAside(db: Db, events: seq<Event>)
    requires DbOk(db) && SentOk(db)
    ensures DbOk(db.(events := events)) && SentOk(db.(events := events))
  {
    hide ConversationOk;
    var t := db.(events := events);
    forall k <- t.sent ensures SlotOk(t, k) { assert SlotOk(db, k); }
    forall id <- t.conversations ensures LogSent(t, id) {
      assert LogSent(db, id);
      forall m <- t.conversations[id].log ensures EntryOk(t, id, m) { assert EntryOk(db, id, m); }
    }
  }

  lemma {:induction false} ChangeKeepsDb(db: Db, used: set<ConversationId>, change: Change)
    requires DbOk(db) && SentOk(db) && db.conversations.Keys <= used && Allowed(db, used, change)
    ensures change.Published? ==> change.changed.kind.Group?
    ensures DbOk(Applied(db, change)) && SentOk(Applied(db, change))
  {
    hide SentOk, Prepared, NewDirect, NewGroup, Advanced, Publish, Drop, Write, ConversationOk, MembershipEvent;
    match change
    case Nothing =>
    case Opened(id, low, high) =>
      NewDirectOk(low, high);
      NewLogs(low, high, {});
      Replaced(db, id, NewDirect(low, high));
    case Founded(id, owner, members) =>
      NewGroupOk(owner, members);
      NewLogs(owner, owner, members);
      Replaced(db, id, NewGroup(owner, members));
      EventsAside(db.(conversations := db.conversations[id := NewGroup(owner, members)]), Applied(db, change).events);
    case Posted(id, m) => Written(db, id, m);
    case ReadTo(id, user, sequence) =>
      AdvancedKeeps(db.conversations[id], user, sequence);
      AdvancedLog(db.conversations[id], user, sequence);
      Replaced(db, id, Advanced(db.conversations[id], user, sequence));
    case Published(id, changed, actor, entry, extra) =>
      PreparedIsGroup(db.conversations[id], changed, extra);
      PublishedOk(db, id, changed, actor, entry, extra);
    case Dropped(id, extra) => DroppedOk(db, id, extra);
  }

  lemma NewLogs(low: UserId, high: UserId, members: set<UserId>)
    ensures NewDirect(low, high).log == [] && NewGroup(low, members).log == []
    ensures NewGroup(low, members).kind.Group? && NewDirect(low, high).kind.Direct?
  {
  }

  lemma AdvancedLog(c: Conversation, user: UserId, sequence: int)
    ensures var d := Advanced(c, user, sequence);
            d.log == c.log && d.kind == c.kind && d.members == c.members && d.next == c.next
  {
  }

  // ----- How each conversation moves -----

  /** One step: the log grows at its end, who stays keeps the boundary, who joins gets the
      position of the next message. */
  ghost predicate Moves(c: Conversation, d: Conversation) {
    && c.log <= d.log
    && forall u <- d.members :: d.members[u].active ==>
         d.members[u].visibleFrom == if IsActive(c, u) then c.members[u].visibleFrom else c.next
  }

  ghost predicate Starts(c: Conversation) {
    c.log == [] && forall u <- c.members :: c.members[u].visibleFrom == 1
  }

  ghost predicate StepOk(db: Db, t: Db, used: set<ConversationId>) {
    forall id <- t.conversations ::
      if id in db.conversations then Moves(db.conversations[id], t.conversations[id]) && Later(db.conversations[id], t.conversations[id])
      else id !in used && Starts(t.conversations[id])
  }

  lemma SameMoves(c: Conversation)
    ensures Moves(c, c) && Later(c, c)
  {
  }

  lemma {:induction false} OneMoves(db: Db, t: Db, used: set<ConversationId>, id: ConversationId)
    requires id in t.conversations && t.conversations == db.conversations[id := t.conversations[id]]
    requires if id in db.conversations then Moves(db.conversations[id], t.conversations[id]) && Later(db.conversations[id], t.conversations[id])
             else id !in used && Starts(t.conversations[id])
    ensures StepOk(db, t, used)
  {
    hide Moves, Later, Starts;
    forall other <- t.conversations | other != id ensures Moves(db.conversations[other], t.conversations[other]) && Later(db.conversations[other], t.conversations[other]) {
      SameMoves(db.conversations[other]);
    }
  }

  lemma {:induction false} AppendedMoves(c: Conversation, m: Message)
    requires ConversationOk(c) && m.sequence == c.next
    ensures Moves(c, Appended(c, m)) && Later(c, Appended(c, m))
  {
    AppendedLater(c, m);
    hide Later, ConversationOk;
  }

  lemma {:induction false} AdvancedMoves(c: Conversation, user: UserId, sequence: int)
    requires ConversationOk(c) && MayRead(c, user)
    ensures Moves(c, Advanced(c, user, sequence)) && Later(c, Advanced(c, user, sequence))
  {
    AdvancedLater(c, user, sequence);
    hide Later, ConversationOk;
  }

  lemma {:induction false} StoredMoves(c: Conversation, changed: Conversation, extra: set<UserId>, id: ConversationId, actor: UserId, entry: bool)
    requires Prepared(c, changed, extra)
    ensures Moves(c, Stored(id, changed, actor, entry)) && Later(c, Stored(id, changed, actor, entry))
  {
    NextRevisionOk(changed);
    var d := NextRevision(changed);
    if entry {
      AppendedLater(d, Message(actor, Generated(id, d.next), d.next, true, None));
      LaterChain(c, d, Stored(id, changed, actor, entry));
    }
    hide Later, ConversationOk, Prepared;
  }

  lemma {:induction false} ChangeMoves(db: Db, used: set<ConversationId>, change: Change)
    requires DbOk(db) && db.conversations.Keys <= used && Allowed(db, used, change)
    ensures change.Published? ==> change.changed.kind.Group?
    ensures StepOk(db, Applied(db, change), used)
  {
    hide Prepared, NewDirect, NewGroup, Advanced, Publish, Stored, Appended, ConversationOk, MembershipEvent, StepOk, Moves, Later, Starts, NextRevision;
    match change
    case Nothing => AllSame(db, db, used);
    case Opened(id, low, high) =>
      NewStarts(low, high, {});
      OneMoves(db, Applied(db, change), used, id);
    case Founded(id, owner, members) =>
      NewStarts(owner, owner, members);
      OneMoves(db, Applied(db, change), used, id);
    case Posted(id, m) =>
      AppendedMoves(db.conversations[id], m);
      OneMoves(db, Applied(db, change), used, id);
    case ReadTo(id, user, sequence) =>
      AdvancedMoves(db.conversations[id], user, sequence);
      OneMoves(db, Applied(db, change), used, id);
    case Published(id, changed, actor, entry, extra) =>
      PreparedIsGroup(db.conversations[id], changed, extra);
      PublishedAs(db, id, changed, actor, entry, extra);
      StoredMoves(db.conversations[id], changed, extra, id, actor, entry);
      OneMoves(db, Applied(db, change), used, id);
    case Dropped(id, extra) => AllSame(db, Drop(db, id, extra), used);
  }

  lemma {:induction false} AllSame(db: Db, t: Db, used: set<ConversationId>)
    requires forall id <- t.conversations :: id in db.conversations && t.conversations[id] == db.conversations[id]
    ensures StepOk(db, t, used)
  {
    hide Moves, Later, Starts;
    forall id <- t.conversations ensures Moves(db.conversations[id], t.conversations[id]) && Later(db.conversations[id], t.conversations[id]) {
      SameMoves(db.conversations[id]);
    }
  }

  lemma NewStarts(low: UserId, high: UserId, members: set<UserId>)
    ensures Starts(NewDirect(low, high)) && Starts(NewGroup(low, members))
  {
  }

  // ----- Boxes -----

  ghost predicate BoxOk(w: World, id: ConversationId, u: UserId)
    requires id in w.db.conversations && IsActive(w.db.conversations[id], u)
    requires 1 <= w.db.conversations[id].members[u].visibleFrom <= |w.db.conversations[id].log| + 1
  {
    && id in w.boxes && u in w.boxes[id]
    && w.boxes[id][u] == w.db.conversations[id].log[w.db.conversations[id].members[u].visibleFrom - 1..]
  }

  /** A current member's box holds exactly the log from the join boundary on. */
  ghost predicate BoxesOk(w: World) {
    forall id, u :: id in w.db.conversations && IsActive(w.db.conversations[id], u) ==>
      && 1 <= w.db.conversations[id].members[u].visibleFrom <= |w.db.conversations[id].log| + 1
      && BoxOk(w, id, u)
  }

  lemma {:induction false} NextBoxOk(w: World, t: Db, id: ConversationId, u: UserId)
    requires BoxesOk(w) && DbOk(w.db) && DbOk(t) && StepOk(w.db, t, w.used)
    requires id in t.conversations && IsActive(t.conversations[id], u)
    ensures 1 <= t.conversations[id].members[u].visibleFrom <= |t.conversations[id].log| + 1
    ensures NextBox(w.db, t, w.boxes, id, u) == t.conversations[id].log[t.conversations[id].members[u].visibleFrom - 1..]
  {
    hide Later, ConversationOk;
    var d := t.conversations[id];
    if id in w.db.conversations {
      var c := w.db.conversations[id];
      assert Moves(c, d);
      assert d.log == c.log + d.log[|c.log|..];
      if IsActive(c, u) {
        assert BoxOk(w, id, u);
      } else {
        NextOfLog(c);
      }
    }
  }

  lemma NextOfLog(c: Conversation)
    requires ConversationOk(c)
    ensures c.next == |c.log| + 1
  {
  }

  lemma {:induction false} StepKeepsBoxes(w: World, t: Db, used: set<ConversationId>)
    requires BoxesOk(w) && DbOk(w.db) && DbOk(t) && StepOk(w.db, t, w.used)
    ensures BoxesOk(World(t, used, NextBoxes(w.db, t, w.boxes)))
  {
    hide StepOk, NextBox, DbOk;
    var x := World(t, used, NextBoxes(w.db, t, w.boxes));
    forall id, u | id in x.db.conversations && IsActive(x.db.conversations[id], u)
      ensures 1 <= t.conversations[id].members[u].visibleFrom <= |t.conversations[id].log| + 1
      ensures BoxOk(x, id, u)
    {
      NextBoxOk(w, t, id, u);
    }
  }

  // ----- Events -----

  function EventsOf(events: seq<Event>, id: ConversationId): seq<Event> {
    if events == [] then []
    else
      var last := events[|events| - 1];
      EventsOf(events[..|events| - 1], id) + if last.conversation == id then [last] else []
  }

  /** A group's events carry revisions 1, 2, 3 and so on up to its current one, and only
      the last event of a group that is gone announces the deletion. */
  ghost predicate Chronicle(db: Db, used: set<ConversationId>, id: ConversationId) {
    var es := EventsOf(db.events, id);
    && (forall i :: 0 <= i < |es| ==> es[i].revision == i + 1 && (es[i].deleted ==> i == |es| - 1 && id !in db.conversations))
    && (id in db.conversations ==> |es| == match db.conversations[id].kind case Direct(_, _) => 0 case Group(_, revision) => revision)
    && (id !in used ==> es == [])
  }

  ghost predicate EventsOk(db: Db, used: set<ConversationId>) {
    forall id: ConversationId :: Chronicle(db, used, id)
  }

  lemma {:induction false} QuietChronicle(db: Db, used: set<ConversationId>, t: Db, later: set<ConversationId>, id: ConversationId)
    requires Chronicle(db, used, id) && used <= later && t.events == db.events
    requires id in t.conversations && id in db.conversations ==> t.conversations[id].kind == db.conversations[id].kind
    requires id in t.conversations && id !in db.conversations ==> t.conversations[id].kind.Direct? && id !in used
    requires id in db.conversations ==> id in t.conversations
    ensures Chronicle(t, later, id)
  {
  }

  lemma {:induction false} ChronicleGrows(db: Db, used: set<ConversationId>, t: Db, later: set<ConversationId>, e: Event, id: ConversationId)
    requires Chronicle(db, used, id) && used <= later && t.events == db.events + [e]
    requires e.conversation != id ==>
      (id in t.conversations <==> id in db.conversations)
      && (id in t.conversations ==> t.conversations[id].kind == db.conversations[id].kind)
    requires e.conversation == id ==>
      && id in later
      && (if id in db.conversations then db.conversations[id].kind.Group? && e.revision == db.conversations[id].kind.revision + 1
          else id !in used && e.revision == 1)
      && (e.deleted <==> id !in t.conversations)
      && (id in t.conversations ==> t.conversations[id].kind.Group? && t.conversations[id].kind.revision == e.revision)
    ensures Chronicle(t, later, id)
  {
  }

  lemma {:induction false} ChangeKeepsEvents(db: Db, used: set<ConversationId>, change: Change, later: set<ConversationId>)
    requires EventsOk(db, used) && db.conversations.Keys <= used <= later && Allowed(db, used, change)
    requires change.Opened? || change.Founded? ==> change.id in later
    ensures change.Published? ==> change.changed.kind.Group?
    ensures EventsOk(Applied(db, change), later)
  {
    hide Prepared, NewDirect, NewGroup, Advanced, Publish, Stored, Appended, Chronicle, Active;
    if change.Published? {
      PreparedIsGroup(db.conversations[change.id], change.changed, change.extra);
    }
    var t := Applied(db, change);
    if change.Founded? {
      NewLogs(change.owner, change.owner, change.members);
      NewKinds(change.owner, change.owner, change.members);
      var e := MembershipEvent(change.id, NewGroup(change.owner, change.members), false, {});
      forall id: ConversationId ensures Chronicle(t, later, id) { ChronicleGrows(db, used, t, later, e, id); }
    } else if change.Published? {
      PublishedAs(db, change.id, change.changed, change.actor, change.entry, change.extra);
      PreparedRevision(db.conversations[change.id], change.changed, change.extra, change.id, change.actor, change.entry);
      var e := MembershipEvent(change.id, NextRevision(change.changed), false, change.extra);
      forall id: ConversationId ensures Chronicle(t, later, id) { ChronicleGrows(db, used, t, later, e, id); }
    } else if change.Dropped? {
      var e := MembershipEvent(change.id, db.conversations[change.id], true, change.extra);
      forall id: ConversationId ensures Chronicle(t, later, id) { ChronicleGrows(db, used, t, later, e, id); }
    } else {
      QuietChange(db, used, change);
      forall id: ConversationId ensures Chronicle(t, later, id) { QuietChronicle(db, used, t, later, id); }
    }
  }

  lemma {:induction false} QuietChange(db: Db, used: set<ConversationId>, change: Change)
    requires Allowed(db, used, change) && db.conversations.Keys <= used
    requires change.Nothing? || change.Opened? || change.Posted? || change.ReadTo?
    ensures var t := Applied(db, change);
            && t.events == db.events
            && db.conversations.Keys <= t.conversations.Keys
            && (forall id <- t.conversations ::
                  if id in db.conversations then
                    t.conversations[id].kind == db.conversations[id].kind && Active(t.conversations[id]) == Active(db.conversations[id])
                  else t.conversations[id].kind.Direct? && id !in used)
  {
    hide Recount, Bumped, Reachable;
    if change.ReadTo? {
      AdvancedLog(db.conversations[change.id], change.user, change.sequence);
      hide Advanced;
    }
  }

  lemma NewKinds(owner: UserId, high: UserId, members: set<UserId>)
    ensures NewGroup(owner, members).kind == Group(owner, 1)
  {
  }

  lemma {:induction false} PreparedRevision(c: Conversation, changed: Conversation, extra: set<UserId>, id: ConversationId, actor: UserId, entry: bool)
    requires Prepared(c, changed, extra)
    ensures c.kind.Group? && Stored(id, changed, actor, entry).kind.Group?
    ensures Stored(id, changed, actor, entry).kind.revision == c.kind.revision + 1 == NextRevision(changed).kind.revision
    ensures Active(Stored(id, changed, actor, entry)) == Active(NextRevision(changed)) == Active(changed)
    ensures Active(c) <= Active(changed) + (extra - {0})
  {
    hide ConversationOk, Bumped;
    var d, e := NextRevision(changed), Stored(id, changed, actor, entry);
    assert d.members == changed.members && e.members == changed.members;
  }

  /** The active members of a conversation, nobody when it does not exist. */
  ghost function ActiveIn(db: Db, id: ConversationId): set<UserId> {
    if id in db.conversations then Active(db.conversations[id]) else {}
  }

  /** Either no existing conversation changes its active members, or exactly one does and
      an event goes to everyone active before or after. */
  ghost predicate Told(db: Db, t: Db) {
    || (t.events == db.events && forall id <- db.conversations :: ActiveIn(t, id) == ActiveIn(db, id))
    || (&& |t.events| == |db.events| + 1 && t.events[..|db.events|] == db.events
        && var e := t.events[|db.events|];
        && ActiveIn(db, e.conversation) + ActiveIn(t, e.conversation) <= e.recipients
        && e.authorized == (if e.deleted then ActiveIn(db, e.conversation) else ActiveIn(t, e.conversation))
        && (forall id: ConversationId :: id != e.conversation ==> ActiveIn(t, id) == ActiveIn(db, id)))
  }

  lemma {:induction false} ChangeTold(db: Db, used: set<ConversationId>, change: Change)
    requires db.conversations.Keys <= used && Allowed(db, used, change)
    ensures change.Published? ==> change.changed.kind.Group?
    ensures Told(db, Applied(db, change))
  {
    hide Prepared, NewDirect, NewGroup, Advanced, Publish, Stored, Appended, Active;
    if change.Founded? {
      NewLogs(change.owner, change.owner, change.members);
    } else if change.Published? {
      PreparedIsGroup(db.conversations[change.id], change.changed, change.extra);
      PublishedAs(db, change.id, change.changed, change.actor, change.entry, change.extra);
      PreparedRevision(db.conversations[change.id], change.changed, change.extra, change.id, change.actor, change.entry);
    } else if change.Dropped? {
    } else {
      QuietChange(db, used, change);
      hide Applied;
    }
  }

  // ----- Whole runs -----

  ghost predicate Inv(w: World) {
    && DbOk(w.db) && SentOk(w.db)
    && w.db.conversations.Keys <= w.used
    && BoxesOk(w) && EventsOk(w.db, w.used)
  }

  /** What was known earlier and is stored later was stored earlier and has only moved on. */
  ghost predicate WorldLater(w: World, x: World) {
    && w.used <= x.used
    && forall id <- x.db.conversations :: id in w.used ==>
         id in w.db.conversations && Later(w.db.conversations[id], x.db.conversations[id])
  }

  lemma {:induction false} StepKeeps(w: World, c: Command)
    requires Inv(w)
    ensures Inv(Step(w, c)) && WorldLater(w, Step(w, c)) && Told(w.db, Step(w, c).db)
  {
    hide DbOk, SentOk, BoxesOk, EventsOk, Applied, Apply, Allowed, NextBoxes, Later, Moves, Starts, Told;
    var creates := c.OpenDirect? || c.OpenGroup?;
    if creates && c.id in w.used {
      NothingHappens(w);
    } else {
      var later := if creates then w.used + {c.id} else w.used;
      var change := Classify(w.db, w.used, c);
      ChangeKeepsDb(w.db, w.used, change);
      ChangeMoves(w.db, w.used, change);
      ChangeKeepsEvents(w.db, w.used, change, later);
      ChangeTold(w.db, w.used, change);
      ChangeKeys(w.db, w.used, change);
      StepKeepsBoxes(w, Apply(w.db, c).db, later);
    }
  }

  lemma ChangeKeys(db: Db, used: set<ConversationId>, change: Change)
    requires db.conversations.Keys <= used && Allowed(db, used, change)
    ensures change.Published? ==> change.changed.kind.Group?
    ensures Applied(db, change).conversations.Keys <= used + if change.Opened? || change.Founded? then {change.id} else {}
  {
    if change.Published? {
      PreparedIsGroup(db.conversations[change.id], change.changed, change.extra);
    }
    hide NewDirect, NewGroup, Advanced, Appended, MembershipEvent, Prepared;
  }

  lemma {:induction false} NothingHappens(w: World)
    requires Inv(w)
    ensures WorldLater(w, w) && Told(w.db, w.db)
  {
    hide Later;
    forall id <- w.db.conversations ensures Later(w.db.conversations[id], w.db.conversations[id]) {
      LaterSame(w.db.conversations[id]);
    }
  }

  lemma {:induction false} WorldLaterChain(w: World, x: World, y: World)
    requires WorldLater(w, x) && WorldLater(x, y)
    ensures WorldLater(w, y)
  {
    hide Later;
    forall id <- y.db.conversations | id in w.used
      ensures id in w.db.conversations && Later(w.db.conversations[id], y.db.conversations[id])
    {
      assert id in x.db.conversations;
      LaterChain(w.db.conversations[id], x.db.conversations[id], y.db.conversations[id]);
    }
  }

  lemma {:induction false} RunKeeps(w: World, commands: seq<Command>)
    requires Inv(w)
    ensures Inv(Run(w, commands)) && WorldLater(w, Run(w, commands))
    decreases |commands|
  {
    hide Inv, WorldLater, Step, Told;
    if commands == [] {
      NothingHappens(w);
    } else {
      var x := Step(w, commands[0]);
      StepKeeps(w, commands[0]);
      RunKeeps(x, commands[1..]);
      WorldLaterChain(w, x, Run(x, commands[1..]));
    }
  }

  lemma InitialOk(directory: Directory)
    ensures Inv(Initial(directory))
  {
  }

  lemma {:induction false} TwoMoments(directory: Directory, a: seq<Command>, b: seq<Command>)
    ensures var w, x := Run(Initial(directory), a), Run(Initial(directory), a + b);
            Inv(w) && Inv(x) && WorldLater(w, x)
  {
    hide Inv, WorldLater, Step;
    InitialOk(directory);
    RunKeeps(Initial(directory), a);
    RunOfConcat(Initial(directory), a, b);
    RunKeeps(Run(Initial(directory), a), b);
  }

  // ----- The results -----

  /** A conversation that a run has reached. */
  ghost predicate Reached(directory: Directory, commands: seq<Command>, id: ConversationId) {
    id in Run(Initial(directory), commands).db.conversations
  }

  /** In every reachable state a current member's unread counter equals the number of
      others' messages after the read position. */
  lemma {:induction false} UnreadIsRecount(directory: Directory, commands: seq<Command>, id: ConversationId, user: UserId)
    requires Reached(directory, commands, id)
    requires IsActive(Run(Initial(directory), commands).db.conversations[id], user)
    ensures var c := Run(Initial(directory), commands).db.conversations[id];
            var r := Reading(c, user);
            && r.unread == |(set m <- c.log | m.sender != user && m.sequence > r.lastRead)|
            && c.members[user].visibleFrom - 1 <= r.lastRead <= |c.log|
  {
    InitialOk(directory);
    RunKeeps(Initial(directory), commands);
    var c := Run(Initial(directory), commands).db.conversations[id];
    assert ConversationOk(c);
    hide Run, SentOk, BoxesOk, EventsOk, KindOk;
    assert CursorOk(c, user);
    var r := Reading(c, user);
    RecountCounts(c.log, user, r.lastRead);
    assert Counted(c.log, user, r.lastRead) == (set m <- c.log | m.sender != user && m.sequence > r.lastRead);
  }

  /** Between any two moments of a run the log of a conversation only grows at its end, and
      nobody's read position moves back, not even over leaving and rejoining. */
  lemma {:induction false} ReadingNeverMovesBack(directory: Directory, a: seq<Command>, b: seq<Command>, id: ConversationId, user: UserId)
    requires Reached(directory, a, id) && Reached(directory, a + b, id)
    requires user in Run(Initial(directory), a).db.conversations[id].members
    ensures var c, d := Run(Initial(directory), a).db.conversations[id], Run(Initial(directory), a + b).db.conversations[id];
            && c.log <= d.log
            && user in d.members && Reading(c, user).lastRead <= Reading(d, user).lastRead
  {
    hide Run, DbOk, SentOk, BoxesOk, EventsOk, Reading;
    TwoMoments(directory, a, b);
  }

  /** What the listings may show a user is exactly what arrived since the latest join and
      has not expired; whoever is not a member sees nothing. */
  lemma {:induction false} BoundaryAdmitsTheBox(directory: Directory, commands: seq<Command>, id: ConversationId, user: UserId, now: int)
    requires Reached(directory, commands, id)
    ensures var w := Run(Initial(directory), commands);
            var c := w.db.conversations[id];
            if IsActive(c, user)
            then id in w.boxes && user in w.boxes[id] && Visible(c, user, now) == set m <- w.boxes[id][user] | Unexpired(m, now)
            else Visible(c, user, now) == {}
  {
    InitialOk(directory);
    RunKeeps(Initial(directory), commands);
    var w := Run(Initial(directory), commands);
    var c := w.db.conversations[id];
    assert ConversationOk(c);
    hide Run, SentOk, EventsOk, KindOk, CursorsOk;
    if IsActive(c, user) {
      assert BoxOk(w, id, user);
      SuffixFrom(c.log, c.members[user].visibleFrom);
    }
  }

  lemma {:induction false} SuffixFrom(log: seq<Message>, from: int)
    requires forall i :: 0 <= i < |log| ==> log[i].sequence == i + 1
    requires 1 <= from <= |log| + 1
    ensures forall m :: m in log[from - 1..] <==> m in log && m.sequence >= from
  {
    forall m | m in log && m.sequence >= from ensures m in log[from - 1..] {
      var i :| 0 <= i < |log| && log[i] == m;
      assert log[from - 1..][i - (from - 1)] == m;
    }
  }

  /** A group that still exists has exactly one active owner, the one its row names, at
      most sixteen active members, and a log numbered 1, 2, 3 and so on. */
  lemma {:induction false} GroupsAreOwned(directory: Directory, commands: seq<Command>, id: ConversationId, user: UserId)
    requires Reached(directory, commands, id)
    requires Run(Initial(directory), commands).db.conversations[id].kind.Group?
    ensures var c := Run(Initial(directory), commands).db.conversations[id];
            && (IsActive(c, user) && c.members[user].role == Owner <==> user == c.kind.owner)
            && |Active(c)| <= 16
            && c.next == |c.log| + 1 && (forall i :: 0 <= i < |c.log| ==> c.log[i].sequence == i + 1)
  {
    InitialOk(directory);
    RunKeeps(Initial(directory), commands);
    assert ConversationOk(Run(Initial(directory), commands).db.conversations[id]);
    hide Run, SentOk, BoxesOk, EventsOk, CursorsOk;
  }

  /** The events of a group carry revisions 1, 2, 3 and so on; they end at the group's
      current revision, or with the one event that announces its deletion. */
  lemma {:induction false} RevisionsAreConsecutive(directory: Directory, commands: seq<Command>, id: ConversationId)
    ensures var w := Run(Initial(directory), commands);
            var es := EventsOf(w.db.events, id);
            && (forall i :: 0 <= i < |es| ==> es[i].revision == i + 1)
            && (forall i :: 0 <= i < |es| && es[i].deleted ==> i == |es| - 1 && id !in w.db.conversations)
            && (id in w.db.conversations && w.db.conversations[id].kind.Group? ==> w.db.conversations[id].kind.revision == |es|)
  {
    hide Run, DbOk, SentOk, BoxesOk, EventsOf;
    InitialOk(directory);
    RunKeeps(Initial(directory), commands);
    assert Chronicle(Run(Initial(directory), commands).db, Run(Initial(directory), commands).used, id);
  }

  /** In every reachable state the next command either leaves all memberships alone or
      changes one and tells everyone active before or after. */
  lemma {:induction false} EveryoneIsTold(directory: Directory, commands: seq<Command>, c: Command)
    ensures Told(Run(Initial(directory), commands).db, Step(Run(Initial(directory), commands), c).db)
  {
    hide Run, Inv, Told, Step;
    InitialOk(directory);
    RunKeeps(Initial(directory), commands);
    StepKeeps(Run(Initial(directory), commands), c);
  }

  /** No two stored messages share sender and client identifier, in any conversations. */
  lemma {:induction false} OneMessagePerKey(directory: Directory, commands: seq<Command>, id: ConversationId, m: Message,
                                            other: ConversationId, n: Message)
    requires Reached(directory, commands, id) && m in Run(Initial(directory), commands).db.conversations[id].log
    requires Reached(directory, commands, other) && n in Run(Initial(directory), commands).db.conversations[other].log
    requires m.sender == n.sender && m.key == n.key
    ensures id == other && m == n
  {
    InitialOk(directory);
    RunKeeps(Initial(directory), commands);
    var db := Run(Initial(directory), commands).db;
    hide Run, DbOk, BoxesOk, EventsOk;
    assert LogSent(db, id) && LogSent(db, other);
    assert EntryOk(db, id, m) && EntryOk(db, other, n);
  }

  /** After an accepted send, whatever happens in between, sending again under the same
      client identifier never stores a second message: while the conversation, the
      membership and the message last it returns the first one and changes nothing. */
  lemma {:induction false} RetryReturnsTheFirst(directory: Directory, a: seq<Command>, b: seq<Command>, id: ConversationId, sender: UserId,
                                                client: ClientId, m: Message, mentions: set<UserId>, now: int, retention: Option<int>)
    requires Reached(directory, a, id) && Reached(directory, a + b, id)
    requires m in Run(Initial(directory), a).db.conversations[id].log && m.sender == sender && m.key == Chosen(client)
    requires IsActive(Run(Initial(directory), a + b).db.conversations[id], sender)
    ensures var db := Run(Initial(directory), a + b).db;
            Send(db, id, sender, client, mentions, now, retention) ==
              Outcome(db, if Unexpired(m, now) then Sent(m, false, Active(db.conversations[id]) - {sender}) else MessageExpired)
  {
    TwoMoments(directory, a, b);
    var w, x := Run(Initial(directory), a), Run(Initial(directory), a + b);
    hide Run, DbOk, BoxesOk, EventsOk, Active;
    assert Later(w.db.conversations[id], x.db.conversations[id]);
    assert m in x.db.conversations[id].log;
    assert LogSent(x.db, id);
    assert EntryOk(x.db, id, m);
  }

  /** As long as a group shows the same revision, its active members are the same. */
  lemma {:induction false} RevisionFixesMembers(directory: Directory, a: seq<Command>, b: seq<Command>, id: ConversationId)
    requires Reached(directory, a, id) && Reached(directory, a + b, id)
    requires var c, d := Run(Initial(directory), a).db.conversations[id], Run(Initial(directory), a + b).db.conversations[id];
             c.kind.Group? && d.kind.Group? && c.kind.revision == d.kind.revision
    ensures Active(Run(Initial(directory), a).db.conversations[id]) == Active(Run(Initial(directory), a + b).db.conversations[id])
  {
    hide Run, DbOk, SentOk, BoxesOk, EventsOk, Reading, Active;
    TwoMoments(directory, a, b);
  }
}
