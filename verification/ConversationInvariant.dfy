/** What one conversation always satisfies, and how every transaction keeps it. */
module ConversationInvariant {
  import opened Options
  import opened Conversations

  /** Sequences are exactly 1 up to the next one. */
  ghost predicate LogOk(c: Conversation) {
    && c.next == |c.log| + 1
    && forall i :: 0 <= i < |c.log| ==> c.log[i].sequence == i + 1
  }

  ghost predicate BoundariesOk(c: Conversation) {
    forall u <- c.members :: 1 <= c.members[u].visibleFrom <= c.next
  }

  /** A member without a cursor row has read nothing since the join. */
  ghost function Reading(c: Conversation, user: UserId): Cursor
    requires user in c.members
  {
    if user in c.cursors then c.cursors[user] else Cursor(c.members[user].visibleFrom - 1, 0)
  }

  ghost predicate CursorOk(c: Conversation, user: UserId)
    requires user in c.members
  {
    var r := Reading(c, user);
    && r.lastRead <= c.next - 1
    && (IsActive(c, user) ==> c.members[user].visibleFrom - 1 <= r.lastRead && r.unread == Recount(c.log, user, 1, r.lastRead))
  }

  ghost predicate CursorsOk(c: Conversation) {
    && c.cursors.Keys <= c.members.Keys
    && forall u <- c.members :: CursorOk(c, u)
  }

  /** One active owner, and it is the one the conversation row names. */
  ghost predicate OwnerOk(c: Conversation)
    requires c.kind.Group?
  {
    && IsActive(c, c.kind.owner)
    && forall u <- c.members :: c.members[u].active ==> (c.members[u].role == Owner <==> u == c.kind.owner)
  }

  ghost predicate KindOk(c: Conversation) {
    match c.kind
    case Direct(low, high) =>
      && low != high
      && c.members.Keys == {low, high}
      && forall u <- c.members :: c.members[u].active && c.members[u].visibleFrom == 1
    case Group(owner, revision) =>
      && 1 <= revision
      && 0 !in c.members
      && OwnerOk(c)
      && |Active(c)| <= MAX_GROUP_MEMBERS
  }

  ghost predicate ConversationOk(c: Conversation) {
    LogOk(c) && BoundariesOk(c) && CursorsOk(c) && KindOk(c)
  }

  // ----- Counting -----

  lemma {:induction false} RecountNone(log: seq<Message>, user: UserId, from: int, after: int)
    requires forall m <- log :: m.sequence <= after
    ensures Recount(log, user, from, after) == 0
    decreases |log|
  {
    if log != [] {
      RecountNone(log[..|log| - 1], user, from, after);
    }
  }

  /** A boundary before the read position makes no difference. */
  lemma {:induction false} RecountBoundary(log: seq<Message>, user: UserId, from: int, after: int)
    requires from - 1 <= after && 0 <= after
    ensures Recount(log, user, from, after) == Recount(log, user, 1, after)
    decreases |log|
  {
    if log != [] {
      RecountBoundary(log[..|log| - 1], user, from, after);
    }
  }

  ghost function Counted(log: seq<Message>, user: UserId, after: int): set<Message> {
    set m <- log | m.sender != user && m.sequence > after
  }

  lemma {:induction false} CountedAppend(log: seq<Message>, last: Message, user: UserId, after: int)
    ensures Counted(log + [last], user, after) ==
            Counted(log, user, after) + if last.sender != user && last.sequence > after then {last} else {}
  {
    assert forall m :: m in log + [last] <==> m in log || m == last;
  }

  /** The recursive count is the number of the messages it should count. */
  lemma {:induction false} RecountCounts(log: seq<Message>, user: UserId, after: int)
    requires forall i, j :: 0 <= i < j < |log| ==> log[i].sequence < log[j].sequence
    requires forall m <- log :: 1 <= m.sequence
    ensures Recount(log, user, 1, after) == |Counted(log, user, after)|
    decreases |log|
  {
    if log == [] {
      assert Counted(log, user, after) == {};
    } else {
      var rest, last := log[..|log| - 1], log[|log| - 1];
      RecountCounts(rest, user, after);
      assert log == rest + [last];
      CountedAppend(rest, last, user, after);
      assert last !in Counted(rest, user, after);
      hide Counted;
    }
  }

  lemma {:induction false} HighestInLog(log: seq<Message>, from: int)
    requires forall i :: 0 <= i < |log| ==> log[i].sequence == i + 1
    requires 1 <= from
    ensures HighestFrom(log, from) == Max(from - 1, |log|)
    decreases |log|
  {
    if log != [] {
      HighestInLog(log[..|log| - 1], from);
    }
  }

  // ----- Appending a message -----

  lemma {:induction false} AppendedKeeps(c: Conversation, m: Message)
    requires ConversationOk(c) && m.sequence == c.next
    ensures ConversationOk(Appended(c, m))
  {
    var d := Appended(c, m);
    assert Active(d) == Active(c);
    assert d.cursors.Keys <= d.members.Keys;
    hide CursorOk, LogOk;
  }

  // ----- Reading -----

  lemma {:induction false} ReadToKnown(c: Conversation, user: UserId, sequence: int)
    requires ConversationOk(c) && MayRead(c, user)
    ensures user in c.members && IsActive(c, user) && Boundary(c, user) == c.members[user].visibleFrom
    ensures var r := Reachable(c, Boundary(c, user), sequence);
            Boundary(c, user) - 1 <= r <= c.next - 1
            && r == Max(Boundary(c, user) - 1, Min(sequence, c.next - 1))
  {
    HighestInLog(c.log, c.members[user].visibleFrom);
    hide CursorsOk;
  }

  lemma {:induction false} AdvancedCursor(c: Conversation, user: UserId, sequence: int)
    requires ConversationOk(c) && MayRead(c, user)
    ensures var d := Advanced(c, user, sequence);
            && user in c.members && CursorOk(d, user)
            && Reading(d, user).lastRead == Max(Reading(c, user).lastRead, Max(c.members[user].visibleFrom - 1, Min(sequence, c.next - 1)))
  {
    ReadToKnown(c, user, sequence);
    hide Reachable, KindOk, LogOk;
    assert CursorOk(c, user);
    var from := Boundary(c, user);
    RecountBoundary(c.log, user, from, Reachable(c, from, sequence));
  }

  lemma {:induction false} AdvancedKeeps(c: Conversation, user: UserId, sequence: int)
    requires ConversationOk(c) && MayRead(c, user)
    ensures ConversationOk(Advanced(c, user, sequence))
  {
    AdvancedCursor(c, user, sequence);
    var d := Advanced(c, user, sequence);
    forall u <- d.members ensures CursorOk(d, u) {
      if u != user { assert CursorOk(c, u); }
    }
    hide CursorOk, Reachable, LogOk;
    assert Active(d) == Active(c);
  }

  // ----- New conversations -----

  lemma {:induction false} NewDirectOk(low: UserId, high: UserId)
    requires low != high
    ensures ConversationOk(NewDirect(low, high))
  {
  }

  lemma {:induction false} NewGroupOk(owner: UserId, members: set<UserId>)
    requires owner in members && 0 !in members && |members| <= MAX_GROUP_MEMBERS
    ensures ConversationOk(NewGroup(owner, members)) && Active(NewGroup(owner, members)) == members
  {
    assert Active(NewGroup(owner, members)) == members;
  }

  // ----- Changing a group -----

  /** How a group may change under one revision: the log stays, read positions do not move
      back, who stays keeps the join boundary, who joins gets the next sequence as
      boundary, and who leaves is among the extra recipients. */
  ghost predicate Prepared(c: Conversation, changed: Conversation, extra: set<UserId>) {
    && c.kind.Group? && changed.kind.Group? && changed.kind.revision == c.kind.revision
    && changed.log == c.log && changed.next == c.next
    && ConversationOk(changed)
    && (forall u <- c.members :: u in changed.members && Reading(c, u).lastRead <= Reading(changed, u).lastRead)
    && (forall u <- changed.members :: changed.members[u].active ==>
          changed.members[u].visibleFrom == if IsActive(c, u) then c.members[u].visibleFrom else c.next)
    && Active(c) <= Active(changed) + (extra - {0})
  }

  lemma {:induction false} JoinedCursors(c: Conversation, member: UserId)
    requires LogOk(c) && CursorsOk(c) && BoundariesOk(c)
    ensures CursorsOk(Joined(c, member)) && BoundariesOk(Joined(c, member))
    ensures member in c.members ==> Reading(c, member).lastRead <= c.next - 1
  {
    var d := Joined(c, member);
    RecountNone(c.log, member, 1, c.next - 1);
    forall u <- d.members ensures CursorOk(d, u) {
      if u != member { assert CursorOk(c, u); }
    }
    if member in c.members { assert CursorOk(c, member); }
  }

  lemma {:induction false} JoinedRoster(c: Conversation, member: UserId)
    requires KindOk(c) && c.kind.Group? && !IsActive(c, member) && member != 0
    requires |Active(c)| < MAX_GROUP_MEMBERS
    ensures KindOk(Joined(c, member)) && Active(Joined(c, member)) == Active(c) + {member}
  {
    var d := Joined(c, member);
    assert Active(d) == Active(c) + {member};
  }

  lemma {:induction false} JoinedPrepared(c: Conversation, member: UserId)
    requires ConversationOk(c) && c.kind.Group? && !IsActive(c, member) && member != 0
    requires |Active(c)| < MAX_GROUP_MEMBERS
    ensures Prepared(c, Joined(c, member), {member})
  {
    JoinedCursors(c, member);
    JoinedRoster(c, member);
    hide CursorsOk, KindOk, BoundariesOk, Active, LogOk;
  }

  /** Changing roles or ending memberships touches neither log nor cursors. */
  lemma {:induction false} RosterChange(c: Conversation, d: Conversation)
    requires LogOk(c) && BoundariesOk(c) && CursorsOk(c)
    requires d.log == c.log && d.next == c.next && d.cursors == c.cursors && d.members.Keys == c.members.Keys
    requires forall u <- d.members :: d.members[u].visibleFrom == c.members[u].visibleFrom && (d.members[u].active ==> c.members[u].active)
    ensures LogOk(d) && BoundariesOk(d) && CursorsOk(d)
    ensures forall u <- c.members :: Reading(c, u) == Reading(d, u)
  {
    forall u <- d.members ensures CursorOk(d, u) { assert CursorOk(c, u); }
  }

  lemma {:induction false} LeftRoster(c: Conversation, member: UserId)
    requires KindOk(c) && c.kind.Group? && IsActive(c, member) && member != c.kind.owner
    ensures KindOk(Left(c, member)) && Active(Left(c, member)) == Active(c) - {member}
  {
    var d := Left(c, member);
    assert Active(d) == Active(c) - {member};
    assert |Active(d)| <= |Active(c)|;
    hide Active;
  }

  lemma {:induction false} LeftPrepared(c: Conversation, member: UserId)
    requires ConversationOk(c) && c.kind.Group? && IsActive(c, member) && member != c.kind.owner
    ensures Prepared(c, Left(c, member), {member})
  {
    var d := Left(c, member);
    RosterChange(c, d);
    LeftRoster(c, member);
    hide CursorsOk, LogOk, BoundariesOk, Reading, KindOk, Active;
  }

  lemma {:induction false} WithRolePrepared(c: Conversation, member: UserId, role: Role)
    requires ConversationOk(c) && c.kind.Group? && IsActive(c, member) && member != c.kind.owner && role != Owner
    ensures Prepared(c, WithRole(c, member, role), {})
  {
    var d := WithRole(c, member, role);
    RosterChange(c, d);
    hide CursorsOk, LogOk, BoundariesOk, Reading;
    assert Active(c) == Active(d);
  }

  lemma {:induction false} SamePrepared(c: Conversation)
    requires ConversationOk(c) && c.kind.Group?
    ensures Prepared(c, c, {})
  {
    hide ConversationOk;
  }

  lemma {:induction false} HandedPrepared(c: Conversation, caller: UserId, member: UserId)
    requires ConversationOk(c) && c.kind.Group? && IsActive(c, caller) && IsActive(c, member)
    requires caller != member && c.members[caller].role == Owner
    ensures Prepared(c, Handed(c, caller, member), {})
  {
    var d := Handed(c, caller, member);
    RosterChange(c, d);
    hide CursorsOk, LogOk, BoundariesOk, Reading;
    assert caller == c.kind.owner;
    assert Active(c) == Active(d);
  }

  // ----- Change over time -----

  /** A conversation seen later: the log only grows, no read position moves back, and as
      long as the revision stays so do the active members and the owner. */
  ghost predicate Later(c: Conversation, d: Conversation) {
    && c.log <= d.log
    && c.kind.Group? == d.kind.Group?
    && (forall u <- c.members :: u in d.members && Reading(c, u).lastRead <= Reading(d, u).lastRead)
    && (c.kind.Group? ==> c.kind.revision <= d.kind.revision
                          && (c.kind.revision == d.kind.revision ==> Active(c) == Active(d) && c.kind.owner == d.kind.owner))
    && (c.kind.Direct? ==> Active(c) == Active(d))
  }

  lemma LaterSame(c: Conversation)
    ensures Later(c, c)
  {
  }

  lemma {:induction false} LaterChain(c: Conversation, d: Conversation, e: Conversation)
    requires Later(c, d) && Later(d, e)
    ensures Later(c, e)
  {
    hide Reading, Active;
  }

  lemma {:induction false} AppendedLater(c: Conversation, m: Message)
    requires ConversationOk(c) && m.sequence == c.next
    ensures Later(c, Appended(c, m))
  {
    var d := Appended(c, m);
    assert Active(c) == Active(d);
    hide Reading, ConversationOk;
  }

  lemma {:induction false} AdvancedLater(c: Conversation, user: UserId, sequence: int)
    requires ConversationOk(c) && MayRead(c, user)
    ensures Later(c, Advanced(c, user, sequence))
  {
    var d := Advanced(c, user, sequence);
    AdvancedCursor(c, user, sequence);
    hide ConversationOk, Reachable, Recount;
    assert Active(c) == Active(d);
  }
}
