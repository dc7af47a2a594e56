/** Catching up after a reconnect: one page of a growing message log, and the client that
    follows pages until there are no more. */
module Reconciliation {
  import opened Options
  import opened Conversations

  const PAGE_LIMIT := 100

  /** Sequences 1, 2, 3 and so on, as every reachable log has them. */
  predicate Dense(log: seq<Message>) {
    forall i :: 0 <= i < |log| ==> log[i].sequence == i + 1
  }

  predicate Wanted(m: Message, low: int, now: int) {
    m.sequence > low && Unexpired(m, now)
  }

  /** The rows after a position that have not expired, in order. */
  function Matching(log: seq<Message>, low: int, now: int): seq<Message> {
    if log == [] then []
    else
      var m := log[|log| - 1];
      Matching(log[..|log| - 1], low, now) + if Wanted(m, low, now) then [m] else []
  }

  datatype Page = Page(messages: seq<Message>, nextAfter: int, hasMore: bool, highWatermark: int)

  function PageOf(log: seq<Message>, from: int, after: int, limit: nat, now: int): Page {
    var rows := Matching(log, Max(after, from - 1), now);
    var messages := if |rows| > limit then rows[..limit] else rows;
    Page(messages, if messages == [] then after else messages[|messages| - 1].sequence, |rows| > limit, |log|)
  }

  datatype Reply = Refused | Answered(page: Page)

  /** The rows of the query: one row for the conversation even when no message matches. */
  function Joined(c: Conversation, user: UserId, after: int, limit: nat, now: int): seq<Option<Message>>
    requires IsActive(c, user)
  {
    var found := Matching(c.log, Max(after, c.members[user].visibleFrom - 1), now);
    var rows := if |found| > limit + 1 then found[..limit + 1] else found;
    if rows == [] then [None] else seq(|rows|, i requires 0 <= i < |rows| => Some(rows[i]))
  }

  method Reconcile(db: Db, user: UserId, id: ConversationId, after: int, limit: int, now: int) returns (reply: Reply)
    ensures reply.Answered? <==> user != 0 && id != 0 && after >= 0 && limit >= 1
                                 && id in db.conversations && IsActive(db.conversations[id], user)
    ensures reply.Answered? ==>
      var c := db.conversations[id];
      reply.page == PageOf(c.log, c.members[user].visibleFrom, after, Min(limit, 100), now).(highWatermark := c.next - 1)
  {
    hide Matching, Joined, Present;
    if user == 0 || id == 0 || after < 0 || limit < 1 { return Refused; }
    var size := limit;
    if size > PAGE_LIMIT {
      size := PAGE_LIMIT;
    }
    var rows: seq<Option<Message>> := [];
    if id in db.conversations && IsActive(db.conversations[id], user) {
      PresentRows(db.conversations[id], user, after, size, now);
      rows := Joined(db.conversations[id], user, after, size, now);
    }
    if |rows| == 0 { return Refused; }
    var messages := Collect(rows);
    var highWatermark := db.conversations[id].next - 1;
    var nextAfter, hasMore := after, false;
    if |messages| > size {
      hasMore := true;
      messages := messages[..size];
    }
    if |messages| > 0 {
      nextAfter := messages[|messages| - 1].sequence;
    }
    return Answered(Page(messages, nextAfter, hasMore, highWatermark));
  }

  /** The messages of the result rows; a row without a message stands for the conversation. */
  method Collect(rows: seq<Option<Message>>) returns (messages: seq<Message>)
    ensures messages == Present(rows)
  {
    messages := [];
    for i := 0 to |rows|
      invariant messages == Present(rows[..i])
    {
      assert rows[..i + 1][..i] == rows[..i];
      if rows[i].None? { continue; }
      messages := messages + [rows[i].value];
    }
    assert rows[..|rows|] == rows;
  }

  function Present(rows: seq<Option<Message>>): seq<Message> {
    if rows == [] then []
    else Present(rows[..|rows| - 1]) + if rows[|rows| - 1].Some? then [rows[|rows| - 1].value] else []
  }

  lemma {:induction false} PresentAll(rows: seq<Message>, all: seq<Option<Message>>)
    requires |all| == |rows| && forall i :: 0 <= i < |rows| ==> all[i] == Some(rows[i])
    ensures Present(all) == rows
    decreases |rows|
  {
    if rows != [] {
      PresentAll(rows[..|rows| - 1], all[..|all| - 1]);
    }
  }

  lemma {:induction false} PresentRows(c: Conversation, user: UserId, after: int, limit: nat, now: int)
    requires IsActive(c, user)
    ensures var found := Matching(c.log, Max(after, c.members[user].visibleFrom - 1), now);
            && Joined(c, user, after, limit, now) != []
            && Present(Joined(c, user, after, limit, now)) == if |found| > limit + 1 then found[..limit + 1] else found
  {
    var found := Matching(c.log, Max(after, c.members[user].visibleFrom - 1), now);
    var rows := if |found| > limit + 1 then found[..limit + 1] else found;
    if rows == [] {
      var none: seq<Option<Message>> := [None];
      assert none[..0] == [];
      assert Present(none) == [];
    } else {
      PresentAll(rows, Joined(c, user, after, limit, now));
    }
  }

  // ----- One page -----

  predicate Increasing(q: seq<Message>) {
    forall i, j :: 0 <= i < j < |q| ==> q[i].sequence < q[j].sequence
  }

  lemma {:induction false} MatchingIs(log: seq<Message>, low: int, now: int)
    requires Dense(log)
    ensures Increasing(Matching(log, low, now))
    ensures forall m :: m in Matching(log, low, now) <==> m in log && Wanted(m, low, now)
    ensures forall m <- Matching(log, low, now) :: m.sequence <= |log|
    decreases |log|
  {
    if log != [] {
      var rest, last := log[..|log| - 1], log[|log| - 1];
      MatchingIs(rest, low, now);
      assert log == rest + [last];
      assert forall m :: m in log <==> m in rest || m == last;
      hide Wanted;
    }
  }

  /** The start of an increasing list holds everything up to its own last element. */
  lemma {:induction false} StartHolds(rows: seq<Message>, limit: nat)
    requires Increasing(rows) && 1 <= limit
    ensures var taken := if |rows| > limit then rows[..limit] else rows;
            && Increasing(taken) && |taken| <= limit && (rows == [] <==> taken == [])
            && (forall m <- taken :: m in rows)
            && (taken != [] ==> taken[|taken| - 1] in rows)
            && (taken != [] ==> forall m <- taken :: m.sequence <= taken[|taken| - 1].sequence)
            && (taken != [] ==> forall m <- rows :: m.sequence <= taken[|taken| - 1].sequence ==> m in taken)
  {
    var taken := if |rows| > limit then rows[..limit] else rows;
    if taken != [] {
      forall m <- rows | m.sequence <= taken[|taken| - 1].sequence ensures m in taken {
        var i :| 0 <= i < |rows| && rows[i] == m;
        assert rows[|taken| - 1] == taken[|taken| - 1];
        assert i < |taken| && taken[i] == m;
      }
    }
  }

  /** A page is strictly increasing and lies after the position it was asked for. */
  ghost predicate Sound(p: Page, log: seq<Message>, from: int, after: int, limit: nat) {
    && Increasing(p.messages) && |p.messages| <= limit
    && (forall m <- p.messages :: m in log && m.sequence >= from && after < m.sequence <= p.nextAfter)
    && after <= p.nextAfter && (p.nextAfter <= |log| || p.nextAfter == after)
    && (p.hasMore ==> |p.messages| == limit && after < p.nextAfter <= |log|)
    && (p.messages != [] ==> p.nextAfter == p.messages[|p.messages| - 1].sequence)
  }

  /** It holds everything wanted up to its last message, and everything wanted when it is
      the last page. */
  ghost predicate Full(p: Page, log: seq<Message>, from: int, after: int, now: int) {
    forall m <- log :: m.sequence >= from && m.sequence > after && Unexpired(m, now) && (m.sequence <= p.nextAfter || !p.hasMore)
                       ==> m in p.messages
  }

  lemma {:induction false} TakenIsSound(p: Page, log: seq<Message>, rows: seq<Message>, from: int, after: int, limit: nat)
    requires 1 <= limit && |p.messages| <= limit && p.hasMore == (|rows| > limit) && (p.hasMore ==> |p.messages| == limit)
    requires Increasing(p.messages) && forall m <- p.messages :: m in rows
    requires p.messages != [] ==> forall m <- p.messages :: m.sequence <= p.messages[|p.messages| - 1].sequence
    requires forall m <- rows :: m in log && m.sequence >= from && after < m.sequence <= |log|
    requires p.nextAfter == if p.messages == [] then after else p.messages[|p.messages| - 1].sequence
    ensures Sound(p, log, from, after, limit)
  {
    hide Increasing;
    if p.messages != [] {
      assert p.messages[|p.messages| - 1] in rows;
    }
  }

  lemma {:induction false} RowsAfter(log: seq<Message>, from: int, after: int, now: int)
    requires Dense(log) && 0 <= after
    ensures var rows := Matching(log, Max(after, from - 1), now);
            && Increasing(rows)
            && forall m <- rows :: m in log && m.sequence >= from && after < m.sequence <= |log|
  {
    var low := Max(after, from - 1);
    MatchingIs(log, low, now);
    hide Matching, Dense, Increasing, Unexpired;
  }

  lemma {:induction false} PageIsUnexpired(log: seq<Message>, from: int, after: int, limit: nat, now: int)
    requires Dense(log)
    ensures forall m <- PageOf(log, from, after, limit, now).messages :: Unexpired(m, now)
  {
    var low := Max(after, from - 1);
    MatchingIs(log, low, now);
    var rows := Matching(log, low, now);
    hide Matching, Dense, Increasing, Unexpired;
    forall m <- PageOf(log, from, after, limit, now).messages ensures m in rows {}
  }

  lemma {:induction false} PageIsSound(log: seq<Message>, from: int, after: int, limit: nat, now: int)
    requires Dense(log) && 1 <= limit && 0 <= after
    ensures Sound(PageOf(log, from, after, limit, now), log, from, after, limit)
    ensures forall m <- PageOf(log, from, after, limit, now).messages :: Unexpired(m, now)
  {
    hide Matching, Dense, Increasing, Sound, Max, Unexpired;
    PageIsUnexpired(log, from, after, limit, now);
    RowsAfter(log, from, after, now);
    var rows := Matching(log, Max(after, from - 1), now);
    StartHolds(rows, limit);
    TakenIsSound(PageOf(log, from, after, limit, now), log, rows, from, after, limit);
  }

  /** The watermark is the sequence of the newest message, visible or not. */
  lemma {:induction false} WatermarkIsLast(log: seq<Message>, from: int, after: int, limit: nat, now: int)
    requires Dense(log)
    ensures PageOf(log, from, after, limit, now).highWatermark == if log == [] then 0 else log[|log| - 1].sequence
  {
    hide Matching;
    assert log != [] ==> log[|log| - 1].sequence == |log|;
  }

  lemma {:induction false} PageIsFull(log: seq<Message>, from: int, after: int, limit: nat, now: int)
    requires Dense(log) && 1 <= limit && 0 <= after
    ensures Full(PageOf(log, from, after, limit, now), log, from, after, now)
  {
    var low := Max(after, from - 1);
    var rows := Matching(log, low, now);
    MatchingIs(log, low, now);
    StartHolds(rows, limit);
    var p := PageOf(log, from, after, limit, now);
    hide Matching, Dense, Increasing;
    forall m <- log | m.sequence >= from && m.sequence > after && Unexpired(m, now) && (m.sequence <= p.nextAfter || !p.hasMore)
      ensures m in p.messages
    {
      assert Wanted(m, low, now);
      assert m in rows;
    }
  }

  // ----- Following the pages -----

  /** The log and the clock when a page is read. */
  datatype Moment = Moment(log: seq<Message>, now: int)

  /** Between pages messages may be appended and time may pass; the reader stays a member. */
  ghost predicate Growing(moments: seq<Moment>) {
    && (forall k :: 0 <= k < |moments| ==> Dense(moments[k].log))
    && forall k, l :: 0 <= k <= l < |moments| ==> moments[k].log <= moments[l].log && moments[k].now <= moments[l].now
  }

  datatype Traversal = Traversal(messages: seq<Message>, after: int, done: bool, pages: nat)

  /** Ask for a page at each moment, each after the last message of the previous one, until
      a page says there are no more. */
  function Follow(moments: seq<Moment>, from: int, after: int, limit: nat): Traversal
    decreases |moments|
  {
    if moments == [] then Traversal([], after, false, 0)
    else
      var p := PageOf(moments[0].log, from, after, limit, moments[0].now);
      if !p.hasMore then Traversal(p.messages, p.nextAfter, true, 1)
      else
        var rest := Follow(moments[1..], from, p.nextAfter, limit);
        Traversal(p.messages + rest.messages, rest.after, rest.done, rest.pages + 1)
  }

  function Prepend(messages: seq<Message>, pages: nat, rest: Traversal): Traversal {
    Traversal(messages + rest.messages, rest.after, rest.done, pages + rest.pages)
  }

  lemma FollowStep(moments: seq<Moment>, k: nat, from: int, after: int, limit: nat, messages: seq<Message>)
    requires k < |moments|
    ensures var p := PageOf(moments[k].log, from, after, limit, moments[k].now);
            Prepend(messages, k, Follow(moments[k..], from, after, limit)) ==
              if p.hasMore then Prepend(messages + p.messages, k + 1, Follow(moments[k + 1..], from, p.nextAfter, limit))
              else Traversal(messages + p.messages, p.nextAfter, true, k + 1)
  {
    hide PageOf;
    var p := PageOf(moments[k].log, from, after, limit, moments[k].now);
    assert moments[k..][0] == moments[k] && moments[k..][1..] == moments[k + 1..];
    var rest := Follow(moments[k + 1..], from, p.nextAfter, limit);
    assert messages + (p.messages + rest.messages) == (messages + p.messages) + rest.messages;
  }

  lemma FollowStart(moments: seq<Moment>, from: int, after: int, limit: nat)
    ensures Prepend([], 0, Follow(moments[0..], from, after, limit)) == Follow(moments, from, after, limit)
    ensures forall messages :: Prepend(messages, |moments|, Follow([], from, after, limit)) == Traversal(messages, after, false, |moments|)
  {
    assert moments[0..] == moments;
    hide PageOf;
  }

  /** The client's loop over answers. */
  method FollowPages(moments: seq<Moment>, from: int, after: int, limit: nat) returns (t: Traversal)
    ensures t == Follow(moments, from, after, limit)
  {
    hide Follow, PageOf, Prepend;
    var messages, cursor, k := [], after, 0;
    FollowStart(moments, from, after, limit);
    while k < |moments|
      invariant 0 <= k <= |moments|
      invariant Prepend(messages, k, Follow(moments[k..], from, cursor, limit)) == Follow(moments, from, after, limit)
    {
      var p := PageOf(moments[k].log, from, cursor, limit, moments[k].now);
      FollowStep(moments, k, from, cursor, limit, messages);
      messages := messages + p.messages;
      cursor := p.nextAfter;
      k := k + 1;
      if !p.hasMore { return Traversal(messages, cursor, true, k); }
    }
    FollowStart(moments, from, cursor, limit);
    assert moments[k..] == [];
    return Traversal(messages, cursor, false, k);
  }

  /** The log the traversal has read last. */
  function LastLog(moments: seq<Moment>, pages: nat): seq<Message> {
    if 0 < pages <= |moments| then moments[pages - 1].log else []
  }

  ghost predicate TraversalSound(t: Traversal, last: seq<Message>, from: int, after: int) {
    && Increasing(t.messages) && after <= t.after
    && (forall m <- t.messages :: after < m.sequence <= t.after && m.sequence >= from && m in last)
  }

  ghost predicate TraversalFull(t: Traversal, last: seq<Message>, from: int, after: int) {
    forall m <- last :: m.sequence >= from && m.sequence > after && m.expiresAt.None? && (m.sequence <= t.after || t.done) ==> m in t.messages
  }

  lemma {:induction false} FollowHolds(moments: seq<Moment>, from: int, after: int, limit: nat)
    requires Growing(moments) && 1 <= limit && 0 <= after
    ensures var t := Follow(moments, from, after, limit);
            && t.pages <= |moments| && (t.done ==> 0 < t.pages)
            && (t.pages == 0 ==> t == Traversal([], after, false, 0))
            && TraversalSound(t, LastLog(moments, t.pages), from, after)
            && TraversalFull(t, LastLog(moments, t.pages), from, after)
    decreases |moments|
  {
    hide Sound, Full, TraversalSound, TraversalFull, PageOf;
    if moments == [] {
      NothingRead(from, after);
    } else {
      var first := moments[0];
      assert Dense(first.log);
      var p := PageOf(first.log, from, after, limit, first.now);
      PageIsSound(first.log, from, after, limit, first.now);
      PageIsFull(first.log, from, after, limit, first.now);
      if p.hasMore {
        var tail := moments[1..];
        SoundAfter(p, first.log, from, after, limit);
        FollowHolds(tail, from, p.nextAfter, limit);
        FollowJoins(moments, p, Follow(tail, from, p.nextAfter, limit), from, after, limit);
      } else {
        LastPage(p, first.log, from, after, limit, first.now);
      }
    }
  }

  lemma NothingRead(from: int, after: int)
    ensures TraversalSound(Traversal([], after, false, 0), [], from, after)
    ensures TraversalFull(Traversal([], after, false, 0), [], from, after)
  {
  }

  lemma SoundAfter(p: Page, log: seq<Message>, from: int, after: int, limit: nat)
    requires Sound(p, log, from, after, limit)
    ensures after <= p.nextAfter
  {
  }

  lemma {:induction false} LastPage(p: Page, log: seq<Message>, from: int, after: int, limit: nat, now: int)
    requires Sound(p, log, from, after, limit) && Full(p, log, from, after, now) && !p.hasMore
    ensures TraversalSound(Traversal(p.messages, p.nextAfter, true, 1), log, from, after)
    ensures TraversalFull(Traversal(p.messages, p.nextAfter, true, 1), log, from, after)
  {
    hide Increasing;
  }

  lemma {:induction false} FollowJoins(moments: seq<Moment>, p: Page, rest: Traversal, from: int, after: int, limit: nat)
    requires Growing(moments) && moments != [] && rest.pages <= |moments| - 1
    requires Sound(p, moments[0].log, from, after, limit) && Full(p, moments[0].log, from, after, moments[0].now) && p.hasMore
    requires (rest.pages == 0 ==> rest == Traversal([], p.nextAfter, false, 0)) && (rest.done ==> 0 < rest.pages)
    requires TraversalSound(rest, LastLog(moments[1..], rest.pages), from, p.nextAfter)
    requires TraversalFull(rest, LastLog(moments[1..], rest.pages), from, p.nextAfter)
    ensures var t := Traversal(p.messages + rest.messages, rest.after, rest.done, rest.pages + 1);
            && TraversalSound(t, LastLog(moments, t.pages), from, after)
            && TraversalFull(t, LastLog(moments, t.pages), from, after)
  {
    var early, last := moments[0].log, moments[rest.pages].log;
    assert Dense(early) && Dense(last) && early <= last;
    var tail := LastLog(moments[1..], rest.pages);
    assert tail == if rest.pages == 0 then [] else last;
    var t := Traversal(p.messages + rest.messages, rest.after, rest.done, rest.pages + 1);
    hide Increasing, Dense, Growing, LastLog;
    assert LastLog(moments, t.pages) == last;
  }

  /** A finished traversal returns, strictly increasing and so each once, only messages
      visible to the reader and every visible message without expiry up to the watermark
      of its last page, however many messages were sent between the pages. */
  lemma {:induction false} TraversalIsComplete(moments: seq<Moment>, from: int, after: int, limit: nat)
    requires Growing(moments) && 1 <= limit && 0 <= after
    requires Follow(moments, from, after, limit).done
    ensures var t := Follow(moments, from, after, limit);
            && 0 < t.pages <= |moments| && Increasing(t.messages)
            && var last := moments[t.pages - 1].log;
            && (forall m <- t.messages :: m in last && m.sequence >= from && m.sequence > after)
            && (forall m <- last :: m.sequence >= from && m.sequence > after && m.expiresAt.None? ==> m in t.messages)
  {
    FollowHolds(moments, from, after, limit);
    hide Follow, Growing, Increasing;
  }

  lemma {:induction false} IncreasingSpan(q: seq<Message>, low: int)
    requires Increasing(q) && q != [] && forall m <- q :: low < m.sequence
    ensures low + |q| <= q[|q| - 1].sequence
    decreases |q|
  {
    if |q| > 1 {
      IncreasingSpan(q[..|q| - 1], low);
    }
  }

  lemma {:induction false} FullPageSpan(p: Page, log: seq<Message>, from: int, after: int, limit: nat)
    requires Sound(p, log, from, after, limit) && p.hasMore && 1 <= limit
    ensures after + limit <= p.nextAfter <= |log|
  {
    IncreasingSpan(p.messages, after);
    hide Increasing;
  }

  /** Once the log has stopped growing the traversal ends: every page before the last is
      full, so this many pages suffice. */
  lemma {:induction false} TraversalEnds(moments: seq<Moment>, from: int, after: int, limit: nat, log: seq<Message>)
    requires Dense(log) && (forall k :: 0 <= k < |moments| ==> moments[k].log == log) && 1 <= limit && 0 <= after
    requires 1 <= |moments| && |log| - after < |moments| * limit
    ensures Follow(moments, from, after, limit).done
    decreases |moments|
  {
    hide Dense, Sound, PageOf;
    var p := PageOf(log, from, after, limit, moments[0].now);
    PageIsSound(log, from, after, limit, moments[0].now);
    if p.hasMore {
      FullPageSpan(p, log, from, after, limit);
      TraversalEnds(moments[1..], from, p.nextAfter, limit, log);
    }
  }
}
