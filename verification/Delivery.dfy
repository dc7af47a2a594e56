/** Replaying what arrived while a device was offline, and reading history backwards. */
module Delivery {
  import opened Options
  import opened Conversations

  const REPLAY_LIMIT := 100

  /** A delivery row of one device that has not been marked yet. */
  datatype Entry = Entry(conversation: ConversationId, message: Message)

  /** Membership and visibility are checked again when the row is replayed. */
  predicate Replayable(db: Db, user: UserId, now: int, e: Entry) {
    && e.conversation in db.conversations
    && IsActive(db.conversations[e.conversation], user)
    && e.message.sequence >= db.conversations[e.conversation].members[user].visibleFrom
    && Unexpired(e.message, now)
  }

  function Candidates(db: Db, user: UserId, now: int, rows: seq<Entry>, replayable: bool): seq<Entry> {
    if rows == [] then []
    else
      var e := rows[|rows| - 1];
      Candidates(db, user, now, rows[..|rows| - 1], replayable) + if Replayable(db, user, now, e) == replayable then [e] else []
  }

  function Unmarked(rows: seq<Entry>, marked: seq<Entry>): seq<Entry> {
    if rows == [] then []
    else Unmarked(rows[..|rows| - 1], marked) + if rows[|rows| - 1] in marked then [] else [rows[|rows| - 1]]
  }

  ghost predicate Distinct(rows: seq<Entry>) {
    forall i, j :: 0 <= i < j < |rows| ==> rows[i] != rows[j]
  }

  // ----- Filters -----

  lemma {:induction false} CandidatesAre(db: Db, user: UserId, now: int, rows: seq<Entry>, replayable: bool)
    ensures forall e :: e in Candidates(db, user, now, rows, replayable) <==> e in rows && Replayable(db, user, now, e) == replayable
    decreases |rows|
  {
    if rows != [] {
      var rest, last := rows[..|rows| - 1], rows[|rows| - 1];
      CandidatesAre(db, user, now, rest, replayable);
      assert forall e :: e in rows <==> e in rest || e == last by {
        assert rows == rest + [last];
      }
      hide Replayable;
    }
  }

  lemma {:induction false} CandidatesDistinct(db: Db, user: UserId, now: int, rows: seq<Entry>)
    requires Distinct(rows)
    ensures Distinct(Candidates(db, user, now, rows, true))
    decreases |rows|
  {
    if rows != [] {
      CandidatesDistinct(db, user, now, rows[..|rows| - 1]);
      CandidatesAre(db, user, now, rows[..|rows| - 1], true);
      AppendDistinct(rows[..|rows| - 1], Candidates(db, user, now, rows[..|rows| - 1], true), rows);
      hide Replayable, Distinct;
    }
  }

  /** A new last element is new to any part of the earlier ones. */
  lemma AppendDistinct(rest: seq<Entry>, part: seq<Entry>, rows: seq<Entry>)
    requires Distinct(rows) && rows != [] && rest == rows[..|rows| - 1]
    ensures Distinct(rest)
    ensures Distinct(part) && (forall e <- part :: e in rest) ==> Distinct(part + [rows[|rows| - 1]])
    ensures part + [] == part
  {
    forall e <- rest ensures e != rows[|rows| - 1] {
      var i :| 0 <= i < |rest| && rest[i] == e;
      assert rows[i] == e;
    }
    if Distinct(part) && (forall e <- part :: e in rest) {
      assert forall i :: 0 <= i < |part| ==> part[i] in part;
    }
  }

  lemma {:induction false} UnmarkedIs(rows: seq<Entry>, marked: seq<Entry>)
    ensures forall e :: e in Unmarked(rows, marked) <==> e in rows && e !in marked
    ensures |Unmarked(rows, marked)| <= |rows|
    ensures (exists e <- rows :: e in marked) ==> |Unmarked(rows, marked)| < |rows|
    decreases |rows|
  {
    if rows != [] {
      var rest, last := rows[..|rows| - 1], rows[|rows| - 1];
      UnmarkedIs(rest, marked);
      assert forall e :: e in rows <==> e in rest || e == last by {
        assert rows == rest + [last];
      }
    }
  }

  lemma {:induction false} UnmarkedDistinct(rows: seq<Entry>, marked: seq<Entry>)
    requires Distinct(rows)
    ensures Distinct(Unmarked(rows, marked))
    decreases |rows|
  {
    if rows != [] {
      UnmarkedDistinct(rows[..|rows| - 1], marked);
      UnmarkedIs(rows[..|rows| - 1], marked);
      AppendDistinct(rows[..|rows| - 1], Unmarked(rows[..|rows| - 1], marked), rows);
      hide Distinct;
    }
  }

  /** Marking and choosing commute. */
  lemma {:induction false} UnmarkedCandidates(db: Db, user: UserId, now: int, rows: seq<Entry>, marked: seq<Entry>, replayable: bool)
    ensures Candidates(db, user, now, Unmarked(rows, marked), replayable) == Unmarked(Candidates(db, user, now, rows, replayable), marked)
    decreases |rows|
  {
    hide Replayable;
    if rows != [] {
      var rest, last := rows[..|rows| - 1], rows[|rows| - 1];
      UnmarkedCandidates(db, user, now, rest, marked, replayable);
      CandidatesSnoc(db, user, now, Unmarked(rest, marked), last, replayable);
      UnmarkedSnoc(Candidates(db, user, now, rest, replayable), last, marked);
    }
  }

  lemma CandidatesSnoc(db: Db, user: UserId, now: int, rows: seq<Entry>, e: Entry, replayable: bool)
    ensures Candidates(db, user, now, rows + [e], replayable) ==
            Candidates(db, user, now, rows, replayable) + if Replayable(db, user, now, e) == replayable then [e] else []
    ensures rows + [] == rows
  {
    assert (rows + [e])[..|rows|] == rows;
  }

  lemma UnmarkedSnoc(rows: seq<Entry>, e: Entry, marked: seq<Entry>)
    ensures Unmarked(rows + [e], marked) == Unmarked(rows, marked) + if e in marked then [] else [e]
    ensures rows + [] == rows
  {
    assert (rows + [e])[..|rows|] == rows;
  }

  lemma {:induction false} UnmarkedNone(rows: seq<Entry>, marked: seq<Entry>)
    requires forall e <- rows :: e !in marked
    ensures Unmarked(rows, marked) == rows
    decreases |rows|
  {
    if rows != [] { UnmarkedNone(rows[..|rows| - 1], marked); }
  }

  lemma {:induction false} UnmarkedAll(rows: seq<Entry>, marked: seq<Entry>)
    requires forall e <- rows :: e in marked
    ensures Unmarked(rows, marked) == []
    decreases |rows|
  {
    if rows != [] { UnmarkedAll(rows[..|rows| - 1], marked); }
  }

  lemma {:induction false} UnmarkedConcat(a: seq<Entry>, b: seq<Entry>, marked: seq<Entry>)
    ensures Unmarked(a + b, marked) == Unmarked(a, marked) + Unmarked(b, marked)
    decreases |b|
  {
    if b == [] {
      assert a + b == a;
    } else {
      var rest, last := b[..|b| - 1], b[|b| - 1];
      assert a + b == (a + rest) + [last];
      UnmarkedSnoc(a + rest, last, marked);
      UnmarkedConcat(a, rest, marked);
    }
  }

  lemma {:induction false} UnmarkedStart(all: seq<Entry>, n: nat)
    requires Distinct(all) && n <= |all|
    ensures Unmarked(all, all[..n]) == all[n..]
  {
    var marked := all[..n];
    assert all == marked + all[n..];
    UnmarkedConcat(marked, all[n..], marked);
    UnmarkedAll(marked, marked);
    forall e <- all[n..] ensures e !in marked {
      var i :| n <= i < |all| && all[i] == e;
    }
    UnmarkedNone(all[n..], marked);
    hide Unmarked;
  }

  /** Marking a start of the rows that can be replayed leaves the rest of them, and every
      row that cannot. */
  lemma {:induction false} MarkingAStart(db: Db, user: UserId, now: int, rows: seq<Entry>, n: nat)
    requires Distinct(rows) && n <= |Candidates(db, user, now, rows, true)|
    ensures var all := Candidates(db, user, now, rows, true);
            var left := Unmarked(rows, all[..n]);
            && Candidates(db, user, now, left, true) == all[n..]
            && Candidates(db, user, now, left, false) == Candidates(db, user, now, rows, false)
            && Distinct(left) && (n > 0 ==> |left| < |rows|)
  {
    hide Candidates, Unmarked, Replayable, Distinct;
    var all := Candidates(db, user, now, rows, true);
    var marked := all[..n];
    CandidatesAre(db, user, now, rows, true);
    CandidatesDistinct(db, user, now, rows);
    UnmarkedCandidates(db, user, now, rows, marked, true);
    UnmarkedStart(all, n);
    UnmarkedIs(rows, marked);
    UnmarkedDistinct(rows, marked);
    if n > 0 { assert all[0] in marked && all[0] in rows; }
    OthersStay(db, user, now, rows, marked);
  }

  lemma {:induction false} OthersStay(db: Db, user: UserId, now: int, rows: seq<Entry>, marked: seq<Entry>)
    requires forall e <- marked :: e in Candidates(db, user, now, rows, true)
    ensures Candidates(db, user, now, Unmarked(rows, marked), false) == Candidates(db, user, now, rows, false)
  {
    CandidatesAre(db, user, now, rows, true);
    CandidatesAre(db, user, now, rows, false);
    UnmarkedCandidates(db, user, now, rows, marked, false);
    UnmarkedNone(Candidates(db, user, now, rows, false), marked);
    hide Candidates, Unmarked, Replayable, Distinct;
  }

  class DeliveryQueue {
    var rows: seq<Entry>

    constructor (rows: seq<Entry>)
      ensures this.rows == rows
    {
      this.rows := rows;
    }

    /** The first rows that may be replayed, oldest first. */
    method Pending(db: Db, user: UserId, now: int, limit: nat) returns (messages: seq<Entry>)
      ensures var all := Candidates(db, user, now, rows, true);
              messages == if |all| > limit then all[..limit] else all
    {
      hide Replayable;
      messages := [];
      for i := 0 to |rows|
        invariant var all := Candidates(db, user, now, rows[..i], true);
                  messages == if |all| > limit then all[..limit] else all
      {
        assert rows[..i + 1] == rows[..i] + [rows[i]];
        CandidatesSnoc(db, user, now, rows[..i], rows[i], true);
        if |messages| < limit && Replayable(db, user, now, rows[i]) {
          messages := messages + [rows[i]];
        }
      }
      assert rows[..|rows|] == rows;
    }

    method MarkDelivered(messages: seq<Entry>)
      modifies this
      ensures rows == Unmarked(old(rows), messages)
    {
      var kept := [];
      for i := 0 to |rows|
        invariant rows == old(rows) && kept == Unmarked(rows[..i], messages)
      {
        assert rows[..i + 1] == rows[..i] + [rows[i]];
        UnmarkedSnoc(rows[..i], rows[i], messages);
        if rows[i] !in messages {
          kept := kept + [rows[i]];
        }
      }
      assert rows[..|rows|] == rows;
      rows := kept;
    }

    /** Send page after page to a socket that takes `accepts` messages before it fails, each
        page against the memberships of its own moment.  Nothing is sent twice, exactly what
        was sent is marked, each message might be replayed when its page was read, and a
        socket that takes everything leaves nothing that might be replayed at the last
        moment.  While memberships stay as they are, what was sent is the oldest part of
        what may be replayed, in order, and the rest stays for the next connection. */
    method ReplayPending(moments: nat -> Db, user: UserId, now: int, accepts: nat) returns (sent: seq<Entry>, pages: nat)
      requires Distinct(rows)
      modifies this
      ensures Distinct(sent) && |sent| <= accepts && rows == Unmarked(old(rows), sent) && 1 <= pages
      ensures forall e <- sent :: e in old(rows) && exists n: nat :: n < pages && Replayable(moments(n), user, now, e)
      ensures |sent| < accepts ==> Candidates(moments(pages - 1), user, now, rows, true) == []
      ensures (forall n: nat :: moments(n) == moments(0)) ==>
        var all := Candidates(moments(0), user, now, old(rows), true);
        && sent == (if accepts < |all| then all[..accepts] else all)
        && Candidates(moments(0), user, now, rows, true) == all[|sent|..]
        && Candidates(moments(0), user, now, rows, false) == Candidates(moments(0), user, now, old(rows), false)
        && (|all| <= accepts ==> pages == |all| / 100 + 1)
    {
      hide Candidates, Unmarked, Distinct, Replayable, SentSoFar, Continues;
      sent, pages := [], 0;
      UnmarkedEmpty(rows);
      NothingSent(moments, user, now, rows);
      ghost var steady := forall n: nat :: moments(n) == moments(0);
      while true
        invariant Distinct(rows) && Distinct(sent) && |sent| <= accepts && rows == Unmarked(old(rows), sent)
        invariant SentSoFar(moments, user, now, old(rows), sent, pages)
        invariant steady ==> Continues(moments(0), user, now, old(rows), rows, sent)
        invariant steady && |Candidates(moments(0), user, now, old(rows), true)| <= accepts ==> |sent| == 100 * pages
        decreases |rows|
      {
        ghost var db := moments(pages);
        var messages := Pending(moments(pages), user, now, REPLAY_LIMIT);
        pages := pages + 1;
        if |messages| == 0 {
          SentAre(moments, user, now, old(rows), sent, pages);
          if steady { ContinuesTo(db, user, now, old(rows), rows, sent); }
          return;
        }
        var room := if |messages| < accepts - |sent| then |messages| else accepts - |sent|;
        ghost var all := Candidates(db, user, now, rows, true);
        var taken := SendPage(messages, room);
        assert taken == all[..room];
        MarkingAStart(db, user, now, rows, room);
        PageSent(db, user, now, old(rows), rows, sent, taken, room);
        MoreSent(moments, user, now, old(rows), sent, taken, pages);
        if steady { ContinuesAfter(db, user, now, old(rows), rows, sent, room); }
        sent := sent + taken;
        if |taken| > 0 {
          MarkDelivered(taken);
        } else {
          UnmarkedEmpty(rows);
        }
        if |taken| < |messages| || |messages| < REPLAY_LIMIT {
          SentAre(moments, user, now, old(rows), sent, pages);
          if steady { ContinuesTo(db, user, now, old(rows), rows, sent); }
          return;
        }
      }
    }
  }

  /** Everything sent was a row that might be replayed when one of the pages was read. */
  ghost predicate SentSoFar(moments: nat -> Db, user: UserId, now: int, first: seq<Entry>, sent: seq<Entry>, pages: nat) {
    forall e <- sent :: e in first && exists n: nat :: n < pages && Replayable(moments(n), user, now, e)
  }

  lemma SentAre(moments: nat -> Db, user: UserId, now: int, first: seq<Entry>, sent: seq<Entry>, pages: nat)
    requires 1 <= pages
    requires SentSoFar(moments, user, now, first, sent, pages - 1) || SentSoFar(moments, user, now, first, sent, pages)
    ensures forall e <- sent :: e in first && exists n: nat :: n < pages && Replayable(moments(n), user, now, e)
  {
    hide Replayable;
  }

  lemma {:induction false} MoreSent(moments: nat -> Db, user: UserId, now: int, first: seq<Entry>, sent: seq<Entry>, taken: seq<Entry>, pages: nat)
    requires 1 <= pages && SentSoFar(moments, user, now, first, sent, pages - 1)
    requires forall e <- taken :: e in first && Replayable(moments(pages - 1), user, now, e)
    ensures SentSoFar(moments, user, now, first, sent + taken, pages)
  {
    hide Replayable;
    forall e <- sent + taken ensures e in first && exists n: nat :: n < pages && Replayable(moments(n), user, now, e) {
      if e in taken { assert Replayable(moments(pages - 1), user, now, e); }
    }
  }

  /** Under steady memberships what was sent and what may still be replayed make up what could
      be replayed at first. */
  ghost predicate Continues(db: Db, user: UserId, now: int, first: seq<Entry>, rows: seq<Entry>, sent: seq<Entry>) {
    && sent + Candidates(db, user, now, rows, true) == Candidates(db, user, now, first, true)
    && Candidates(db, user, now, rows, false) == Candidates(db, user, now, first, false)
  }

  lemma NothingSent(moments: nat -> Db, user: UserId, now: int, first: seq<Entry>)
    ensures SentSoFar(moments, user, now, first, [], 0)
    ensures Continues(moments(0), user, now, first, first, [])
  {
    hide Candidates, Replayable;
  }

  lemma {:induction false} ContinuesAfter(db: Db, user: UserId, now: int, first: seq<Entry>, rows: seq<Entry>, sent: seq<Entry>, room: nat)
    requires Distinct(rows) && Continues(db, user, now, first, rows, sent) && room <= |Candidates(db, user, now, rows, true)|
    ensures var taken := Candidates(db, user, now, rows, true)[..room];
            Continues(db, user, now, first, Unmarked(rows, taken), sent + taken)
  {
    MarkingAStart(db, user, now, rows, room);
    hide Candidates, Unmarked, Distinct;
    var all := Candidates(db, user, now, rows, true);
    assert sent + all == (sent + all[..room]) + all[room..];
  }

  lemma {:induction false} ContinuesTo(db: Db, user: UserId, now: int, first: seq<Entry>, rows: seq<Entry>, sent: seq<Entry>)
    requires Continues(db, user, now, first, rows, sent)
    ensures var all := Candidates(db, user, now, first, true);
            && |sent| <= |all| && sent == all[..|sent|] && Candidates(db, user, now, rows, true) == all[|sent|..]
            && Candidates(db, user, now, rows, false) == Candidates(db, user, now, first, false)
  {
    hide Candidates;
  }

  lemma {:induction false} UnmarkedEmpty(rows: seq<Entry>)
    ensures Unmarked(rows, []) == rows && Distinct([])
  {
    UnmarkedNone(rows, []);
  }

  /** Marking in two goes is marking at once, and the second page repeats nothing. */
  lemma {:induction false} PageSent(db: Db, user: UserId, now: int, first: seq<Entry>, rows: seq<Entry>, sent: seq<Entry>,
                                    taken: seq<Entry>, room: nat)
    requires Distinct(rows) && Distinct(sent) && rows == Unmarked(first, sent)
    requires room <= |Candidates(db, user, now, rows, true)| && taken == Candidates(db, user, now, rows, true)[..room]
    ensures Distinct(sent + taken) && Unmarked(rows, taken) == Unmarked(first, sent + taken)
    ensures forall e <- taken :: e in first && e !in sent && Replayable(db, user, now, e)
  {
    UnmarkedIs(first, sent);
    CandidatesAre(db, user, now, rows, true);
    CandidatesDistinct(db, user, now, rows);
    UnmarkedTwice(first, sent, taken);
    hide Candidates, Unmarked, Replayable, Distinct;
    var all := Candidates(db, user, now, rows, true);
    assert all == taken + all[room..];
    DistinctConcat(taken, all[room..]);
    assert forall e <- taken :: e in all;
    BothDistinct(sent, taken);
  }

  lemma DistinctConcat(a: seq<Entry>, b: seq<Entry>)
    requires Distinct(a + b)
    ensures Distinct(a)
  {
    forall i, j | 0 <= i < j < |a| ensures a[i] != a[j] {
      assert (a + b)[i] == a[i] && (a + b)[j] == a[j];
    }
  }

  lemma BothDistinct(a: seq<Entry>, b: seq<Entry>)
    requires Distinct(a) && Distinct(b) && forall e <- b :: e !in a
    ensures Distinct(a + b)
  {
    var n := |a|;
    forall i, j | 0 <= i < j < |a + b| ensures (a + b)[i] != (a + b)[j] {
      assert (a + b)[i] == if i < n then a[i] else b[i - n];
      assert (a + b)[j] == if j < n then a[j] else b[j - n];
      if i < n <= j {
        assert b[j - n] in b;
      }
    }
  }

  lemma {:induction false} UnmarkedTwice(rows: seq<Entry>, a: seq<Entry>, b: seq<Entry>)
    ensures Unmarked(Unmarked(rows, a), b) == Unmarked(rows, a + b)
    decreases |rows|
  {
    if rows != [] {
      UnmarkedTwice(rows[..|rows| - 1], a, b);
      UnmarkedSnoc(Unmarked(rows[..|rows| - 1], a), rows[|rows| - 1], b);
    }
  }

  /** Hand messages to the socket until it refuses one. */
  method SendPage(messages: seq<Entry>, room: nat) returns (taken: seq<Entry>)
    requires room <= |messages|
    ensures taken == messages[..room]
  {
    taken := [];
    for i := 0 to |messages|
      invariant taken == messages[..i] && i <= room
    {
      if i == room { return; }
      taken := taken + [messages[i]];
    }
  }

  /** Only messages the user may see are replayed: of the conversations the user belongs
      to now, from the latest join on. */
  lemma {:induction false} ReplayedAreVisible(db: Db, user: UserId, now: int, rows: seq<Entry>, e: Entry)
    requires forall r <- rows :: r.conversation in db.conversations ==> r.message in db.conversations[r.conversation].log
    requires e in Candidates(db, user, now, rows, true)
    ensures e.conversation in db.conversations && e.message in Visible(db.conversations[e.conversation], user, now)
  {
    CandidatesAre(db, user, now, rows, true);
  }

  // ----- History -----

  predicate Below(m: Message, from: int, before: int, now: int) {
    m.sequence >= from && (before > 0 ==> m.sequence < before) && Unexpired(m, now)
  }

  /** The visible messages below a position, newest first. */
  function Newest(log: seq<Message>, from: int, before: int, now: int): seq<Message> {
    if log == [] then []
    else (if Below(log[|log| - 1], from, before, now) then [log[|log| - 1]] else []) + Newest(log[..|log| - 1], from, before, now)
  }

  datatype History = Unknown | Page(messages: seq<Message>, nextBefore: int)

  method List(db: Db, user: UserId, id: ConversationId, before: int, limit: nat, now: int) returns (history: History)
    requires 1 <= limit
    ensures history.Page? <==> id in db.conversations && IsActive(db.conversations[id], user)
    ensures history.Page? ==>
      var all := Newest(db.conversations[id].log, db.conversations[id].members[user].visibleFrom, before, now);
      && history.messages == (if |all| > limit then all[..limit] else all)
      && history.nextBefore == if |all| > limit then all[limit - 1].sequence else 0
  {
    hide Newest;
    var member := id in db.conversations && IsActive(db.conversations[id], user);
    var rows: seq<Message> := [];
    if member {
      rows := Newest(db.conversations[id].log, db.conversations[id].members[user].visibleFrom, before, now);
      if |rows| > limit + 1 {
        rows := rows[..limit + 1];
      }
    }
    var messages := [];
    for i := 0 to |rows|
      invariant messages == rows[..i]
    {
      messages := messages + [rows[i]];
    }
    if |messages| == 0 {
      if !member { return Unknown; }
    }
    var nextBefore := 0;
    if |messages| > limit {
      nextBefore := messages[limit - 1].sequence;
      messages := messages[..limit];
    }
    return Page(messages, nextBefore);
  }

  ghost predicate Increasing(log: seq<Message>) {
    forall i, j :: 0 <= i < j < |log| ==> log[i].sequence < log[j].sequence
  }

  ghost predicate Decreasing(log: seq<Message>) {
    forall i, j :: 0 <= i < j < |log| ==> log[i].sequence > log[j].sequence
  }

  lemma {:induction false} NewestIs(log: seq<Message>, from: int, before: int, now: int)
    requires Increasing(log)
    ensures forall m :: m in Newest(log, from, before, now) <==> m in log && Below(m, from, before, now)
    ensures Decreasing(Newest(log, from, before, now))
    decreases |log|
  {
    if log != [] {
      var rest, last := log[..|log| - 1], log[|log| - 1];
      NewestIs(rest, from, before, now);
      assert log == rest + [last];
      assert forall m :: m in log <==> m in rest || m == last;
      var older := Newest(rest, from, before, now);
      forall i | 0 <= i < |older| ensures older[i].sequence < last.sequence {
        assert older[i] in older;
      }
      hide Below;
    }
  }

  lemma {:induction false} NewestBelow(log: seq<Message>, from: int, before: int, cursor: int, now: int)
    requires Increasing(log) && 0 < cursor && (before > 0 ==> cursor <= before)
    ensures |Newest(log, from, cursor, now)| <= |Newest(log, from, before, now)|
    ensures var all, rest := Newest(log, from, before, now), Newest(log, from, cursor, now);
            rest == all[|all| - |rest|..]
    decreases |log|
  {
    if log != [] {
      if log[|log| - 1].sequence < cursor {
        NewestSame(log, from, before, cursor, now);
      } else {
        var older := log[..|log| - 1];
        NewestBelow(older, from, before, cursor, now);
        assert Newest(log, from, cursor, now) == Newest(older, from, cursor, now);
        hide Below;
      }
    }
  }

  /** When the newest message lies below both positions, so does everything. */
  lemma {:induction false} NewestSame(log: seq<Message>, from: int, before: int, cursor: int, now: int)
    requires log != [] && 0 < cursor && (before > 0 ==> cursor <= before) && log[|log| - 1].sequence < cursor
    requires Increasing(log)
    ensures Newest(log, from, cursor, now) == Newest(log, from, before, now)
    decreases |log|
  {
    if |log| > 1 {
      assert log[..|log| - 1][|log| - 2] == log[|log| - 2];
      NewestSame(log[..|log| - 1], from, before, cursor, now);
    } else {
      assert log[..|log| - 1] == [];
    }
  }

  /** Consecutive history pages meet without gap or overlap: what a page and its cursor
      stand for together is everything visible below the position asked for. */
  lemma {:induction false} HistoryPagesMeet(log: seq<Message>, from: int, before: int, limit: nat, now: int)
    requires Increasing(log)
    requires (forall m <- log :: 1 <= m.sequence) && 1 <= limit < |Newest(log, from, before, now)|
    ensures var all := Newest(log, from, before, now);
            all == all[..limit] + Newest(log, from, all[limit - 1].sequence, now)
  {
    var all := Newest(log, from, before, now);
    NewestIs(log, from, before, now);
    assert all[limit - 1] in all && all[limit] in all;
    var cursor := all[limit - 1].sequence;
    var rest := Newest(log, from, cursor, now);
    NewestBelow(log, from, before, cursor, now);
    NewestIs(log, from, cursor, now);
    hide Newest;
    assert all[limit] in rest && all[limit - 1] !in rest;
    SuffixLength(all, rest, limit);
  }

  lemma SuffixLength(all: seq<Message>, rest: seq<Message>, limit: nat)
    requires Decreasing(all) && 1 <= limit < |all| && |rest| <= |all| && rest == all[|all| - |rest|..]
    requires all[limit] in rest && all[limit - 1] !in rest
    ensures all == all[..limit] + rest
  {
    var n := |all| - |rest|;
    var k :| 0 <= k < |rest| && rest[k] == all[limit];
    assert all[n + k] == all[limit];
  }
}
