/** What history, reconciliation and replay show a member, over whole runs: exactly the
    messages that arrived since the member's latest join. */
module Listings {
  import opened Options
  import opened Conversations
  import opened ConversationInvariant
  import opened ConversationRuns
  import opened ConversationHistory
  import R = Reconciliation
  import D = Delivery

  /** The world a run has reached. */
  function After(directory: Directory, commands: seq<Command>): World {
    Run(Initial(directory), commands)
  }

  ghost predicate MemberOf(w: World, id: ConversationId, user: UserId) {
    id in w.db.conversations && IsActive(w.db.conversations[id], user)
  }

  /** A current member has a box, and it holds exactly the log from the boundary on. */
  lemma {:induction false} BoxIsSuffix(directory: Directory, commands: seq<Command>, id: ConversationId, user: UserId)
    requires MemberOf(After(directory, commands), id, user)
    ensures var w := After(directory, commands);
            var c := w.db.conversations[id];
            && R.Dense(c.log) && c.next == |c.log| + 1
            && id in w.boxes && user in w.boxes[id]
            && forall m :: m in w.boxes[id][user] <==> m in c.log && m.sequence >= c.members[user].visibleFrom
  {
    InitialOk(directory);
    RunKeeps(Initial(directory), commands);
    var w := After(directory, commands);
    assert ConversationOk(w.db.conversations[id]);
    hide Run, SentOk, EventsOk, KindOk, CursorsOk;
    assert BoxOk(w, id, user);
    SuffixFrom(w.db.conversations[id].log, w.db.conversations[id].members[user].visibleFrom);
  }

  /** The history of a member, newest first, is the box without what has expired. */
  lemma {:induction false} HistoryShowsTheBox(directory: Directory, commands: seq<Command>, id: ConversationId, user: UserId, now: int)
    requires MemberOf(After(directory, commands), id, user)
    ensures var w := After(directory, commands);
            var c := w.db.conversations[id];
            var all := D.Newest(c.log, c.members[user].visibleFrom, 0, now);
            && id in w.boxes && user in w.boxes[id] && D.Decreasing(all)
            && forall m :: m in all <==> m in w.boxes[id][user] && Unexpired(m, now)
  {
    BoxIsSuffix(directory, commands, id, user);
    var c := After(directory, commands).db.conversations[id];
    hide After;
    D.NewestIs(c.log, c.members[user].visibleFrom, 0, now);
    hide D.Newest;
  }

  /** The rows reconciliation reads after a position are those of the box, oldest first. */
  lemma {:induction false} ReconciliationShowsTheBox(directory: Directory, commands: seq<Command>, id: ConversationId, user: UserId,
                                                     after: int, now: int)
    requires MemberOf(After(directory, commands), id, user)
    ensures var w := After(directory, commands);
            var c := w.db.conversations[id];
            var rows := R.Matching(c.log, Max(after, c.members[user].visibleFrom - 1), now);
            && id in w.boxes && user in w.boxes[id] && R.Increasing(rows)
            && forall m :: m in rows <==> m in w.boxes[id][user] && m.sequence > after && Unexpired(m, now)
  {
    BoxIsSuffix(directory, commands, id, user);
    var c := After(directory, commands).db.conversations[id];
    hide After;
    R.MatchingIs(c.log, Max(after, c.members[user].visibleFrom - 1), now);
    hide R.Matching, R.Dense, R.Increasing;
  }

  /** A delivery row is replayed exactly when its user is a member now and its message is in
      the user's box and has not expired. */
  lemma {:induction false} ReplayShowsTheBox(directory: Directory, commands: seq<Command>, user: UserId, now: int, rows: seq<D.Entry>, e: D.Entry)
    requires e.conversation in After(directory, commands).db.conversations ==>
               e.message in After(directory, commands).db.conversations[e.conversation].log
    ensures var w := After(directory, commands);
            e in D.Candidates(w.db, user, now, rows, true) <==>
              && e in rows && MemberOf(w, e.conversation, user)
              && e.conversation in w.boxes && user in w.boxes[e.conversation]
              && e.message in w.boxes[e.conversation][user] && Unexpired(e.message, now)
  {
    var w := After(directory, commands);
    D.CandidatesAre(w.db, user, now, rows, true);
    if MemberOf(w, e.conversation, user) {
      BoxIsSuffix(directory, commands, e.conversation, user);
    }
    hide After, D.Candidates, R.Dense;
  }

  // ----- Catching up while a run goes on -----

  /** When the client asks for a page: how far the run has come, and the clock. */
  datatype Visit = Visit(position: nat, now: int)

  ghost predicate InOrder(commands: seq<Command>, visits: seq<Visit>) {
    && (forall k :: 0 <= k < |visits| ==> visits[k].position <= |commands|)
    && (forall k, l :: 0 <= k <= l < |visits| ==> visits[k].position <= visits[l].position && visits[k].now <= visits[l].now)
  }

  /** The reader is a member at every moment between the first visit and the last. */
  ghost predicate StaysMember(directory: Directory, commands: seq<Command>, visits: seq<Visit>, id: ConversationId, user: UserId) {
    && InOrder(commands, visits)
    && (visits != [] ==> forall n :: visits[0].position <= n <= visits[|visits| - 1].position ==>
          MemberOf(After(directory, commands[..n]), id, user))
  }

  function LogAt(directory: Directory, commands: seq<Command>, n: nat, id: ConversationId): seq<Message>
    requires n <= |commands| && id in After(directory, commands[..n]).db.conversations
  {
    After(directory, commands[..n]).db.conversations[id].log
  }

  function BoundaryAt(directory: Directory, commands: seq<Command>, n: nat, id: ConversationId, user: UserId): int
    requires n <= |commands| && MemberOf(After(directory, commands[..n]), id, user)
  {
    After(directory, commands[..n]).db.conversations[id].members[user].visibleFrom
  }

  ghost function Moments(directory: Directory, commands: seq<Command>, visits: seq<Visit>, id: ConversationId, user: UserId): seq<R.Moment>
    requires StaysMember(directory, commands, visits, id, user)
  {
    seq(|visits|, k requires 0 <= k < |visits| => R.Moment(LogAt(directory, commands, visits[k].position, id), visits[k].now))
  }

  /** A member who stays keeps the boundary. */
  lemma {:induction false} BoundaryStep(w: World, c: Command, id: ConversationId, user: UserId)
    requires Inv(w) && MemberOf(w, id, user) && MemberOf(Step(w, c), id, user)
    ensures Step(w, c).db.conversations[id].members[user].visibleFrom == w.db.conversations[id].members[user].visibleFrom
  {
    if !((c.OpenDirect? || c.OpenGroup?) && c.id in w.used) {
      var change := Classify(w.db, w.used, c);
      hide Apply, Applied, Allowed, Later, NextBoxes, DbOk, SentOk, BoxesOk, EventsOk, Starts;
      ChangeMoves(w.db, w.used, change);
      assert Moves(w.db.conversations[id], Step(w, c).db.conversations[id]);
    }
  }

  lemma {:induction false} BoundaryStays(directory: Directory, commands: seq<Command>, first: nat, last: nat, id: ConversationId, user: UserId)
    requires first <= last <= |commands|
    requires forall n :: first <= n <= last ==> MemberOf(After(directory, commands[..n]), id, user)
    ensures BoundaryAt(directory, commands, last, id, user) == BoundaryAt(directory, commands, first, id, user)
    decreases last - first
  {
    if first < last {
      BoundaryStays(directory, commands, first, last - 1, id, user);
      var w := After(directory, commands[..last - 1]);
      assert commands[..last] == commands[..last - 1] + [commands[last - 1]];
      RunOfConcat(Initial(directory), commands[..last - 1], [commands[last - 1]]);
      OneStep(w, commands[last - 1]);
      InitialOk(directory);
      RunKeeps(Initial(directory), commands[..last - 1]);
      assert MemberOf(After(directory, commands[..last]), id, user);
      hide Step, Inv, Run;
      BoundaryStep(w, commands[last - 1], id, user);
    }
  }

  lemma OneStep(w: World, c: Command)
    ensures Run(w, [c]) == Step(w, c)
  {
    assert [c][1..] == [];
    assert Run(Step(w, c), []) == Step(w, c);
    hide Step;
  }

  lemma {:induction false} LogsGrow(directory: Directory, commands: seq<Command>, m: nat, n: nat, id: ConversationId)
    requires m <= n <= |commands|
    requires id in After(directory, commands[..m]).db.conversations && id in After(directory, commands[..n]).db.conversations
    ensures LogAt(directory, commands, m, id) <= LogAt(directory, commands, n, id)
  {
    assert commands[..n] == commands[..m] + commands[m..n];
    TwoMoments(directory, commands[..m], commands[m..n]);
    hide Run, DbOk, SentOk, BoxesOk, EventsOk;
  }

  /** The logs a client reads in the course of one run grow as catching up needs it. */
  lemma {:induction false} MomentsGrow(directory: Directory, commands: seq<Command>, visits: seq<Visit>, id: ConversationId, user: UserId)
    requires StaysMember(directory, commands, visits, id, user)
    ensures R.Growing(Moments(directory, commands, visits, id, user))
  {
    var moments := Moments(directory, commands, visits, id, user);
    hide After, R.Dense;
    forall k | 0 <= k < |moments| ensures R.Dense(moments[k].log) {
      BoxIsSuffix(directory, commands[..visits[k].position], id, user);
    }
    forall k, l | 0 <= k <= l < |moments| ensures moments[k].log <= moments[l].log && moments[k].now <= moments[l].now {
      LogsGrow(directory, commands, visits[k].position, visits[l].position, id);
    }
  }

  /** A client that stays a member and follows the pages to the end, while the run goes on
      between them, has received in order only messages of its box, and every message of
      the box, as it is at the last page, that lies after the starting position and does
      not expire. */
  lemma {:induction false} CatchingUpGetsTheBox(directory: Directory, commands: seq<Command>, visits: seq<Visit>, id: ConversationId,
                                                user: UserId, after: int, limit: nat)
    requires StaysMember(directory, commands, visits, id, user) && visits != [] && 1 <= limit && 0 <= after
    requires R.Follow(Moments(directory, commands, visits, id, user),
                      BoundaryAt(directory, commands, visits[0].position, id, user), after, limit).done
    ensures var t := R.Follow(Moments(directory, commands, visits, id, user),
                              BoundaryAt(directory, commands, visits[0].position, id, user), after, limit);
            && 0 < t.pages <= |visits| && R.Increasing(t.messages)
            && var w := After(directory, commands[..visits[t.pages - 1].position]);
            && id in w.boxes && user in w.boxes[id]
            && (forall m <- t.messages :: m in w.boxes[id][user] && m.sequence > after)
            && (forall m <- w.boxes[id][user] :: m.sequence > after && m.expiresAt.None? ==> m in t.messages)
  {
    var from := BoundaryAt(directory, commands, visits[0].position, id, user);
    var moments := Moments(directory, commands, visits, id, user);
    MomentsGrow(directory, commands, visits, id, user);
    R.TraversalIsComplete(moments, from, after, limit);
    var n := visits[R.Follow(moments, from, after, limit).pages - 1].position;
    BoxIsSuffix(directory, commands[..n], id, user);
    BoundaryStays(directory, commands, visits[0].position, n, id, user);
    hide After, R.Follow, R.Growing, R.Increasing, R.Dense;
  }
}
