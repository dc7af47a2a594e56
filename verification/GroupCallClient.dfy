/** How a browser follows a group room: snapshots reach it late, twice, out of order or
    not at all, and it applies only those newer than what it shows. */
module GroupCallClient {
  import opened Options
  import opened CallStore
  import opened CallInvariant
  import opened CallRuns
  import opened CallHistory

  const RETIRED_LIMIT := 32

  datatype Phase = Idle | Requesting | Ringing | Joining | Active | Left | Over | Failed

  datatype Known = Known(id: RoomId, room: Room)

  /** `media` tells whether the microphone is open, `requested` whether a start or join awaits
      its answer, `discovering` whether a discovery does; `retired` are the rooms that ended
      last, oldest first. */
  datatype Client = Client(
    phase: Phase,
    conversation: ConversationId,
    self: UserId,
    media: bool,
    requested: bool,
    discovering: bool,
    shown: Option<Known>,
    applied: int,
    retired: seq<RoomId>)

  datatype Kind = Started | Joined | Changed | Final

  /** A frame about a room: a full snapshot, with or without a support reference, the bare
      announcement of its end, or the answer to this client's own synchronization request. */
  datatype Frame =
    | Event(kind: Kind, reference: bool, snapshot: Known)
    | Ended(id: RoomId, generation: int, revision: int)
    | Synced(snapshot: Known)
    | SyncedEnded(id: RoomId, generation: int)

  function NewClient(): Client {
    Client(Idle, 0, 0, false, false, false, None, -1, [])
  }

  predicate Free(phase: Phase) {
    phase == Idle || phase == Left || phase == Over || phase == Failed
  }

  predicate Accepts(c: Client, kind: Kind, k: Known) {
    if c.shown.Some? then
      c.shown.value.id == k.id && c.shown.value.room.generation == k.room.generation && k.room.stateRevision > c.applied
    else
      && kind == Started && k.id !in c.retired && k.room.stateRevision > c.applied
      && (!Free(c.phase) ==> (c.phase == Requesting || c.phase == Phase.Ringing) && k.room.conversation == c.conversation)
  }

  /** The newest of the retired rooms are kept; retiring a kept one again changes nothing. */
  function Retire(retired: seq<RoomId>, id: RoomId): seq<RoomId> {
    var all := if id in retired then retired else retired + [id];
    if |all| > RETIRED_LIMIT then all[|all| - RETIRED_LIMIT..] else all
  }

  function Terminated(c: Client, id: RoomId): Client {
    Client(Over, 0, 0, false, false, false, None, -1, Retire(c.retired, id))
  }

  predicate Follows(c: Client, id: RoomId, generation: int) {
    c.shown.Some? && c.shown.value.id == id && c.shown.value.room.generation == generation
  }

  function Ending(c: Client, id: RoomId, generation: int, revision: int): Client {
    if Follows(c, id, generation) && revision > c.applied then Terminated(c, id) else c
  }

  function Applied(c: Client, k: Known): Client {
    c.(shown := Some(k), applied := k.room.stateRevision, phase := if c.media then Phase.Active else Phase.Ringing)
  }

  predicate Answers(c: Client, kind: Kind, k: Known) {
    kind == Started || (kind == Joined && c.phase == Joining && exists p <- k.room.participants :: p.user == c.self)
  }

  /** Whether a frame carries a room, in full, as ended. */
  predicate IsFullEnd(f: Frame) {
    f.Event? && (f.kind == Final || f.snapshot.room.status == Status.Ended)
  }

  /** A full end with a support reference first becomes the shown room, whichever room was
      shown before, and is only then compared with what is shown. */
  function Receive(c: Client, f: Frame): Client {
    match f
    case Event(kind, reference, k) =>
      if IsFullEnd(f) then
        Ending(if reference then c.(shown := Some(k)) else c, k.id, k.room.generation, k.room.stateRevision)
      else if !Accepts(c, kind, k) then c
      else
        var d := if Answers(c, kind, k) then c.(requested := false) else c;
        if kind == Started && Free(c.phase)
        then d.(phase := Phase.Ringing, media := false, shown := Some(k), applied := k.room.stateRevision)
        else Applied(d, k)
    case Ended(id, generation, revision) => Ending(c, id, generation, revision)
    case Synced(k) =>
      if Follows(c, k.id, k.room.generation) && k.room.conversation == c.shown.value.room.conversation
         && k.room.stateRevision >= c.applied
      then Applied(c, k)
      else c
    case SyncedEnded(id, generation) => if Follows(c, id, generation) then Terminated(c, id) else c
  }

  function ReceiveAll(c: Client, frames: seq<Frame>): Client
    decreases |frames|
  {
    if frames == [] then c else ReceiveAll(Receive(c, frames[0]), frames[1..])
  }

  /** The user looks for a call in a conversation. */
  function Discover(c: Client, conversation: ConversationId, self: UserId): Client {
    if (!Free(c.phase) && c.phase != Phase.Ringing) || c.discovering then c
    else c.(phase := Requesting, conversation := conversation, self := self, media := false, discovering := true,
            shown := None, applied := -1)
  }

  class GroupCallFacade {
    var phase: Phase
    var conversation: ConversationId
    var self: UserId
    var media: bool
    var requested: bool
    var discovering: bool
    var shown: Option<Known>
    var lastAppliedStateRevision: int
    var retiredRoomIds: seq<RoomId>

    function View(): Client
      reads this
    {
      Client(phase, conversation, self, media, requested, discovering, shown, lastAppliedStateRevision, retiredRoomIds)
    }

    constructor ()
      ensures View() == NewClient()
    {
      phase, conversation, self, media, requested, discovering := Idle, 0, 0, false, false, false;
      shown, lastAppliedStateRevision, retiredRoomIds := None, -1, [];
    }

    method DiscoverAndStart(conversation: ConversationId, self: UserId)
      modifies this
      ensures View() == Discover(old(View()), conversation, self)
    {
      var canStart := phase == Idle || phase == Left || phase == Over || phase == Failed || phase == Phase.Ringing;
      if !canStart || discovering { return; }
      lastAppliedStateRevision := -1;
      this.self := self;
      this.conversation := conversation;
      media, shown, phase := false, None, Requesting;
      discovering := true;
    }

    method AcceptsRoomEvent(kind: Kind, k: Known) returns (accepts: bool)
      ensures accepts == Accepts(View(), kind, k)
    {
      if shown.Some? {
        var known := shown.value;
        return known.id == k.id && k.room.generation == known.room.generation && k.room.stateRevision > lastAppliedStateRevision;
      }
      if phase == Idle || phase == Left || phase == Over || phase == Failed {
        return kind == Started && k.id !in retiredRoomIds && k.room.stateRevision > lastAppliedStateRevision;
      }
      return kind == Started && k.room.stateRevision > lastAppliedStateRevision && (phase == Requesting || phase == Phase.Ringing)
             && conversation == k.room.conversation && k.id !in retiredRoomIds;
    }

    method RetireRoom(id: RoomId)
      modifies this`retiredRoomIds
      ensures retiredRoomIds == Retire(old(retiredRoomIds), id)
    {
      if id !in retiredRoomIds {
        retiredRoomIds := retiredRoomIds + [id];
      }
      ghost var all := retiredRoomIds;
      while |retiredRoomIds| > RETIRED_LIMIT
        invariant |retiredRoomIds| <= |all| && retiredRoomIds == all[|all| - |retiredRoomIds|..]
        invariant |all| > RETIRED_LIMIT ==> |retiredRoomIds| >= RETIRED_LIMIT
        invariant |all| <= RETIRED_LIMIT ==> retiredRoomIds == all
        decreases |retiredRoomIds|
      {
        retiredRoomIds := retiredRoomIds[1..];
      }
    }

    method Terminal(id: RoomId)
      modifies this
      ensures View() == Terminated(old(View()), id)
    {
      discovering := false;
      requested := false;
      RetireRoom(id);
      lastAppliedStateRevision := -1;
      conversation := 0;
      self := 0;
      media, shown, phase := false, None, Over;
    }

    method HandleTerminalRoom(id: RoomId, generation: int, revision: int)
      modifies this
      ensures View() == Receive(old(View()), Frame.Ended(id, generation, revision))
    {
      if shown.None? || shown.value.id != id || shown.value.room.generation != generation { return; }
      if revision <= lastAppliedStateRevision { return; }
      lastAppliedStateRevision := revision;
      Terminal(id);
    }

    method ApplyRoom(k: Known)
      modifies this`shown, this`phase
      ensures View() == Applied(old(View()), k).(applied := old(lastAppliedStateRevision))
    {
      shown := Some(k);
      phase := if media then Phase.Active else Phase.Ringing;
    }

    method HandleEvent(kind: Kind, reference: bool, k: Known)
      modifies this
      ensures View() == Receive(old(View()), Event(kind, reference, k))
    {
      if k.room.status == Status.Ended || kind == Final {
        if reference {
          shown := Some(k);
        }
        HandleTerminalRoom(k.id, k.room.generation, k.room.stateRevision);
        return;
      }
      var accepts := AcceptsRoomEvent(kind, k);
      if !accepts { return; }
      if kind == Started || (kind == Joined && phase == Joining && exists p <- k.room.participants :: p.user == self) {
        requested := false;
      }
      lastAppliedStateRevision := k.room.stateRevision;
      if kind == Started && (phase == Idle || phase == Left || phase == Over || phase == Failed) {
        media, shown, phase := false, Some(k), Phase.Ringing;
        return;
      }
      ApplyRoom(k);
    }

    /** The answer to the pending request of the current room. */
    method HandleSynced(k: Known)
      modifies this
      ensures View() == Receive(old(View()), Synced(k))
    {
      if shown.None? || k.id != shown.value.id || k.room.generation != shown.value.room.generation { return; }
      if k.room.conversation != shown.value.room.conversation || k.room.stateRevision < lastAppliedStateRevision { return; }
      lastAppliedStateRevision := k.room.stateRevision;
      ApplyRoom(k);
    }

    method HandleSyncedEnded(id: RoomId, generation: int)
      modifies this
      ensures View() == Receive(old(View()), SyncedEnded(id, generation))
    {
      if shown.None? || id != shown.value.id || generation != shown.value.room.generation { return; }
      Terminal(id);
    }
  }

  // ----- What the server sends -----

  /** A room the server held at some moment of its run. */
  ghost predicate Held(now: int, commands: seq<Command>, k: Known) {
    exists n: nat | n <= |commands| :: HeldAt(now, commands, n, k)
  }

  ghost predicate HeldAt(now: int, commands: seq<Command>, n: nat, k: Known)
    requires n <= |commands|
  {
    var rooms := Run(Initial(now), commands[..n]).store.rooms;
    k.id in rooms && rooms[k.id] == k.room
  }

  /** Two held rooms with one identifier: the revision tells them apart, and an ended one
      is newer than one that has not ended. */
  ghost predicate Compatible(a: Room, b: Room) {
    && a.generation == b.generation && a.conversation == b.conversation
    && (a.stateRevision == b.stateRevision ==> a == b)
    && (a.status != Status.Ended && b.status == Status.Ended ==> a.stateRevision < b.stateRevision)
    && (b.status != Status.Ended && a.status == Status.Ended ==> b.stateRevision < a.stateRevision)
  }

  lemma {:induction false} HeldInOrder(now: int, commands: seq<Command>, m: nat, n: nat, a: Known, b: Known)
    requires m <= n <= |commands| && a.id == b.id
    requires HeldAt(now, commands, m, a) && HeldAt(now, commands, n, b)
    ensures Compatible(a.room, b.room)
  {
    assert commands[..n] == commands[..m] + commands[m..n];
    TwoMoments(now, commands[..m], commands[m..n]);
    hide Run, Inv, ClaimsOk, AcceptancesOk;
    assert RoomEvolves(a.room, b.room);
  }

  lemma {:induction false} HeldCompatible(now: int, commands: seq<Command>, a: Known, b: Known)
    requires Held(now, commands, a) && Held(now, commands, b) && a.id == b.id
    ensures Compatible(a.room, b.room)
  {
    hide HeldAt, Compatible;
    var m: nat :| m <= |commands| && HeldAt(now, commands, m, a);
    var n: nat :| n <= |commands| && HeldAt(now, commands, n, b);
    if m <= n {
      HeldInOrder(now, commands, m, n, a, b);
    } else {
      HeldInOrder(now, commands, n, m, b, a);
      CompatibleBack(b.room, a.room);
    }
  }

  lemma CompatibleBack(a: Room, b: Room)
    requires Compatible(a, b)
    ensures Compatible(b, a)
  {
  }

  /** What a final snapshot tells of a room the server held as ended; its roster may be the
      one from before the end. */
  ghost predicate KnownEnd(now: int, commands: seq<Command>, k: Known) {
    && k.room.status == Status.Ended
    && exists e: Known :: Held(now, commands, e) && EndOf(e, k)
  }

  predicate EndOf(e: Known, k: Known) {
    && e.id == k.id && e.room.status == Status.Ended && e.room.generation == k.room.generation
    && e.room.conversation == k.room.conversation && e.room.stateRevision == k.room.stateRevision
  }

  predicate Announces(e: Known, id: RoomId, generation: int) {
    e.id == id && e.room.generation == generation
  }

  /** A frame, of any room, that the server can have sent; revisions on the wire are positive. */
  ghost predicate Genuine(now: int, commands: seq<Command>, f: Frame) {
    match f
    case Event(kind, _, k) => 0 < k.room.stateRevision && if IsFullEnd(f) then KnownEnd(now, commands, k) else Held(now, commands, k)
    case Ended(id, generation, revision) =>
      0 < revision && exists k: Known :: Held(now, commands, k) && Announces(k, id, generation)
                                         && k.room.status == Status.Ended && k.room.stateRevision == revision
    case Synced(k) => 0 < k.room.stateRevision && Held(now, commands, k) && k.room.status != Status.Ended
    case SyncedEnded(id, generation) => exists k: Known :: Held(now, commands, k) && Announces(k, id, generation)
  }

  function RoomOf(f: Frame): RoomId {
    match f
    case Event(_, _, k) => k.id
    case Ended(id, _, _) => id
    case Synced(k) => k.id
    case SyncedEnded(id, _) => id
  }

  predicate IsEnd(f: Frame) {
    f.Ended? || f.SyncedEnded? || IsFullEnd(f)
  }

  predicate IsSnapshot(f: Frame) {
    (f.Event? && !IsFullEnd(f)) || f.Synced?
  }

  predicate EndsRoom(f: Frame, id: RoomId) {
    IsEnd(f) && RoomOf(f) == id
  }

  predicate Updates(f: Frame, id: RoomId) {
    IsSnapshot(f) && RoomOf(f) == id
  }

  /** A full end with a support reference is shown whatever the client showed before. */
  predicate IsForced(f: Frame) {
    IsFullEnd(f) && f.reference
  }

  predicate Intrudes(f: Frame, id: RoomId) {
    IsForced(f) && RoomOf(f) != id
  }

  /** A live held room is older than every end of it. */
  lemma {:induction false} EndIsNewer(now: int, commands: seq<Command>, a: Known, k: Known)
    requires Held(now, commands, a) && a.room.status != Status.Ended && KnownEnd(now, commands, k) && a.id == k.id
    ensures a.room.generation == k.room.generation && a.room.conversation == k.room.conversation
    ensures a.room.stateRevision < k.room.stateRevision
  {
    hide Held;
    var e: Known :| Held(now, commands, e) && EndOf(e, k);
    HeldCompatible(now, commands, a, e);
  }

  // ----- What a client can be -----

  ghost predicate Tidy(c: Client) {
    && |c.retired| <= RETIRED_LIMIT
    && (forall i, j :: 0 <= i < j < |c.retired| ==> c.retired[i] != c.retired[j])
    && (c.shown.None? ==> c.applied == -1)
  }

  /** What is shown is a held room that is not retired, or an end that came too late to be
      taken for one. */
  ghost predicate ShownOk(now: int, commands: seq<Command>, c: Client) {
    c.shown.Some? ==>
      var k := c.shown.value;
      if k.room.status == Status.Ended then KnownEnd(now, commands, k) && k.room.stateRevision <= c.applied
      else Held(now, commands, k) && c.applied == k.room.stateRevision && k.id !in c.retired
  }

  ghost predicate Proper(now: int, commands: seq<Command>, c: Client) {
    Tidy(c) && ShownOk(now, commands, c)
  }

  /** A client that shows a room the server held and that has not ended. */
  ghost predicate Established(now: int, commands: seq<Command>, id: RoomId, c: Client) {
    && Proper(now, commands, c)
    && c.shown.Some? && c.shown.value.id == id && c.shown.value.room.status != Status.Ended
  }

  lemma {:induction false} RetireKeeps(retired: seq<RoomId>, id: RoomId)
    requires |retired| <= RETIRED_LIMIT
    requires forall i, j :: 0 <= i < j < |retired| ==> retired[i] != retired[j]
    ensures Retire(retired, id) ==
            if id in retired then retired else (if |retired| < RETIRED_LIMIT then retired else retired[1..]) + [id]
    ensures |Retire(retired, id)| <= RETIRED_LIMIT && id in Retire(retired, id)
    ensures forall i, j :: 0 <= i < j < |Retire(retired, id)| ==> Retire(retired, id)[i] != Retire(retired, id)[j]
  {
    if id !in retired {
      if |retired| == RETIRED_LIMIT {
        assert (retired + [id])[1..] == retired[1..] + [id];
      }
      var kept := Retire(retired, id);
      assert kept[|kept| - 1] == id;
    }
  }

  lemma {:induction false} TerminatedIsProper(now: int, commands: seq<Command>, c: Client, id: RoomId)
    requires Tidy(c)
    ensures Proper(now, commands, Terminated(c, id)) && id in Terminated(c, id).retired
  {
    RetireKeeps(c.retired, id);
    hide Retire;
  }

  lemma NewClientIsProper(now: int, commands: seq<Command>)
    ensures Proper(now, commands, NewClient())
  {
  }

  /** Genuine frames, of any rooms, keep a client proper. */
  lemma {:induction false} ReceiveKeepsProper(now: int, commands: seq<Command>, c: Client, f: Frame)
    requires Proper(now, commands, c) && Genuine(now, commands, f)
    ensures Proper(now, commands, Receive(c, f))
  {
    hide Held, Retire, Terminated;
    TerminatedIsProper(now, commands, c, RoomOf(f));
    if f.Event? && f.reference { TerminatedIgnoresShown(c, f.snapshot); }
    if IsSnapshot(f) && c.shown.Some? && c.shown.value.room.status == Status.Ended && c.shown.value.id == f.snapshot.id {
      EndIsNewer(now, commands, f.snapshot, c.shown.value);
    }
  }

  lemma TerminatedIgnoresShown(c: Client, k: Known)
    ensures Terminated(c.(shown := Some(k)), k.id) == Terminated(c, k.id)
  {
  }

  // ----- Following one room -----

  lemma {:induction false} EndIsSeen(now: int, commands: seq<Command>, id: RoomId, c: Client, f: Frame)
    requires Established(now, commands, id, c) && Genuine(now, commands, f) && EndsRoom(f, id)
    ensures Receive(c, f) == Terminated(c, id) && id in Terminated(c, id).retired
  {
    TerminatedIsProper(now, commands, c, id);
    hide Held, KnownEnd, Terminated;
    match f {
      case Event(_, reference, k) =>
        EndIsNewer(now, commands, c.shown.value, k);
        TerminatedIgnoresShown(c, k);
      case Ended(_, generation, revision) =>
        var k: Known :| Held(now, commands, k) && Announces(k, id, generation)
                        && k.room.status == Status.Ended && k.room.stateRevision == revision;
        HeldCompatible(now, commands, c.shown.value, k);
      case SyncedEnded(_, generation) =>
        var k: Known :| Held(now, commands, k) && Announces(k, id, generation);
        HeldCompatible(now, commands, c.shown.value, k);
    }
  }

  lemma {:induction false} SnapshotIsWeighed(now: int, commands: seq<Command>, id: RoomId, c: Client, f: Frame)
    requires Established(now, commands, id, c) && Genuine(now, commands, f) && Updates(f, id)
    ensures var d := Receive(c, f);
            && Established(now, commands, id, d) && d.retired == c.retired
            && c.applied <= d.applied && f.snapshot.room.stateRevision <= d.applied
            && (d.shown == c.shown || d.shown == Some(f.snapshot))
  {
    hide Held, KnownEnd;
    HeldCompatible(now, commands, c.shown.value, f.snapshot);
  }

  /** A frame of another room does nothing to a client that shows one, unless it forces
      itself on the client. */
  lemma {:induction false} OtherRoomIsIgnored(c: Client, f: Frame)
    requires c.shown.Some? && RoomOf(f) != c.shown.value.id && !IsForced(f)
    ensures Receive(c, f) == c
  {
  }

  /** What a late full end of another room does: it takes the call down with it, or stays
      shown so that no snapshot of the client's own room is accepted any more. */
  lemma {:induction false} IntruderDisplaces(now: int, commands: seq<Command>, id: RoomId, c: Client, f: Frame)
    requires Established(now, commands, id, c) && Genuine(now, commands, f) && Intrudes(f, id)
    ensures var d := Receive(c, f);
            if f.snapshot.room.stateRevision > c.applied then d == Terminated(c, RoomOf(f)) && id !in d.retired
            else d == c.(shown := Some(f.snapshot)) && forall g :: Updates(g, id) ==> Receive(d, g) == d
  {
    RetireKeeps(c.retired, RoomOf(f));
    hide Held, KnownEnd, Retire;
    var d := Receive(c, f);
    forall g | f.snapshot.room.stateRevision <= c.applied && Updates(g, id) ensures Receive(d, g) == d {
      OtherRoomIsIgnored(d, g);
    }
  }

  /** How many frames come before the first end of the room. */
  function BeforeEnd(frames: seq<Frame>, id: RoomId): (n: nat)
    ensures n <= |frames|
    decreases |frames|
  {
    if frames == [] || EndsRoom(frames[0], id) then 0 else 1 + BeforeEnd(frames[1..], id)
  }

  /** Whether a full end of another room with a support reference comes before the first end
      of the room. */
  predicate Disturbed(frames: seq<Frame>, id: RoomId)
    decreases |frames|
  {
    frames != [] && !EndsRoom(frames[0], id) && (Intrudes(frames[0], id) || Disturbed(frames[1..], id))
  }

  /** The client shows the room at every moment until its first end arrives. */
  predicate KeepsRoom(c: Client, frames: seq<Frame>, id: RoomId)
    decreases |frames|
  {
    && c.shown.Some? && c.shown.value.id == id
    && (frames != [] && !EndsRoom(frames[0], id) ==> KeepsRoom(Receive(c, frames[0]), frames[1..], id))
  }

  lemma {:induction false} FrameKeepsEstablished(now: int, commands: seq<Command>, id: RoomId, c: Client, f: Frame)
    requires Established(now, commands, id, c) && Genuine(now, commands, f) && !EndsRoom(f, id) && !Intrudes(f, id)
    ensures var d := Receive(c, f);
            && Established(now, commands, id, d) && d.retired == c.retired
            && c.applied <= d.applied && (Updates(f, id) ==> f.snapshot.room.stateRevision <= d.applied)
            && (d.shown == c.shown || (Updates(f, id) && d.shown == Some(f.snapshot)))
  {
    hide Proper, Genuine;
    if RoomOf(f) == id {
      SnapshotIsWeighed(now, commands, id, c, f);
    } else {
      OtherRoomIsIgnored(c, f);
    }
    hide Receive;
  }

  /** An established room never regresses or switches because of a late frame exactly when
      no full end of another room with a support reference arrives before its own end. */
  lemma {:induction false} RoomIsKeptExactly(now: int, commands: seq<Command>, id: RoomId, c: Client, frames: seq<Frame>)
    requires Established(now, commands, id, c)
    requires forall f <- frames :: Genuine(now, commands, f)
    ensures KeepsRoom(c, frames, id) <==> !Disturbed(frames, id)
    decreases |frames|
  {
    hide Proper, Genuine, Receive, Terminated;
    if frames != [] && !EndsRoom(frames[0], id) {
      var f := frames[0];
      assert Genuine(now, commands, f);
      if Intrudes(f, id) {
        IntruderDisplaces(now, commands, id, c, f);
        ShownAfterIntruder(c, f);
      } else {
        FrameKeepsEstablished(now, commands, id, c, f);
        RoomIsKeptExactly(now, commands, id, Receive(c, f), frames[1..]);
      }
    }
  }

  lemma ShownAfterIntruder(c: Client, f: Frame)
    requires IsForced(f)
    ensures var d := Receive(c, f); d.shown.None? || d.shown.value.id == RoomOf(f)
  {
  }

  /** Where genuine frames of any rooms leave an established client that keeps its room: up
      to the first end of the room it shows the newest of what it showed and received of it,
      and that end terminates it. */
  lemma {:induction false} EstablishedClientConverges(now: int, commands: seq<Command>, id: RoomId, c: Client, frames: seq<Frame>)
    requires Established(now, commands, id, c)
    requires (forall f <- frames :: Genuine(now, commands, f)) && !Disturbed(frames, id)
    ensures var n := BeforeEnd(frames, id);
            var d := ReceiveAll(c, frames[..n]);
            && Established(now, commands, id, d) && d.retired == c.retired
            && (d.shown == c.shown || exists f <- frames[..n] :: Updates(f, id) && d.shown == Some(f.snapshot))
            && c.applied <= d.applied
            && (forall f <- frames[..n] :: Updates(f, id) ==> f.snapshot.room.stateRevision <= d.applied)
            && (n < |frames| ==> Receive(d, frames[n]) == Terminated(c, id))
    decreases |frames|
  {
    hide Established, Genuine, Receive, Intrudes, Updates;
    var n := BeforeEnd(frames, id);
    if frames == [] {
    } else if EndsRoom(frames[0], id) {
      assert frames[..n] == [];
      EndIsSeen(now, commands, id, c, frames[0]);
    } else {
      var f, rest := frames[0], frames[1..];
      assert Genuine(now, commands, f);
      FrameKeepsEstablished(now, commands, id, c, f);
      EstablishedClientConverges(now, commands, id, Receive(c, f), rest);
      assert frames[..n][0] == f && frames[..n][1..] == rest[..n - 1];
      assert forall g :: g in frames[..n] <==> g == f || g in rest[..n - 1];
    }
  }

  /** Order, duplication and loss of older frames make no difference, whichever rooms the
      other frames are about: two clients that start alike and receive the same frames, each
      in any order and any number of times, show the same room, as long as none ends it or
      forces another room on them. */
  lemma {:induction false} OrderDoesNotMatter(now: int, commands: seq<Command>, id: RoomId, c: Client, p: seq<Frame>, q: seq<Frame>)
    requires Established(now, commands, id, c)
    requires forall f <- p :: Genuine(now, commands, f) && !EndsRoom(f, id) && !Intrudes(f, id)
    requires forall f :: f in p <==> f in q
    ensures ReceiveAll(c, p).shown == ReceiveAll(c, q).shown && ReceiveAll(c, p).retired == ReceiveAll(c, q).retired
  {
    Untouched(p, id);
    Untouched(q, id);
    hide ReceiveAll, Genuine, BeforeEnd, Disturbed;
    assert p[..|p|] == p && q[..|q|] == q;
    EstablishedClientConverges(now, commands, id, c, p);
    EstablishedClientConverges(now, commands, id, c, q);
    SameNewest(now, commands, id, c, p, ReceiveAll(c, p), ReceiveAll(c, q));
  }

  lemma {:induction false} Untouched(frames: seq<Frame>, id: RoomId)
    requires forall f <- frames :: !EndsRoom(f, id) && !Intrudes(f, id)
    ensures BeforeEnd(frames, id) == |frames| && !Disturbed(frames, id)
    decreases |frames|
  {
    if frames != [] { Untouched(frames[1..], id); }
  }

  lemma {:induction false} SameNewest(now: int, commands: seq<Command>, id: RoomId, c: Client, p: seq<Frame>, d: Client, e: Client)
    requires Established(now, commands, id, c) && Established(now, commands, id, d) && Established(now, commands, id, e)
    requires c.applied <= d.applied && c.applied <= e.applied
    requires forall f <- p :: Updates(f, id) ==> f.snapshot.room.stateRevision <= d.applied && f.snapshot.room.stateRevision <= e.applied
    requires d.shown == c.shown || exists f <- p :: Updates(f, id) && d.shown == Some(f.snapshot)
    requires e.shown == c.shown || exists f <- p :: Updates(f, id) && e.shown == Some(f.snapshot)
    ensures d.shown == e.shown
  {
    hide Held, KnownEnd;
    HeldCompatible(now, commands, d.shown.value, e.shown.value);
  }

  // ----- A late end of another room, from start to finish -----

  function OneSocket(): Socket {
    Socket(Participant(1, 1), 1)
  }

  /** User 1 starts room 2, which expires and is swept. */
  function FirstCall(): seq<Command> {
    [Acquire([1], 7), StartGroup(2, 20, 1, 1, OneSocket(), 7), Wait(40_000), SweepRooms([2], 10)]
  }

  /** Then the user starts room 3. */
  function SecondCall(): seq<Command> {
    [Acquire([1], 8), StartGroup(3, 30, 1, 1, OneSocket(), 8)]
  }

  function LateEndCommands(): seq<Command> {
    FirstCall() + SecondCall()
  }

  function FirstRoom(): Room {
    Room(20, 1, 1, 1, Status.Ringing, 30_000, [Participant(1, 1)], [OneSocket()], None, [], [], 90_000)
  }

  function SecondRoom(): Room {
    Room(30, 1, 1, 1, Status.Ringing, 70_000, [Participant(1, 1)], [OneSocket()], None, [], [], 130_000)
  }

  ghost predicate FirstIsOver(w: World) {
    && w.store.rooms == map[2 := ClosedRoom(FirstRoom(), 40_000, true, false)] && w.store.now == 40_000
    && w.store.roomUsers == map[] && w.store.roomConversations == map[] && w.store.callUsers == map[]
    && w.store.admissions == map[] && w.usedRooms == {2}
  }

  function FirstStore(): Store {
    Store(0, map[], map[], map[], map[], map[1 := Hold(7, 2_000)],
          map[2 := FirstRoom()], map[1 := Hold(2, 90_000)], map[20 := Hold(2, 90_000)], map[2 := 30_000])
  }

  lemma {:induction false} FirstCallRuns()
    ensures FirstIsOver(Run(Initial(0), FirstCall()))
  {
    var commands := FirstCall();
    FirstStarts();
    FirstTick();
    hide FirstStore;
    var w1 := Step(Initial(0), commands[0]);
    var w2 := Step(w1, commands[1]);
    var w3 := w2.(store := FirstStore().(now := 40_000, admissions := map[]));
    assert Step(w2, commands[2]) == w3 by { hide AcquireAdmission, StartRoom, Tick, Initial; }
    FirstSweep(w3);
    hide Step, FirstIsOver;
    RunStep(Initial(0), commands);
    RunStep(w1, commands[1..]);
    RunStep(w2, commands[2..]);
    RunStep(w3, commands[3..]);
    assert commands[1..][1..] == commands[2..] && commands[2..][1..] == commands[3..] && commands[3..][1..] == [];
  }

  lemma FirstStarts()
    ensures var w := Step(Step(Initial(0), FirstCall()[0]), FirstCall()[1]);
            w.store == FirstStore() && w.usedRooms == {2}
  {
    var w := Step(Initial(0), FirstCall()[0]);
    assert w.store == Empty(0).(admissions := map[1 := Hold(7, 2_000)]) && w.usedRooms == {};
  }

  lemma FirstTick()
    ensures Tick(FirstStore(), 40_000) == FirstStore().(now := 40_000, admissions := map[])
  {
  }

  lemma {:induction false} FirstSweep(w: World)
    requires w.store == FirstStore().(now := 40_000, admissions := map[]) && w.usedRooms == {2}
    ensures FirstIsOver(Step(w, SweepRooms([2], 10)))
  {
    var s := w.store;
    assert DueBatch(s.roomExpiry, s.now, [2], 10) && Expired(s, 2);
    assert [2][1..] == [];
    assert ExpireRooms(s, [2]).store == ExpireRoom(s, 2);
    assert ReleaseAll(s.roomUsers, Users(FirstRoom().participants), 2) == map[] by {
      assert Participant(1, 1) in FirstRoom().participants;
    }
  }

  lemma RunStep(w: World, commands: seq<Command>)
    requires commands != []
    ensures Run(w, commands) == Run(Step(w, commands[0]), commands[1..])
  {
    hide Step;
  }

  lemma {:induction false} SecondCallRuns(w: World)
    requires FirstIsOver(w)
    ensures Run(w, SecondCall()).store.rooms == w.store.rooms[3 := SecondRoom()]
  {
    var commands := SecondCall();
    var w1 := w.(store := w.store.(admissions := map[1 := Hold(8, 42_000)]));
    SecondAdmission(w);
    SecondStarts(w1);
    hide Step, FirstIsOver;
    RunStep(w, commands);
    RunStep(w1, commands[1..]);
    assert commands[1..][1..] == [];
  }

  lemma SecondAdmission(w: World)
    requires FirstIsOver(w)
    ensures Step(w, SecondCall()[0]) == w.(store := w.store.(admissions := map[1 := Hold(8, 42_000)]))
  {
  }

  lemma SecondStarts(w: World)
    requires FirstIsOver(w.(store := w.store.(admissions := map[]))) && w.store.admissions == map[1 := Hold(8, 42_000)]
    ensures Step(w, SecondCall()[1]).store.rooms == w.store.rooms[3 := SecondRoom()]
  {
  }

  lemma {:induction false} LateEndRun()
    ensures var rooms := Run(Initial(0), LateEndCommands()).store.rooms;
            2 in rooms && rooms[2] == LateEnd().snapshot.room && 3 in rooms && rooms[3] == SecondRoom()
  {
    FirstCallRuns();
    RunOfConcat(Initial(0), FirstCall(), SecondCall());
    SecondCallRuns(Run(Initial(0), FirstCall()));
    hide Run, Step;
  }

  function LateEnd(): Frame {
    Event(Final, true, Known(2, ClosedRoom(FirstRoom(), 40_000, true, false)))
  }

  /** The end of room 2 arrives late, while the user shows room 3: the call in room 3 is torn
      down, though the server has neither ended nor changed it. */
  lemma {:induction false} LateEndTearsDownAnotherCall()
    ensures var c := Receive(NewClient(), Event(Started, true, Known(3, SecondRoom())));
            && Established(0, LateEndCommands(), 3, c) && Genuine(0, LateEndCommands(), LateEnd())
            && Receive(c, LateEnd()) == Terminated(c, 2) && 3 !in Receive(c, LateEnd()).retired
  {
    hide Run, Held;
    LateEndRun();
    HeldAtTheEnd(0, LateEndCommands(), Known(3, SecondRoom()));
    HeldAtTheEnd(0, LateEndCommands(), LateEnd().snapshot);
    assert EndOf(LateEnd().snapshot, LateEnd().snapshot);
  }

  /** When room 3 has moved on to the same revision, the ended room 2 stays shown instead,
      and the next snapshot of room 3 is refused. */
  lemma {:induction false} LateEndReplacesAnotherCall()
    ensures var commands := LateEndCommands() + [Present(3, OneSocket(), true)];
            var room := SecondRoom().(stateRevision := 2, presenter := Some(Participant(1, 1)));
            var c := Receive(NewClient(), Event(Started, true, Known(3, room)));
            var d := Receive(c, LateEnd());
            && Established(0, commands, 3, c) && Genuine(0, commands, LateEnd())
            && d.shown == Some(LateEnd().snapshot)
            && Receive(d, Event(Changed, true, Known(3, room.(stateRevision := 3, presenter := None)))) == d
  {
    var present := [Present(3, OneSocket(), true)];
    var commands := LateEndCommands() + present;
    var room := SecondRoom().(stateRevision := 2, presenter := Some(Participant(1, 1)));
    LateEndRun();
    RunOfConcat(Initial(0), LateEndCommands(), present);
    PresentRuns(Run(Initial(0), LateEndCommands()));
    hide Run, Step;
    HeldAtTheEnd(0, commands, Known(3, room));
    HeldAtTheEnd(0, commands, LateEnd().snapshot);
    hide Held;
    assert EndOf(LateEnd().snapshot, LateEnd().snapshot);
  }

  lemma PresentRuns(w: World)
    requires 3 in w.store.rooms && w.store.rooms[3] == SecondRoom()
    ensures Run(w, [Present(3, OneSocket(), true)]).store.rooms ==
            w.store.rooms[3 := SecondRoom().(stateRevision := 2, presenter := Some(Participant(1, 1)))]
  {
    var present := [Present(3, OneSocket(), true)];
    assert Step(w, present[0]).store.rooms == w.store.rooms[3 := SecondRoom().(stateRevision := 2, presenter := Some(Participant(1, 1)))];
    hide Step;
    assert present[1..] == [];
  }

  lemma HeldAtTheEnd(now: int, commands: seq<Command>, k: Known)
    requires var rooms := Run(Initial(now), commands).store.rooms; k.id in rooms && rooms[k.id] == k.room
    ensures Held(now, commands, k)
  {
    assert commands[..|commands|] == commands;
    hide Run;
    assert HeldAt(now, commands, |commands|, k);
  }

  // ----- After the end -----

  /** Nothing is under way any more. */
  predicate IsOver(c: Client) {
    c == Client(Over, 0, 0, false, false, false, None, -1, c.retired)
  }

  /** What one more frame of an ended room does to a client without a room: a full end with
      a support reference ends whatever is under way, any other frame does nothing. */
  lemma {:induction false} EndedRoomAgain(c: Client, f: Frame)
    requires Tidy(c) && c.shown.None? && RoomOf(f) in c.retired
    requires f.Event? ==> 0 < f.snapshot.room.stateRevision
    ensures Receive(c, f) == if IsForced(f) then Terminated(c, RoomOf(f)) else c
    ensures IsOver(Terminated(c, RoomOf(f))) && Terminated(c, RoomOf(f)).retired == c.retired
  {
    RetireKeeps(c.retired, RoomOf(f));
    hide Retire;
  }

  /** Frames of a room after its end was seen change nothing exactly when none of them is a
      full end with a support reference or nothing was under way; otherwise all of it is
      dropped. */
  lemma {:induction false} EndedRoomIsIgnoredExactly(c: Client, id: RoomId, frames: seq<Frame>)
    requires Tidy(c) && c.shown.None? && id in c.retired
    requires forall f <- frames :: RoomOf(f) == id && (f.Event? ==> 0 < f.snapshot.room.stateRevision)
    ensures ReceiveAll(c, frames) == if exists f <- frames :: IsForced(f) then Terminated(c, id) else c
    ensures ReceiveAll(c, frames) == c <==> (forall f <- frames :: !IsForced(f)) || IsOver(c)
    decreases |frames|
  {
    TerminatedIsTidy(c, id);
    hide Receive, Terminated, Tidy, IsForced;
    if frames != [] {
      var f, rest := frames[0], frames[1..];
      assert forall g :: g in frames <==> g == f || g in rest;
      EndedRoomAgain(c, f);
      EndedRoomIsIgnoredExactly(Receive(c, f), id, rest);
    }
  }

  lemma {:induction false} TerminatedIsTidy(c: Client, id: RoomId)
    requires Tidy(c) && id in c.retired
    ensures var d := Terminated(c, id);
            Tidy(d) && d.shown.None? && d.retired == c.retired && IsOver(d) && Terminated(d, id) == d && (IsOver(c) <==> d == c)
  {
    RetireKeeps(c.retired, id);
    hide Retire;
  }

  /** A second full end of a room that is over cancels the discovery the user has begun in
      another conversation; without the support reference it does not. */
  lemma {:induction false} RepeatedEndCancelsDiscovery(c: Client, conversation: ConversationId, self: UserId, k: Known)
    requires Tidy(c) && IsOver(c) && k.id in c.retired && k.room.status == Status.Ended && 0 < k.room.stateRevision
    ensures var d := Discover(c, conversation, self);
            && d.discovering && d.phase == Requesting && d.conversation == conversation
            && Receive(d, Event(Final, false, k)) == d
            && Receive(d, Event(Final, true, k)) == c
  {
    var d := Discover(c, conversation, self);
    EndedRoomAgain(d, Event(Final, false, k));
    EndedRoomAgain(d, Event(Final, true, k));
  }

  // ----- Rooms that ended long ago -----

  predicate Retires(c: Client, f: Frame) {
    Receive(c, f).retired != c.retired
  }

  /** How often the frames add a room to the list of retired ones. */
  function Retirements(c: Client, frames: seq<Frame>): nat
    decreases |frames|
  {
    if frames == [] then 0 else (if Retires(c, frames[0]) then 1 else 0) + Retirements(Receive(c, frames[0]), frames[1..])
  }

  /** Somewhere among the frames a delayed start of the room would be taken. */
  predicate ComesBack(c: Client, frames: seq<Frame>, k: Known)
    decreases |frames|
  {
    Receive(c, Event(Started, true, k)).shown == Some(k) || (frames != [] && ComesBack(Receive(c, frames[0]), frames[1..], k))
  }

  lemma {:induction false} RetiredIsRefused(now: int, commands: seq<Command>, c: Client, k: Known)
    requires Proper(now, commands, c) && k.id in c.retired && Held(now, commands, k) && k.room.status != Status.Ended
    ensures Receive(c, Event(Started, true, k)).shown != Some(k)
  {
    hide Held, KnownEnd;
    if c.shown.Some? && c.shown.value.id == k.id {
      EndIsNewer(now, commands, k, c.shown.value);
    }
  }

  lemma {:induction false} RetiringEnds(c: Client, f: Frame)
    requires Tidy(c) && Retires(c, f)
    ensures RoomOf(f) !in c.retired && IsOver(Receive(c, f))
    ensures Receive(c, f).retired == (if |c.retired| < RETIRED_LIMIT then c.retired else c.retired[1..]) + [RoomOf(f)]
  {
    RetireKeeps(c.retired, RoomOf(f));
    hide Retire;
  }

  /** A retired room stays away exactly as long as fewer than 32 rooms have been retired
      after it: a delayed start is taken at some point among genuine frames of any rooms if
      and only if the rooms already listed after it and those the frames retire, shown or
      not, number 32. */
  lemma {:induction false} RetiredStays(now: int, commands: seq<Command>, c: Client, i: nat, frames: seq<Frame>, k: Known)
    requires Proper(now, commands, c) && i < |c.retired| && c.retired[i] == k.id
    requires forall f <- frames :: Genuine(now, commands, f)
    requires Held(now, commands, k) && k.room.status != Status.Ended && 0 < k.room.stateRevision
    ensures ComesBack(c, frames, k) <==> |c.retired| - 1 - i + Retirements(c, frames) >= RETIRED_LIMIT
    decreases |frames|
  {
    RetiredIsRefused(now, commands, c, k);
    if frames != [] {
      var f, d := frames[0], Receive(c, frames[0]);
      assert Genuine(now, commands, f);
      ReceiveKeepsProper(now, commands, c, f);
      hide Held, KnownEnd, Genuine, ShownOk;
      if !Retires(c, f) {
        hide Receive;
        RetiredStays(now, commands, d, i, frames[1..], k);
      } else {
        RetiringEnds(c, f);
        if |c.retired| < RETIRED_LIMIT {
          hide Receive;
          RetiredStays(now, commands, d, i, frames[1..], k);
        } else if i > 0 {
          hide Receive;
          RetiredStays(now, commands, d, i - 1, frames[1..], k);
        } else {
          assert k.id !in d.retired;
          assert Receive(d, Event(Started, true, k)).shown == Some(k);
        }
      }
    }
  }
}
