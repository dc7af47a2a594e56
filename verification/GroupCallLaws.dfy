/** Which snapshots a browser takes, and what it does with them. */
module GroupCallLaws {
  import opened Options
  import opened CallStore
  import opened CallRuns
  import opened GroupCallClient

  /** The answer this client waits for: the start of a room, or its own join. */
  predicate Awaited(c: Client, kind: Kind, k: Known) {
    kind == Started || (kind == Joined && c.phase == Joining && exists p <- k.room.participants :: p.user == c.self)
  }

  /** What taking a snapshot makes of a client: the microphone decides between ringing and
      active; a start that comes out of the blue rings. */
  predicate Took(c: Client, kind: Kind, k: Known, d: Client) {
    var unasked := kind == Started && Free(c.phase);
    && d.shown == Some(k) && d.applied == k.room.stateRevision
    && d.media == (c.media && !unasked)
    && d.phase == (if d.media then Phase.Active else Phase.Ringing)
    && d.requested == (c.requested && !Awaited(c, kind, k))
    && d.discovering == c.discovering && d.conversation == c.conversation && d.self == c.self && d.retired == c.retired
  }

  /** A client that follows a room takes exactly its newer live snapshots, and the answer to
      its own synchronization when that is not older. */
  lemma {:induction false} SnapshotIsTakenExactly(now: int, commands: seq<Command>, id: RoomId, c: Client, f: Frame)
    requires Established(now, commands, id, c) && Genuine(now, commands, f) && Updates(f, id)
    ensures var d := Receive(c, f);
            var revision := f.snapshot.room.stateRevision;
            match f
            case Event(kind, _, k) => if revision > c.applied then Took(c, kind, k, d) else d == c
            case _ =>
              if revision >= c.applied
              then d == c.(shown := Some(f.snapshot), applied := revision, phase := if c.media then Phase.Active else Phase.Ringing)
              else d == c
  {
    hide Held, KnownEnd;
    HeldCompatible(now, commands, c.shown.value, f.snapshot);
  }

  /** A client without a room adopts exactly the start of one that it has not seen end, when
      it is free, or asks or is called in that conversation. */
  lemma {:induction false} StartIsAdoptedExactly(now: int, commands: seq<Command>, c: Client, f: Frame)
    requires Proper(now, commands, c) && c.shown.None? && Genuine(now, commands, f) && IsSnapshot(f)
    ensures var d := Receive(c, f);
            if f.Event? && f.kind == Started && f.snapshot.id !in c.retired
               && (c.phase in {Idle, Left, Over, Failed}
                   || (c.phase in {Requesting, Phase.Ringing} && f.snapshot.room.conversation == c.conversation))
            then Took(c, Started, f.snapshot, d)
            else d == c
  {
    hide Held, KnownEnd;
  }

  /** Frames under the right identifier but of another generation do nothing, and neither does
      a synchronized room of another conversation. */
  lemma {:induction false} OtherGenerationIsIgnored(c: Client, f: Frame)
    requires c.shown.Some? && RoomOf(f) == c.shown.value.id && !IsForced(f)
    requires match f
             case Event(_, _, k) => k.room.generation != c.shown.value.room.generation
             case Ended(_, generation, _) => generation != c.shown.value.room.generation
             case Synced(k) => k.room.generation != c.shown.value.room.generation || k.room.conversation != c.shown.value.room.conversation
             case SyncedEnded(_, generation) => generation != c.shown.value.room.generation
    ensures Receive(c, f) == c
  {
  }

  /** A search is begun exactly by a client that is free or ringing and not searching; it
      forgets the room shown and then adopts the first live start in its conversation that it
      has not seen end, and no start elsewhere. */
  lemma {:induction false} SearchFindsItsConversation(c: Client, conversation: ConversationId, self: UserId, reference: bool, k: Known)
    requires k.room.status != Status.Ended && 0 < k.room.stateRevision
    ensures var d := Discover(c, conversation, self);
            if c.phase in {Idle, Left, Over, Failed, Phase.Ringing} && !c.discovering then
              && d == Client(Requesting, conversation, self, false, c.requested, true, None, -1, c.retired)
              && (Receive(d, Event(Started, reference, k)).shown == Some(k) <==> k.room.conversation == conversation && k.id !in c.retired)
              && Discover(d, conversation, self) == d
            else d == c
  {
  }
}
