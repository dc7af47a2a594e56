/** What the keys with a deadline do for the two machines: the device keys by which a lost
    browser finds its call, the admissions, and what the clock and the sweep take away. */
module KeyLaws {
  import opened Options
  import opened CallStore
  import opened CallInvariant
  import opened RoomInvariant
  import opened CallRuns
  import opened CallHistory
  import opened CallLaws

  // ----- Device keys -----

  ghost predicate DeviceHolds(s: Store, d: Participant, id: CallId, at: int) {
    d in s.callDevices && s.callDevices[d].id == id && at <= s.callDevices[d].until
  }

  ghost predicate DevicesHeld(s: Store, id: CallId)
    requires id in s.calls
  {
    var c := s.calls[id];
    c.status != Ended && s.now < c.expiresAt ==>
      && DeviceHolds(s, Participant(c.caller, c.callerEndpoint.device), id, c.expiresAt)
      && (c.accepted.Some? ==> DeviceHolds(s, Participant(c.recipient, c.accepted.value.device), id, c.expiresAt))
  }

  ghost predicate DeviceKeysOk(s: Store) {
    forall id <- s.calls :: DevicesHeld(s, id)
  }

  lemma {:induction false} SameDevices(s: Store, t: Store)
    requires DeviceKeysOk(s) && t.now == s.now && t.calls == s.calls && t.callDevices == s.callDevices
    ensures DeviceKeysOk(t)
  {
    forall id <- t.calls ensures DevicesHeld(t, id) { assert DevicesHeld(s, id); }
  }

  lemma {:induction false} ClosingKeepsDevices(s: Store, id: CallId, devices: set<Participant>)
    requires DeviceKeysOk(s) && id in s.calls
    ensures DeviceKeysOk(CloseCall(s, id, devices))
  {
    var t := CloseCall(s, id, devices);
    forall other <- t.calls ensures DevicesHeld(t, other) { assert DevicesHeld(s, other); }
  }

  lemma {:induction false} ExpiringKeepsDevices(s: Store, ids: seq<CallId>)
    requires DeviceKeysOk(s)
    ensures DeviceKeysOk(ExpireCalls(s, ids))
    decreases |ids|
  {
    hide CloseCall, Devices, DeviceKeysOk;
    if ids != [] {
      if ids[0] in s.calls { ClosingKeepsDevices(s, ids[0], Devices(s.calls[ids[0]])); }
      else { SameDevices(s, ExpireCall(s, ids[0])); }
      ExpiringKeepsDevices(ExpireCall(s, ids[0]), ids[1..]);
    }
  }

  lemma {:induction false} RecoveryKeepsDevices(s: Store, caller: UserId, recipient: UserId, online: Presence)
    requires DeviceKeysOk(s)
    ensures DeviceKeysOk(Recovered(s, caller, recipient, online))
  {
    hide CloseCall, ReleaseAll, Devices, Stale, DeviceKeysOk;
    var holder := if caller in s.callUsers then caller else recipient;
    if holder in s.callUsers {
      var id := s.callUsers[holder].id;
      if id in s.calls { ClosingKeepsDevices(s, id, Devices(s.calls[id])); }
      else { SameDevices(s, s.(callUsers := ReleaseAll(s.callUsers, {caller, recipient}, id))); }
    }
  }

  /** A free caller's device is no device of another live call. */
  lemma {:induction false} RingingKeepsDevices(s: Store, id: CallId, conversation: ConversationId, caller: UserId, recipient: UserId,
                                               endpoint: Endpoint)
    requires Inv(s) && DeviceKeysOk(s) && id !in s.calls && caller !in s.callUsers
    ensures DeviceKeysOk(RingCall(s, id, conversation, caller, recipient, endpoint))
  {
    hide RoomsInv, CallUsersOk, CallDevicesOk, Exclusive;
    var t := RingCall(s, id, conversation, caller, recipient, endpoint);
    forall other <- t.calls ensures DevicesHeld(t, other) {
      if other != id {
        assert CallOk(s, other);
        assert DevicesHeld(s, other);
      }
    }
  }

  lemma {:induction false} StartingKeepsDevices(s: Store, id: CallId, conversation: ConversationId, caller: UserId, recipient: UserId,
                                                endpoint: Endpoint, token: Token, online: Presence)
    requires Inv(s) && DeviceKeysOk(s) && id !in s.calls
    ensures DeviceKeysOk(StartCall(s, id, conversation, caller, recipient, endpoint, token, online).store)
  {
    RecoveredKeeps(s, caller, recipient, online);
    RecoveryKeepsDevices(s, caller, recipient, online);
    hide Inv, Recovered, RingCall, DeviceKeysOk, Online, Admitted;
    if StartCall(s, id, conversation, caller, recipient, endpoint, token, online).reply == Done {
      RingingKeepsDevices(Recovered(s, caller, recipient, online), id, conversation, caller, recipient, endpoint);
    }
  }

  /** Both users of the accepted call hold its keys, so their devices are in no other. */
  lemma {:induction false} AcceptingKeepsDevices(s: Store, id: CallId, user: UserId, endpoint: Endpoint)
    requires Inv(s) && DeviceKeysOk(s)
    ensures DeviceKeysOk(AcceptCall(s, id, user, endpoint).store)
  {
    hide RoomsInv, CallUsersOk, CallDevicesOk, Exclusive;
    var t := AcceptCall(s, id, user, endpoint).store;
    if AcceptCall(s, id, user, endpoint).reply == Done {
      assert CallOk(s, id);
      forall other <- t.calls ensures DevicesHeld(t, other) {
        assert CallOk(s, other);
        assert DevicesHeld(s, other);
      }
    }
  }

  lemma {:induction false} TickKeepsDevices(s: Store, until: int)
    requires DeviceKeysOk(s)
    ensures DeviceKeysOk(Tick(s, until))
  {
    var t := Tick(s, until);
    forall id <- t.calls ensures DevicesHeld(t, id) { assert DevicesHeld(s, id); }
  }

  lemma {:induction false} StepKeepsDevices(w: World, c: Command)
    requires Inv(w.store) && Known(w) && DeviceKeysOk(w.store)
    ensures DeviceKeysOk(Step(w, c).store)
  {
    var s := w.store;
    hide DeviceKeysOk, Inv, CloseCall, Devices, StartCall, AcceptCall, ExpireCalls, Tick, AllDue, MayEnd, IsEndpoint;
    SameDevices(s, s);
    if RoomCommand(c) {
      RoomCommandLeavesCalls(w, c);
      SameDevices(s, Step(w, c).store);
      hide Step;
    } else {
      match c {
        case Wait(until) => TickKeepsDevices(s, until);
        case Acquire(users, token) => SameDevices(s, AcquireAdmission(s, users, token).store);
        case GiveBack(users, token) => SameDevices(s, ReleaseAdmission(s, users, token).store);
        case StartDirect(id, conversation, caller, recipient, endpoint, token, online) =>
          if id !in w.usedCalls { StartingKeepsDevices(s, id, conversation, caller, recipient, endpoint, token, online); }
        case Accept(id, user, endpoint) => AcceptingKeepsDevices(s, id, user, endpoint);
        case Decline(id, _) => if id in s.calls { ClosingKeepsDevices(s, id, {CallerDevice(s.calls[id])}); }
        case Cancel(id, _, _) => if id in s.calls { ClosingKeepsDevices(s, id, {CallerDevice(s.calls[id])}); }
        case EndDirect(id, _, _, _) => if id in s.calls { ClosingKeepsDevices(s, id, Devices(s.calls[id])); }
        case SweepCalls(ids) => ExpiringKeepsDevices(s, ids);
      }
    }
  }

  lemma {:induction false} RunKeepsDevices(w: World, commands: seq<Command>)
    requires Good(w) && DeviceKeysOk(w.store)
    ensures DeviceKeysOk(Run(w, commands).store)
    decreases |commands|
  {
    hide Step, DeviceKeysOk, Known, Inv, ClaimsOk, CallClaimsOk, AcceptancesOk;
    if commands != [] {
      StepKeepsDevices(w, commands[0]);
      StepGood(w, commands[0]);
      RunKeepsDevices(Step(w, commands[0]), commands[1..]);
    }
  }

  /** The browser a user takes part in a call with. */
  predicate Seat(c: Call, user: UserId, endpoint: Endpoint) {
    (user == c.caller && endpoint == c.callerEndpoint) || (user == c.recipient && c.accepted == Some(endpoint))
  }

  /** Over every run: a browser in a call that has not ended and is not due finds the call
      under its device's key, and may end it. */
  lemma {:induction false} DevicesReachTheirCall(now: int, commands: seq<Command>, id: CallId, user: UserId, endpoint: Endpoint, online: Presence)
    requires var s := At(now, commands);
             id in s.calls && s.calls[id].status != Ended && s.now < s.calls[id].expiresAt && Seat(s.calls[id], user, endpoint)
    ensures var s := At(now, commands);
            var device := Participant(user, endpoint.device);
            && device in s.callDevices && s.callDevices[device].id == id
            && EndCall(s, id, user, endpoint, online).reply == Done
  {
    InitialGood(now);
    RunKeepsDevices(Initial(now), commands);
    hide Run, Good, CloseCall, Devices;
    assert DevicesHeld(At(now, commands), id);
  }

  // ----- The clock -----

  ghost predicate AdmissionsOk(s: Store) {
    forall u <- s.admissions :: s.now < s.admissions[u].until <= s.now + 2_000
  }

  lemma {:induction false} StepKeepsAdmissions(w: World, c: Command)
    requires AdmissionsOk(w.store)
    ensures AdmissionsOk(Step(w, c).store)
  {
    if !c.Wait? && !c.Acquire? && !c.GiveBack? {
      AdmissionsUntouched(w, c);
      hide Step;
    } else if c.Acquire? {
      AdmissionIsExact(w.store, c.users, c.token);
    }
  }

  lemma {:induction false} AdmissionsUntouched(w: World, c: Command)
    requires !c.Wait? && !c.Acquire? && !c.GiveBack?
    ensures Undisturbed(w.store, Step(w, c).store)
  {
    if RoomCommand(c) {
      RoomCommandLeavesCalls(w, c);
      hide Step;
    } else {
      hide ReleaseAll, Devices, AllDue, MayEnd, IsEndpoint, Recovered, ExpireCalls, StartCall;
      if c.SweepCalls? {
        CallSweepLeavesAdmissions(w.store, c.ids);
      } else if c.StartDirect? {
        StartLeavesAdmissions(w.store, c.call, c.conversation, c.caller, c.recipient, c.endpoint, c.token, c.online);
      }
    }
  }

  predicate Undisturbed(s: Store, t: Store) {
    t.admissions == s.admissions && t.now == s.now
  }

  lemma CloseUndisturbed(s: Store, id: CallId, devices: set<Participant>)
    requires id in s.calls
    ensures Undisturbed(s, CloseCall(s, id, devices))
  {
  }

  lemma RingUndisturbed(s: Store, id: CallId, conversation: ConversationId, caller: UserId, recipient: UserId, endpoint: Endpoint)
    ensures Undisturbed(s, RingCall(s, id, conversation, caller, recipient, endpoint))
  {
  }

  lemma {:induction false} RecoveryUndisturbed(s: Store, id: CallId, caller: UserId, recipient: UserId, online: Presence)
    ensures Undisturbed(s, RecoverStaleCall(s, id, caller, recipient, online))
  {
    if id in s.calls { CloseUndisturbed(s, id, Devices(s.calls[id])); }
    hide CloseCall, ReleaseAll, Devices, Stale;
  }

  lemma {:induction false} StartLeavesAdmissions(s: Store, id: CallId, conversation: ConversationId, caller: UserId, recipient: UserId,
                                                 endpoint: Endpoint, token: Token, online: Presence)
    ensures Undisturbed(s, StartCall(s, id, conversation, caller, recipient, endpoint, token, online).store)
  {
    hide RecoverStaleCall, RingCall, Online, Admitted;
    var r := Recovered(s, caller, recipient, online);
    if caller in s.callUsers { RecoveryUndisturbed(s, s.callUsers[caller].id, caller, recipient, online); }
    if recipient in s.callUsers { RecoveryUndisturbed(s, s.callUsers[recipient].id, caller, recipient, online); }
    assert Undisturbed(s, r);
    RingUndisturbed(r, id, conversation, caller, recipient, endpoint);
    hide Recovered;
  }

  lemma {:induction false} CallSweepLeavesAdmissions(s: Store, ids: seq<CallId>)
    ensures Undisturbed(s, ExpireCalls(s, ids))
    decreases |ids|
  {
    hide ReleaseAll, Devices;
    if ids != [] { CallSweepLeavesAdmissions(ExpireCall(s, ids[0]), ids[1..]); }
  }

  lemma {:induction false} RunKeepsAdmissions(w: World, commands: seq<Command>)
    requires AdmissionsOk(w.store)
    ensures AdmissionsOk(Run(w, commands).store)
    decreases |commands|
  {
    hide Step, AdmissionsOk;
    if commands != [] {
      StepKeepsAdmissions(w, commands[0]);
      RunKeepsAdmissions(Step(w, commands[0]), commands[1..]);
    }
  }

  /** Over every run an admission lapses within two seconds of being given, so that after
      two seconds of waiting everybody can be admitted again. */
  lemma {:induction false} AdmissionsLapse(now: int, commands: seq<Command>, until: int)
    ensures var s := At(now, commands);
            && (forall u <- s.admissions :: s.now < s.admissions[u].until <= s.now + 2_000)
            && (s.now + 2_000 <= until ==> After(now, commands, Wait(until)).admissions == map[])
  {
    RunKeepsAdmissions(Initial(now), commands);
    hide Run;
  }

  ghost predicate Dropped<K(!new)>(before: map<K, Hold>, after: map<K, Hold>, until: int) {
    forall k :: if k in before && until < before[k].until then k in after && after[k] == before[k] else k !in after
  }

  /** Waiting drops exactly the keys whose deadline has come, and changes nothing else. */
  lemma {:induction false} WaitingDropsTheDue(now: int, commands: seq<Command>, until: int)
    requires At(now, commands).now <= until
    ensures var s, t := At(now, commands), After(now, commands, Wait(until));
            && t.now == until && t.callExpiry == s.callExpiry && t.roomExpiry == s.roomExpiry
            && Dropped(s.callUsers, t.callUsers, until) && Dropped(s.callDevices, t.callDevices, until)
            && Dropped(s.roomUsers, t.roomUsers, until) && Dropped(s.roomConversations, t.roomConversations, until)
            && Dropped(s.admissions, t.admissions, until)
            && (forall id :: if id in s.calls && until < s.calls[id].until then id in t.calls && t.calls[id] == s.calls[id] else id !in t.calls)
            && (forall id :: if id in s.rooms && until < s.rooms[id].until then id in t.rooms && t.rooms[id] == s.rooms[id] else id !in t.rooms)
  {
    hide Run;
  }

  // ----- What a sweep reports -----

  lemma {:induction false} ReadableAre(s: Store, ids: seq<CallId>)
    requires forall i, j :: 0 <= i < j < |ids| ==> ids[i] != ids[j]
    ensures var reported := Readable(s, ids);
            && (forall id :: id in reported <==> id in ids && id in s.calls)
            && (forall i, j :: 0 <= i < j < |reported| ==> reported[i] != reported[j])
    decreases |ids|
  {
    if ids != [] {
      var rest, last := ids[..|ids| - 1], ids[|ids| - 1];
      ReadableAre(s, rest);
      assert forall id :: id in ids <==> id in rest || id == last by { assert ids == rest + [last]; }
      assert last !in rest;
    }
  }

  /** The calls a sweep reports are exactly the stored ones of its batch, each once; it has
      ended every one of them. */
  lemma {:induction false} SweepReportsWhatItEnds(now: int, commands: seq<Command>, ids: seq<CallId>)
    requires AllDue(At(now, commands).callExpiry, At(now, commands).now, ids)
    ensures var s, t := At(now, commands), After(now, commands, SweepCalls(ids));
            var reported := Readable(t, ids);
            && t == ExpireCalls(s, ids)
            && (forall id :: id in reported <==> id in ids && id in s.calls)
            && (forall i, j :: 0 <= i < j < |reported| ==> reported[i] != reported[j])
            && (forall id <- reported :: id in t.calls && t.calls[id] == Over(s.calls[id], s.now))
  {
    hide Run;
    var s := At(now, commands);
    SweepFinishes(s, ids);
    ReadableAre(ExpireCalls(s, ids), ids);
    hide At, ExpireCalls, Readable;
    forall id <- s.calls ensures Swept(s, ExpireCalls(s, ids), ids, id) {}
  }

  /** They come in the order of the batch. */
  lemma {:induction false} ReportsKeepOrder(s: Store, a: seq<CallId>, b: seq<CallId>)
    ensures Readable(s, a + b) == Readable(s, a) + Readable(s, b)
    decreases |b|
  {
    if b == [] {
      assert a + b == a;
    } else {
      var rest, last := b[..|b| - 1], b[|b| - 1];
      assert (a + b)[..|a + b| - 1] == a + rest && (a + b)[|a + b| - 1] == last;
      ReportsKeepOrder(s, a, rest);
    }
  }
}
