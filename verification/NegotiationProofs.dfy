/** What every run of the negotiation keeps. */
module NegotiationProofs {
  import opened Negotiation

  // ----- Views of a queue -----

  /** The offers and answers of a queue, in order. */
  ghost function Descriptions(q: seq<Signal>): seq<Signal> {
    if q == [] then []
    else if q[0].Candidate? then Descriptions(q[1..])
    else [q[0]] + Descriptions(q[1..])
  }

  /** The candidates of a queue, in order. */
  ghost function Candidates(q: seq<Signal>): seq<nat> {
    if q == [] then []
    else if q[0].Candidate? then [q[0].candidate] + Candidates(q[1..])
    else Candidates(q[1..])
  }

  lemma {:induction false} DescriptionsOfConcat(a: seq<Signal>, b: seq<Signal>)
    ensures Descriptions(a + b) == Descriptions(a) + Descriptions(b)
    decreases |a|
  {
    if a == [] {
      assert a + b == b;
    } else {
      assert (a + b)[1..] == a[1..] + b;
      DescriptionsOfConcat(a[1..], b);
    }
  }

  lemma {:induction false} CandidatesOfConcat(a: seq<Signal>, b: seq<Signal>)
    ensures Candidates(a + b) == Candidates(a) + Candidates(b)
    decreases |a|
  {
    if a == [] {
      assert a + b == b;
    } else {
      assert (a + b)[1..] == a[1..] + b;
      CandidatesOfConcat(a[1..], b);
    }
  }

  /** What a peer has yet to apply: kept signals first, then the relay's queue. */
  ghost function Inbound(p: Peer, queue: seq<Signal>): seq<Signal> {
    p.pendingSignals + queue
  }

  // ----- The shape of glare -----

  ghost predicate Just(q: seq<Signal>, a: Signal) { |q| == 1 && q[0] == a }

  ghost predicate Both(q: seq<Signal>, a: Signal, b: Signal) { |q| == 2 && q[0] == a && q[1] == b }

  /** Everything in flight is accounted for: `down` is what the recipient has yet to
      apply and `up` what the caller has yet to apply.  The last line is glare already
      resolved by the recipient: a rolled-back offer, its answer, its renewed offer. */
  ghost predicate Shape(caller: Signaling, recipient: Signaling, down: seq<Signal>, up: seq<Signal>) {
    match (caller, recipient)
    case (Stable, Stable) => |down| == 0 && |up| == 0
    case (Stable, HaveLocalOffer(p)) =>
      || (|down| == 0 && Just(up, Offer(p)))
      || (Just(down, Answer(p)) && |up| == 0)
    case (HaveLocalOffer(o), Stable) =>
      || (Just(down, Offer(o)) && |up| == 0)
      || (|down| == 0 && Just(up, Answer(o)))
    case (HaveLocalOffer(o), HaveLocalOffer(p)) =>
      || (Just(down, Offer(o)) && Just(up, Offer(p)))
      || (Just(down, Offer(o)) && |up| == 0)
      || (Both(down, Answer(p), Offer(o)) && |up| == 0)
      || (|down| == 0 && Both(up, Answer(o), Offer(p)))
      || (|down| == 0 && |up| == 3 && up[0].Offer? && up[1] == Answer(o) && up[2] == Offer(p))
  }

  /** A peer between two steps: a renegotiation waits only behind an outstanding
      offer, and candidates wait exactly until a remote description is set. */
  ghost predicate Settled(p: Peer) {
    && (p.renegotiationPending ==> p.signaling != Stable)
    && (p.remoteReady ==> p.pendingCandidates == [])
    && (!p.remoteReady ==> p.added == [])
    && (p.signaling != Stable ==> p.signaling.local.number < p.offersSent)
  }

  ghost predicate Untouched(p: Peer) {
    p.(pendingSignals := []) == NewPeer(p.role)
  }

  // ----- Books: offers owed, candidates in order, descriptions applied -----

  ghost function Offers(q: seq<Signal>): nat {
    if q == [] then 0 else (if q[0].Offer? then 1 else 0) + Offers(q[1..])
  }

  lemma {:induction false} OffersOfConcat(a: seq<Signal>, b: seq<Signal>)
    ensures Offers(a + b) == Offers(a) + Offers(b)
    decreases |a|
  {
    if a == [] {
      assert a + b == b;
    } else {
      assert (a + b)[1..] == a[1..] + b;
      OffersOfConcat(a[1..], b);
    }
  }

  /** Offers made, plus the one a waiting renegotiation will still make. */
  ghost function Committed(p: Peer): nat {
    p.offersSent + if p.renegotiationPending then 1 else 0
  }

  ghost function Gathered(p: Peer): seq<nat> {
    p.added + p.pendingCandidates
  }

  /** The recipient owes at most one renewed offer for each offer of the caller it has
      applied; candidates are neither lost, repeated nor reordered; and remote
      descriptions are in place once the caller's first offer has been answered. */
  ghost predicate Books(caller: Peer, recipient: Peer, down: seq<Signal>, up: seq<Signal>, l: Ledger) {
    && Committed(caller) <= l.callerRequests
    && Committed(recipient) + Offers(down) <= l.recipientRequests + caller.offersSent
    && l.callerCandidates == Gathered(recipient) + Candidates(down)
    && l.recipientCandidates == Gathered(caller) + Candidates(up)
    && (forall s <- up :: s.Answer? ==> recipient.remoteReady)
    && (caller.offersSent > 0 && !recipient.remoteReady ==> caller.signaling != Stable)
    && (caller.offersSent > 0 && caller.signaling == Stable ==> caller.remoteReady)
  }

  /** The negotiation invariant over what each side has yet to apply. */
  ghost predicate Balanced(caller: Peer, recipient: Peer, down: seq<Signal>, up: seq<Signal>, l: Ledger) {
    && caller.role == Caller && recipient.role == Recipient
    && Settled(caller) && Settled(recipient)
    && Shape(caller.signaling, recipient.signaling, Descriptions(down), Descriptions(up))
    && Books(caller, recipient, down, up, l)
  }

  ghost predicate Inv(n: Net) {
    && Balanced(n.caller, n.recipient, Inbound(n.recipient, n.toRecipient), Inbound(n.caller, n.toCaller), n.ledger)
    && (if n.caller.connected then n.caller.pendingSignals == [] && n.caller.offersSent > 0 else Untouched(n.caller))
    && (if n.recipient.connected then n.recipient.pendingSignals == [] else Untouched(n.recipient))
  }

  lemma {:induction false} DescriptionsOfDescriptions(q: seq<Signal>)
    requires forall i :: 0 <= i < |q| ==> !q[i].Candidate?
    ensures Descriptions(q) == q
    decreases |q|
  {
    if q != [] {
      DescriptionsOfDescriptions(q[1..]);
    }
  }

  /** Kept signals count as still in flight, wherever they are stored. */
  lemma {:induction false} StorageIsIrrelevant(c: Peer, c': Peer, r: Peer, r': Peer, down: seq<Signal>, up: seq<Signal>, l: Ledger)
    requires Balanced(c, r, down, up, l)
    requires c' == c.(connected := c'.connected, pendingSignals := c'.pendingSignals)
    requires r' == r.(connected := r'.connected, pendingSignals := r'.pendingSignals)
    ensures Balanced(c', r', down, up, l)
  {
    hide Shape, Descriptions, Candidates, Offers;
  }

  lemma {:induction false} RecipientApplies(caller: Peer, recipient: Peer, signal: Signal, down: seq<Signal>, up: seq<Signal>, l: Ledger)
    requires recipient.connected
    requires Balanced(caller, recipient, [signal] + down, up, l)
    ensures var o := ApplySignal(recipient, signal);
            Balanced(caller, o.peer, down, up + o.sent, l) && o.peer.connected
  {
    hide Books, Shape;
    var o := ApplySignal(recipient, signal);
    var d, u := Descriptions(down), Descriptions(up);
    assert ([signal] + down)[1..] == down;
    assert Descriptions([signal] + down) == if signal.Candidate? then d else [signal] + d;
    DescriptionsOfConcat(up, o.sent);
    DescriptionsOfDescriptions(o.sent);
    RecipientKeepsShape(caller.signaling, recipient, signal, d, u);
    RecipientKeepsBooks(caller, recipient, signal, down, up, l);
  }

  lemma {:induction false} RecipientKeepsShape(caller: Signaling, recipient: Peer, signal: Signal, d: seq<Signal>, u: seq<Signal>)
    requires recipient.connected && recipient.role == Recipient && Settled(recipient)
    requires Shape(caller, recipient.signaling, if signal.Candidate? then d else [signal] + d, u)
    ensures var o := ApplySignal(recipient, signal);
            Settled(o.peer) && Shape(caller, o.peer.signaling, d, u + o.sent)
  {
    var o := ApplySignal(recipient, signal);
    if !signal.Candidate? {
      var before := [signal] + d;
      assert before[0] == signal && |before| == |d| + 1;
      assert d != [] ==> d[0] == before[1];
    } else {
      assert u + o.sent == u;
    }
  }

  lemma {:induction false} CallerApplies(caller: Peer, recipient: Peer, signal: Signal, down: seq<Signal>, up: seq<Signal>, l: Ledger)
    requires caller.connected
    requires Balanced(caller, recipient, down, [signal] + up, l)
    ensures var o := ApplySignal(caller, signal);
            Balanced(o.peer, recipient, down + o.sent, up, l) && o.peer.connected
  {
    hide Books, Shape;
    var o := ApplySignal(caller, signal);
    var d, u := Descriptions(down), Descriptions(up);
    assert ([signal] + up)[1..] == up;
    assert Descriptions([signal] + up) == if signal.Candidate? then u else [signal] + u;
    DescriptionsOfConcat(down, o.sent);
    DescriptionsOfDescriptions(o.sent);
    CallerKeepsShape(caller, recipient.signaling, signal, d, u);
    CallerKeepsBooks(caller, recipient, signal, down, up, l);
  }

  lemma {:induction false} CallerKeepsShape(caller: Peer, recipient: Signaling, signal: Signal, d: seq<Signal>, u: seq<Signal>)
    requires caller.connected && caller.role == Caller && Settled(caller)
    requires Shape(caller.signaling, recipient, d, if signal.Candidate? then u else [signal] + u)
    ensures var o := ApplySignal(caller, signal);
            Settled(o.peer) && Shape(o.peer.signaling, recipient, d + o.sent, u)
  {
    var o := ApplySignal(caller, signal);
    if !signal.Candidate? {
      var before := [signal] + u;
      assert before[0] == signal && |before| == |u| + 1;
      assert u != [] ==> u[0] == before[1];
      assert |u| == 2 ==> u[1] == before[2];
    } else {
      assert d + o.sent == d;
    }
  }

  /** What one applied signal does to a peer's own books. */
  lemma {:induction false} SignalBooks(p: Peer, signal: Signal)
    requires p.connected && Settled(p)
    ensures var o := ApplySignal(p, signal);
            && Committed(o.peer) <= Committed(p) + (if signal.Offer? && p.role == Recipient then 1 else 0)
            && Offers(o.sent) + p.offersSent == o.peer.offersSent
            && Candidates(o.sent) == []
            && Gathered(o.peer) == Gathered(p) + (if signal.Candidate? then [signal.candidate] else [])
            && (p.remoteReady ==> o.peer.remoteReady)
            && (o.sent != [] && o.sent[0].Answer? ==> o.peer.remoteReady)
            && (p.role == Recipient && !signal.Candidate? && o.peer.offersSent > p.offersSent ==> o.peer.remoteReady)
  {
    hide Candidates, Offers;
    var o := ApplySignal(p, signal);
    BooksOfDescriptions(o.sent);
  }

  lemma {:induction false} BooksOfDescriptions(q: seq<Signal>)
    requires forall s <- q :: !s.Candidate?
    ensures Candidates(q) == []
    ensures |q| == 0 ==> Offers(q) == 0
    ensures |q| == 1 ==> Offers(q) == if q[0].Offer? then 1 else 0
    ensures |q| == 2 ==> Offers(q) == (if q[0].Offer? then 1 else 0) + if q[1].Offer? then 1 else 0
    decreases |q|
  {
    if q != [] {
      BooksOfDescriptions(q[1..]);
    }
  }

  lemma {:induction false} RecipientKeepsBooks(caller: Peer, recipient: Peer, signal: Signal, down: seq<Signal>, up: seq<Signal>, l: Ledger)
    requires recipient.connected && recipient.role == Recipient && Settled(recipient)
    requires Books(caller, recipient, [signal] + down, up, l)
    ensures Books(caller, ApplySignal(recipient, signal).peer, down, up + ApplySignal(recipient, signal).sent, l)
  {
    hide Settled;
    var o := ApplySignal(recipient, signal);
    assert ([signal] + down)[1..] == down;
    SignalBooks(recipient, signal);
    CandidatesOfConcat(up, o.sent);
  }

  lemma {:induction false} CallerKeepsBooks(caller: Peer, recipient: Peer, signal: Signal, down: seq<Signal>, up: seq<Signal>, l: Ledger)
    requires caller.connected && caller.role == Caller && Settled(caller)
    requires Books(caller, recipient, down, [signal] + up, l)
    ensures Books(ApplySignal(caller, signal).peer, recipient, down + ApplySignal(caller, signal).sent, up, l)
  {
    hide Settled;
    var o := ApplySignal(caller, signal);
    assert ([signal] + up)[0] == signal && ([signal] + up)[1..] == up;
    SignalBooks(caller, signal);
    OffersOfConcat(down, o.sent);
    CandidatesOfConcat(down, o.sent);
  }

  lemma {:induction false} RecipientReplays(caller: Peer, recipient: Peer, kept: seq<Signal>, down: seq<Signal>, up: seq<Signal>, l: Ledger)
    requires recipient.connected
    requires Balanced(caller, recipient, kept + down, up, l)
    ensures var o := ApplyAll(recipient, kept);
            Balanced(caller, o.peer, down, up + o.sent, l) && o.peer.connected
    decreases |kept|
  {
    hide Books, Shape;
    if kept == [] {
      assert kept + down == down && up + [] == up;
    } else {
      var tail := kept[1..];
      var first := ApplySignal(recipient, kept[0]);
      var rest := ApplyAll(first.peer, tail);
      assert kept + down == [kept[0]] + (tail + down);
      assert up + first.sent + rest.sent == up + (first.sent + rest.sent);
      RecipientApplies(caller, recipient, kept[0], tail + down, up, l);
      RecipientReplays(caller, first.peer, tail, down, up + first.sent, l);
    }
  }

  lemma {:induction false} CallerReplays(caller: Peer, recipient: Peer, kept: seq<Signal>, down: seq<Signal>, up: seq<Signal>, l: Ledger)
    requires caller.connected
    requires Balanced(caller, recipient, down, kept + up, l)
    ensures var o := ApplyAll(caller, kept);
            Balanced(o.peer, recipient, down + o.sent, up, l) && o.peer.connected
    decreases |kept|
  {
    hide Books, Shape;
    if kept == [] {
      assert kept + up == up && down + [] == down;
    } else {
      var tail := kept[1..];
      var first := ApplySignal(caller, kept[0]);
      var rest := ApplyAll(first.peer, tail);
      assert kept + up == [kept[0]] + (tail + up);
      assert down + first.sent + rest.sent == down + (first.sent + rest.sent);
      CallerApplies(caller, recipient, kept[0], down, tail + up, l);
      CallerReplays(first.peer, recipient, tail, down + first.sent, up, l);
    }
  }

  lemma {:induction false} CallerOffers(caller: Peer, recipient: Peer, down: seq<Signal>, up: seq<Signal>, l: Ledger)
    requires Balanced(caller, recipient, down, up, l)
    ensures var o := Request(caller);
            Balanced(o.peer, recipient, down + o.sent, up, CallerAsked(l))
  {
    var o := Request(caller);
    BooksOfDescriptions(o.sent);
    OffersOfConcat(down, o.sent);
    CandidatesOfConcat(down, o.sent);
    DescriptionsOfConcat(down, o.sent);
    DescriptionsOfDescriptions(o.sent);
  }

  lemma {:induction false} RecipientOffers(caller: Peer, recipient: Peer, down: seq<Signal>, up: seq<Signal>, l: Ledger)
    requires Balanced(caller, recipient, down, up, l)
    ensures var o := Request(recipient);
            Balanced(caller, o.peer, down, up + o.sent, RecipientAsked(l))
  {
    var o := Request(recipient);
    BooksOfDescriptions(o.sent);
    CandidatesOfConcat(up, o.sent);
    DescriptionsOfConcat(up, o.sent);
    DescriptionsOfDescriptions(o.sent);
  }

  // ----- The invariant over every run -----

  lemma {:induction false} CallerReceives(n: Net)
    requires Inv(n) && n.toCaller != []
    ensures Inv(Next(n, DeliverToCaller))
  {
    hide Books, Shape, Descriptions, ApplySignal, NewPeer;
    var down, up := Inbound(n.recipient, n.toRecipient), Inbound(n.caller, n.toCaller);
    var signal, queue := n.toCaller[0], n.toCaller[1..];
    var o := Receive(n.caller, signal);
    assert Inbound(n.recipient, n.toRecipient + o.sent) == down + o.sent;
    if n.caller.connected {
      assert up == [signal] + queue;
      CallerApplies(n.caller, n.recipient, signal, down, queue, n.ledger);
      SignalKeepsConnection(n.caller, signal);
      assert Inbound(o.peer, queue) == queue;
    } else {
      assert Inbound(o.peer, queue) == up;
      assert down + o.sent == down;
      StorageIsIrrelevant(n.caller, o.peer, n.recipient, n.recipient, down, up, n.ledger);
    }
  }

  lemma {:induction false} CallerConnectBalances(caller: Peer, recipient: Peer, down: seq<Signal>, up: seq<Signal>, l: Ledger)
    requires Untouched(caller)
    requires Balanced(caller, recipient, down, caller.pendingSignals + up, l)
    ensures var o := Connect(caller);
            && Balanced(o.peer, recipient, down + o.sent, up, CallerAsked(l))
            && o.peer.connected && o.peer.pendingSignals == []
  {
    hide Books, Shape;
    var start := Open(caller);
    var replayed := ApplyAll(start, caller.pendingSignals);
    StorageIsIrrelevant(caller, start, recipient, recipient, down, caller.pendingSignals + up, l);
    CallerReplays(start, recipient, caller.pendingSignals, down, up, l);
    ReplayKeepsConnection(start, caller.pendingSignals);
    var first := Request(replayed.peer);
    assert down + replayed.sent + first.sent == down + (replayed.sent + first.sent);
    CallerOffers(replayed.peer, recipient, down + replayed.sent, up, l);
  }

  lemma {:induction false} CallerConnectKeeps(n: Net)
    requires Inv(n) && !n.caller.connected
    ensures Inv(Next(n, CallerConnects))
  {
    hide Books, Shape, Descriptions, ApplySignal, ApplyAll;
    var down := Inbound(n.recipient, n.toRecipient);
    var o := Connect(n.caller);
    CallerConnectBalances(n.caller, n.recipient, down, n.toCaller, n.ledger);
    assert down + o.sent == Inbound(n.recipient, n.toRecipient + o.sent);
    assert Inbound(o.peer, n.toCaller) == n.toCaller;
  }

  lemma {:induction false} CallerRequestKeeps(n: Net)
    requires Inv(n) && n.caller.connected
    ensures Inv(Next(n, CallerRequests))
  {
    hide Books, Shape, Descriptions, ApplySignal, ApplyAll;
    var o := Request(n.caller);
    CallerOffers(n.caller, n.recipient, Inbound(n.recipient, n.toRecipient), Inbound(n.caller, n.toCaller), n.ledger);
    assert Inbound(n.recipient, n.toRecipient) + o.sent == Inbound(n.recipient, n.toRecipient + o.sent);
  }

  lemma {:induction false} CallerGatherKeeps(n: Net, c: nat)
    requires Inv(n) && n.caller.connected
    ensures Inv(Next(n, CallerGathers(c)))
  {
    var down := Inbound(n.recipient, n.toRecipient);
    DescriptionsOfConcat(down, [Candidate(c)]);
    hide Shape, Settled;
    OffersOfConcat(down, [Candidate(c)]);
    CandidatesOfConcat(down, [Candidate(c)]);
    assert Descriptions(down) + [] == Descriptions(down);
    assert down + [Candidate(c)] == Inbound(n.recipient, n.toRecipient + [Candidate(c)]);
  }

  lemma {:induction false} RecipientReceives(n: Net)
    requires Inv(n) && n.toRecipient != []
    ensures Inv(Next(n, DeliverToRecipient))
  {
    hide Books, Shape, Descriptions, ApplySignal, NewPeer;
    var up, down := Inbound(n.caller, n.toCaller), Inbound(n.recipient, n.toRecipient);
    var signal, queue := n.toRecipient[0], n.toRecipient[1..];
    var o := Receive(n.recipient, signal);
    assert Inbound(n.caller, n.toCaller + o.sent) == up + o.sent;
    if n.recipient.connected {
      assert down == [signal] + queue;
      RecipientApplies(n.caller, n.recipient, signal, queue, up, n.ledger);
      SignalKeepsConnection(n.recipient, signal);
      assert Inbound(o.peer, queue) == queue;
    } else {
      assert Inbound(o.peer, queue) == down;
      assert up + o.sent == up;
      StorageIsIrrelevant(n.caller, n.caller, n.recipient, o.peer, down, up, n.ledger);
    }
  }

  lemma {:induction false} RecipientConnectKeeps(n: Net)
    requires Inv(n) && !n.recipient.connected
    ensures Inv(Next(n, RecipientConnects))
  {
    hide Books, Shape, Descriptions, ApplySignal, ApplyAll;
    var up := Inbound(n.caller, n.toCaller);
    var start := Open(n.recipient);
    var o := Connect(n.recipient);
    StorageIsIrrelevant(n.caller, n.caller, n.recipient, start, Inbound(n.recipient, n.toRecipient), up, n.ledger);
    RecipientReplays(n.caller, start, n.recipient.pendingSignals, n.toRecipient, up, n.ledger);
    ReplayKeepsConnection(start, n.recipient.pendingSignals);
    assert up + o.sent == Inbound(n.caller, n.toCaller + o.sent);
    assert Inbound(o.peer, n.toRecipient) == n.toRecipient;
  }

  lemma {:induction false} RecipientRequestKeeps(n: Net)
    requires Inv(n) && n.recipient.connected
    ensures Inv(Next(n, RecipientRequests))
  {
    hide Books, Shape, Descriptions, ApplySignal, ApplyAll;
    var o := Request(n.recipient);
    RecipientOffers(n.caller, n.recipient, Inbound(n.recipient, n.toRecipient), Inbound(n.caller, n.toCaller), n.ledger);
    assert Inbound(n.caller, n.toCaller) + o.sent == Inbound(n.caller, n.toCaller + o.sent);
  }

  lemma {:induction false} RecipientGatherKeeps(n: Net, c: nat)
    requires Inv(n) && n.recipient.connected
    ensures Inv(Next(n, RecipientGathers(c)))
  {
    var up := Inbound(n.caller, n.toCaller);
    DescriptionsOfConcat(up, [Candidate(c)]);
    hide Shape, Settled;
    CandidatesOfConcat(up, [Candidate(c)]);
    assert Descriptions(up) + [] == Descriptions(up);
    assert up + [Candidate(c)] == Inbound(n.caller, n.toCaller + [Candidate(c)]);
  }

  lemma {:induction false} SignalKeepsConnection(p: Peer, signal: Signal)
    ensures var o := ApplySignal(p, signal);
            && o.peer.connected == p.connected && o.peer.pendingSignals == p.pendingSignals && o.peer.role == p.role
            && o.peer.offersSent >= p.offersSent
  {
  }

  lemma {:induction false} ReplayKeepsConnection(p: Peer, signals: seq<Signal>)
    ensures var o := ApplyAll(p, signals);
            && o.peer.connected == p.connected && o.peer.pendingSignals == p.pendingSignals && o.peer.role == p.role
            && o.peer.offersSent >= p.offersSent
    decreases |signals|
  {
    hide ApplySignal;
    if signals != [] {
      SignalKeepsConnection(p, signals[0]);
      ReplayKeepsConnection(ApplySignal(p, signals[0]).peer, signals[1..]);
    }
  }

  lemma {:induction false} StepKeeps(n: Net, e: Event)
    requires Inv(n)
    ensures Inv(Next(n, e))
  {
    hide Books, Shape;
    if Enabled(n, e) {
      match e
      case DeliverToCaller => CallerReceives(n);
      case DeliverToRecipient => RecipientReceives(n);
      case CallerConnects => CallerConnectKeeps(n);
      case RecipientConnects => RecipientConnectKeeps(n);
      case CallerRequests => CallerRequestKeeps(n);
      case RecipientRequests => RecipientRequestKeeps(n);
      case CallerGathers(c) => CallerGatherKeeps(n, c);
      case RecipientGathers(c) => RecipientGatherKeeps(n, c);
    }
  }

  lemma InitialInv()
    ensures Inv(Initial())
  {
  }

  lemma {:induction false} RunKeeps(n: Net, events: seq<Event>)
    requires Inv(n)
    ensures Inv(Run(n, events))
    decreases |events|
  {
    hide Books, Shape;
    if events != [] {
      StepKeeps(n, events[0]);
      RunKeeps(Next(n, events[0]), events[1..]);
    }
  }

  lemma {:induction false} DescriptionComesFrom(q: seq<Signal>, i: nat)
    requires i < |q| && !q[i].Candidate?
    ensures q[i] in Descriptions(q)
    decreases |q|
  {
    if i > 0 {
      DescriptionComesFrom(q[1..], i - 1);
    }
  }

  lemma {:induction false} CallerAnswer(n: Net)
    requires Inv(n) && n.toCaller != [] && n.toCaller[0].Answer?
    ensures n.caller.connected && n.caller.signaling == HaveLocalOffer(n.toCaller[0].answered)
  {
    hide Books, Settled;
    var up := Inbound(n.caller, n.toCaller);
    if n.caller.connected {
      assert up == n.toCaller;
    } else {
      DescriptionComesFrom(up, |n.caller.pendingSignals|);
    }
  }

  lemma {:induction false} RecipientAnswer(n: Net)
    requires Inv(n) && n.toRecipient != [] && n.toRecipient[0].Answer?
    ensures n.recipient.connected && n.recipient.signaling == HaveLocalOffer(n.toRecipient[0].answered)
  {
    hide Books, Settled;
    var down := Inbound(n.recipient, n.toRecipient);
    if n.recipient.connected {
      assert down == n.toRecipient;
    } else {
      DescriptionComesFrom(down, |n.recipient.pendingSignals|);
    }
  }

  /** In every run, an answer about to be applied finds its receiver holding exactly
      the offer it answers, whichever side receives it. */
  lemma {:induction false} AnswerMeetsItsOffer(events: seq<Event>)
    ensures var n := Run(Initial(), events);
            && (n.toCaller != [] && n.toCaller[0].Answer? ==>
                  n.caller.connected && n.caller.signaling == HaveLocalOffer(n.toCaller[0].answered))
            && (n.toRecipient != [] && n.toRecipient[0].Answer? ==>
                  n.recipient.connected && n.recipient.signaling == HaveLocalOffer(n.toRecipient[0].answered))
  {
    InitialInv();
    hide Inv, Initial;
    RunKeeps(Initial(), events);
    var n := Run(Initial(), events);
    if n.toCaller != [] && n.toCaller[0].Answer? {
      CallerAnswer(n);
    }
    if n.toRecipient != [] && n.toRecipient[0].Answer? {
      RecipientAnswer(n);
    }
  }

  /** When nothing is in flight and both connections exist, negotiation has settled:
      no offer is outstanding or due, and every candidate was added exactly once, in the
      order it was gathered. */
  lemma {:induction false} QuietMeansSettled(events: seq<Event>)
    ensures var n := Run(Initial(), events);
            n.toCaller == [] && n.toRecipient == [] && n.caller.connected && n.recipient.connected ==>
              && n.caller.signaling == Stable && n.recipient.signaling == Stable
              && !n.caller.renegotiationPending && !n.recipient.renegotiationPending
              && n.recipient.added == n.ledger.callerCandidates
              && n.caller.added == n.ledger.recipientCandidates
  {
    InitialInv();
    RunKeeps(Initial(), events);
    hide Initial, Run;
  }

  /** Every candidate a side gathered is, in order, added by the other, waiting there for
      a remote description, or still to be applied: kept until the connection exists, or
      in the relay's queue.  None reaches a connection without a remote description. */
  lemma {:induction false} CandidatesArriveInOrder(events: seq<Event>)
    ensures var n := Run(Initial(), events);
            && n.ledger.callerCandidates == Gathered(n.recipient) + Candidates(Inbound(n.recipient, n.toRecipient))
            && n.ledger.recipientCandidates == Gathered(n.caller) + Candidates(Inbound(n.caller, n.toCaller))
            && (if n.recipient.remoteReady then n.recipient.pendingCandidates == [] else n.recipient.added == [])
            && (if n.caller.remoteReady then n.caller.pendingCandidates == [] else n.caller.added == [])
  {
    InitialInv();
    RunKeeps(Initial(), events);
    hide Initial, Run;
  }

  /** Glare costs at most one renewed offer: all offers together never exceed twice the
      caller's requests plus the recipient's. */
  lemma {:induction false} OffersAreBounded(events: seq<Event>)
    ensures var n := Run(Initial(), events);
            n.caller.offersSent + n.recipient.offersSent <= 2 * n.ledger.callerRequests + n.ledger.recipientRequests
  {
    InitialInv();
    RunKeeps(Initial(), events);
    hide Initial, Run;
  }

  // ----- Deliveries come to an end -----

  /** Weight of a series of signals whose offers weigh `offer` and whose others `other`. */
  ghost function Weight(q: seq<Signal>, offer: nat, other: nat): nat {
    if q == [] then 0 else (if q[0].Offer? then offer else other) + Weight(q[1..], offer, other)
  }

  lemma {:induction false} WeightOfConcat(a: seq<Signal>, b: seq<Signal>, offer: nat, other: nat)
    ensures Weight(a + b, offer, other) == Weight(a, offer, other) + Weight(b, offer, other)
    decreases |a|
  {
    if a == [] {
      assert a + b == b;
    } else {
      assert (a + b)[1..] == a[1..] + b;
      WeightOfConcat(a[1..], b, offer, other);
    }
  }

  lemma {:induction false} WeightOfShort(q: seq<Signal>, offer: nat, other: nat)
    ensures |q| == 0 ==> Weight(q, offer, other) == 0
    ensures |q| == 1 ==> Weight(q, offer, other) == if q[0].Offer? then offer else other
    ensures |q| == 2 ==> Weight(q, offer, other) == (if q[0].Offer? then offer else other) + if q[1].Offer? then offer else other
    decreases |q|
  {
    if q != [] {
      WeightOfShort(q[1..], offer, other);
    }
  }

  /** A caller's offer may cost an answer and a renewed offer, a recipient's offer an
      answer. */
  ghost function Cost(author: Role): nat {
    if author == Caller then 4 else 2
  }

  ghost function Other(role: Role): Role {
    if role == Caller then Recipient else Caller
  }

  /** A waiting renegotiation stands for one offer; a kept signal weighs one less than in
      the queue it came from. */
  ghost function Waiting(p: Peer): nat {
    if p.renegotiationPending then Cost(p.role) else 0
  }

  ghost function Kept(p: Peer): nat {
    Weight(p.pendingSignals, Cost(Other(p.role)) - 1, 0)
  }

  ghost function Remaining(n: Net): nat {
    Weight(n.toRecipient, Cost(Caller), 1) + Weight(n.toCaller, Cost(Recipient), 1)
    + Waiting(n.caller) + Kept(n.caller) + Waiting(n.recipient) + Kept(n.recipient)
    + if n.recipient.connected then 0 else 1
  }

  lemma {:induction false} ApplyWeighs(p: Peer, signal: Signal)
    ensures var o := ApplySignal(p, signal);
            && o.peer.role == p.role && o.peer.connected == p.connected && o.peer.pendingSignals == p.pendingSignals
            && Weight(o.sent, Cost(p.role), 1) + Waiting(o.peer)
                 < Waiting(p) + if signal.Offer? then Cost(Other(p.role)) else 1
  {
    WeightOfShort(ApplySignal(p, signal).sent, Cost(p.role), 1);
    hide Weight;
  }

  lemma {:induction false} ReplayWeighs(p: Peer, signals: seq<Signal>)
    ensures var o := ApplyAll(p, signals);
            && o.peer.role == p.role && o.peer.connected == p.connected && o.peer.pendingSignals == p.pendingSignals
            && Weight(o.sent, Cost(p.role), 1) + Waiting(o.peer) <= Waiting(p) + Weight(signals, Cost(Other(p.role)) - 1, 0)
    decreases |signals|
  {
    hide ApplySignal, Waiting;
    if signals != [] {
      var first := ApplySignal(p, signals[0]);
      ApplyWeighs(p, signals[0]);
      ReplayWeighs(first.peer, signals[1..]);
      WeightOfConcat(first.sent, ApplyAll(first.peer, signals[1..]).sent, Cost(p.role), 1);
    }
  }

  lemma {:induction false} ReceiveWeighs(p: Peer, signal: Signal)
    ensures var o := Receive(p, signal);
            && o.peer.role == p.role && o.peer.connected == p.connected
            && Weight(o.sent, Cost(p.role), 1) + Waiting(o.peer) + Kept(o.peer)
                 < Waiting(p) + Kept(p) + if signal.Offer? then Cost(Other(p.role)) else 1
  {
    ApplyWeighs(p, signal);
    WeightOfConcat(p.pendingSignals, [signal], Cost(Other(p.role)) - 1, 0);
    WeightOfShort([signal], Cost(Other(p.role)) - 1, 0);
    WeightOfShort([], Cost(p.role), 1);
    hide ApplySignal, Weight;
  }

  /** A request costs at most one offer. */
  lemma {:induction false} RequestWeighs(p: Peer)
    ensures var o := Request(p);
            && o.peer.role == p.role && o.peer.connected == p.connected && o.peer.pendingSignals == p.pendingSignals
            && Weight(o.sent, Cost(p.role), 1) + Waiting(o.peer) <= Waiting(p) + Cost(p.role)
  {
    WeightOfShort(Request(p).sent, Cost(p.role), 1);
    hide Weight;
  }

  /** Creating a connection costs what was kept, and for the caller one offer. */
  lemma {:induction false} ConnectWeighs(p: Peer)
    ensures var o := Connect(p);
            && o.peer.role == p.role && o.peer.connected && o.peer.pendingSignals == []
            && Weight(o.sent, Cost(p.role), 1) + Waiting(o.peer) <= Waiting(p) + Kept(p) + if p.role == Caller then Cost(Caller) else 0
  {
    ReplayWeighs(Open(p), p.pendingSignals);
    var replayed := ApplyAll(Open(p), p.pendingSignals);
    RequestWeighs(replayed.peer);
    WeightOfConcat(replayed.sent, Request(replayed.peer).sent, Cost(p.role), 1);
    hide ApplyAll, Request, Weight;
  }

  ghost predicate Roles(n: Net) {
    n.caller.role == Caller && n.recipient.role == Recipient
  }

  /** Deliveries, and the recipient's connection, which asks for nothing new. */
  ghost predicate Settling(e: Event) {
    e.DeliverToCaller? || e.DeliverToRecipient? || e.RecipientConnects?
  }

  /** What a request or a gathered candidate adds. */
  ghost function Charge(e: Event): nat {
    match e
    case CallerConnects => Cost(Caller)
    case CallerRequests => Cost(Caller)
    case RecipientRequests => Cost(Recipient)
    case CallerGathers(_) => 1
    case RecipientGathers(_) => 1
    case _ => 0
  }

  /** Each delivery, and the creation of the recipient's connection, lowers the measure;
      a request raises it by the cost of one offer, a gathered candidate by one. */
  lemma {:induction false} DeliveryProgress(n: Net, e: Event)
    requires Roles(n) && Enabled(n, e)
    ensures Roles(Next(n, e))
    ensures Settling(e) ==> Remaining(Next(n, e)) < Remaining(n)
    ensures !Settling(e) ==> Remaining(Next(n, e)) <= Remaining(n) + Charge(e)
  {
    match e {
      case DeliverToCaller =>
        var o := Receive(n.caller, n.toCaller[0]);
        ReceiveWeighs(n.caller, n.toCaller[0]);
        WeightOfConcat(n.toRecipient, o.sent, Cost(Caller), 1);
        hide Receive;
      case DeliverToRecipient =>
        var o := Receive(n.recipient, n.toRecipient[0]);
        ReceiveWeighs(n.recipient, n.toRecipient[0]);
        WeightOfConcat(n.toCaller, o.sent, Cost(Recipient), 1);
        hide Receive;
      case CallerConnects =>
        ConnectWeighs(n.caller);
        WeightOfConcat(n.toRecipient, Connect(n.caller).sent, Cost(Caller), 1);
        hide Connect;
      case RecipientConnects =>
        ConnectWeighs(n.recipient);
        WeightOfConcat(n.toCaller, Connect(n.recipient).sent, Cost(Recipient), 1);
        hide Connect;
      case CallerRequests =>
        RequestWeighs(n.caller);
        WeightOfConcat(n.toRecipient, Request(n.caller).sent, Cost(Caller), 1);
        hide Request;
      case RecipientRequests =>
        RequestWeighs(n.recipient);
        WeightOfConcat(n.toCaller, Request(n.recipient).sent, Cost(Recipient), 1);
        hide Request;
      case CallerGathers(c) =>
        WeightOfConcat(n.toRecipient, [Candidate(c)], Cost(Caller), 1);
        WeightOfShort([Candidate(c)], Cost(Caller), 1);
      case RecipientGathers(c) =>
        WeightOfConcat(n.toCaller, [Candidate(c)], Cost(Recipient), 1);
        WeightOfShort([Candidate(c)], Cost(Recipient), 1);
    }
  }

  ghost predicate OnlyDeliveries(n: Net, events: seq<Event>)
    decreases |events|
  {
    events != [] ==>
      && Settling(events[0])
      && Enabled(n, events[0])
      && OnlyDeliveries(Next(n, events[0]), events[1..])
  }

  /** Without new requests, deliveries in any order, with the recipient's connection created
      at any moment among them, stop after at most `Remaining` steps. */
  lemma {:induction false} DeliveriesEnd(n: Net, events: seq<Event>)
    requires Roles(n) && OnlyDeliveries(n, events)
    ensures |events| + Remaining(Run(n, events)) <= Remaining(n)
    decreases |events|
  {
    hide Remaining, Enabled, Roles;
    if events != [] {
      DeliveryProgress(n, events[0]);
      DeliveriesEnd(Next(n, events[0]), events[1..]);
    }
  }

  /** How many signals a run delivers. */
  ghost function Delivered(n: Net, events: seq<Event>): nat
    decreases |events|
  {
    if events == [] then 0
    else (if (events[0].DeliverToCaller? || events[0].DeliverToRecipient?) && Enabled(n, events[0]) then 1 else 0)
         + Delivered(Next(n, events[0]), events[1..])
  }

  /** What the requests and candidates of a run have paid for. */
  ghost function Paid(l: Ledger): nat {
    4 * l.callerRequests + 2 * l.recipientRequests + |l.callerCandidates| + |l.recipientCandidates|
  }

  lemma {:induction false} PaidStep(n: Net, e: Event)
    requires Roles(n)
    ensures Roles(Next(n, e))
    ensures Delivered(n, [e]) + Remaining(Next(n, e)) + Paid(n.ledger) <= Remaining(n) + Paid(Next(n, e).ledger)
  {
    if Enabled(n, e) {
      DeliveryProgress(n, e);
    }
    assert Delivered(Next(n, e), [e][1..]) == 0;
    hide Remaining, Receive, Connect, Request;
  }

  lemma {:induction false} DeliveriesPaid(n: Net, events: seq<Event>)
    requires Roles(n)
    ensures Delivered(n, events) + Remaining(Run(n, events)) + Paid(n.ledger) <= Remaining(n) + Paid(Run(n, events).ledger)
    decreases |events|
  {
    if events != [] {
      PaidStep(n, events[0]);
      assert Delivered(Next(n, events[0]), [events[0]][1..]) == 0;
      hide Remaining, Paid, Next, Enabled, Roles;
      DeliveriesPaid(Next(n, events[0]), events[1..]);
    }
  }

  /** In every run, whatever its order, the signals delivered number at most one more than
      four for each request of the caller, two for each of the recipient and one for each
      candidate: no exchange of signals feeds itself. */
  lemma {:induction false} DeliveriesAreBounded(events: seq<Event>)
    ensures Delivered(Initial(), events) <= 1 + Paid(Run(Initial(), events).ledger)
  {
    DeliveriesPaid(Initial(), events);
    hide Run, Delivered;
  }
}
