/** Offer/answer negotiation between the two browsers of a direct call.

    Each browser serializes its signalling work, so a received signal, a local
    renegotiation request and the creation of the connection are single steps.
    The relay is two first-in first-out queues.  Signalling states follow section
    3.2 of RFC 8829; between two steps only `stable` and `have-local-offer` occur. */
module Negotiation {

  datatype Role = Caller | Recipient

  /** A session description, identified by its author and the author's offer count. */
  datatype Sdp = Sdp(author: Role, number: nat)

  datatype Signal =
    | Offer(offer: Sdp)
    | Answer(answered: Sdp)
    | Candidate(candidate: nat)

  datatype Signaling = Stable | HaveLocalOffer(local: Sdp)

  datatype Peer = Peer(
    role: Role,
    connected: bool,
    signaling: Signaling,
    remoteReady: bool,
    pendingSignals: seq<Signal>,
    pendingCandidates: seq<nat>,
    added: seq<nat>,
    renegotiationPending: bool,
    offersSent: nat)

  function NewPeer(role: Role): Peer {
    Peer(role, false, Stable, false, [], [], [], false, 0)
  }

  /** A peer's next state together with the signals it hands to the relay. */
  datatype Outcome = Outcome(peer: Peer, sent: seq<Signal>)

  function FlushCandidates(p: Peer): Peer {
    p.(remoteReady := true, added := p.added + p.pendingCandidates, pendingCandidates := [])
  }

  /** A renegotiation waits while an offer of ours is outstanding. */
  function CreateAndSendOffer(p: Peer): Outcome {
    if !p.connected then Outcome(p, [])
    else if p.signaling != Stable then Outcome(p.(renegotiationPending := true), [])
    else
      var offer := Sdp(p.role, p.offersSent);
      Outcome(p.(signaling := HaveLocalOffer(offer), offersSent := p.offersSent + 1), [Offer(offer)])
  }

  /** A local media change asks for an offer. */
  function Request(p: Peer): Outcome {
    CreateAndSendOffer(p)
  }

  function RunPendingRenegotiation(p: Peer): Outcome {
    if p.renegotiationPending then CreateAndSendOffer(p.(renegotiationPending := false))
    else Outcome(p, [])
  }

  /** The recipient is the polite side: it rolls its own offer back on glare, and
      remembers to offer again; the caller ignores the colliding offer. */
  function ApplySignal(p: Peer, signal: Signal): Outcome {
    match signal
    case Candidate(c) =>
      if p.remoteReady then Outcome(p.(added := p.added + [c]), [])
      else Outcome(p.(pendingCandidates := p.pendingCandidates + [c]), [])
    case Offer(offer) =>
      var collision := p.signaling != Stable;
      if collision && p.role == Caller then Outcome(p, [])
      else
        var rolledBack := if collision then p.(renegotiationPending := true, signaling := Stable) else p;
        var next := RunPendingRenegotiation(FlushCandidates(rolledBack));
        Outcome(next.peer, [Answer(offer)] + next.sent)
    case Answer(_) =>
      if p.signaling == Stable then Outcome(p, [])
      else
        RunPendingRenegotiation(FlushCandidates(p.(signaling := Stable)))
  }

  /** Signals that arrive before the connection exists are kept for later. */
  function Receive(p: Peer, signal: Signal): Outcome {
    if p.connected then ApplySignal(p, signal)
    else Outcome(p.(pendingSignals := p.pendingSignals + [signal]), [])
  }

  function ApplyAll(p: Peer, signals: seq<Signal>): Outcome
    decreases |signals|
  {
    if signals == [] then Outcome(p, [])
    else
      var first := ApplySignal(p, signals[0]);
      var rest := ApplyAll(first.peer, signals[1..]);
      Outcome(rest.peer, first.sent + rest.sent)
  }

  function Open(p: Peer): Peer {
    p.(connected := true, remoteReady := false, pendingCandidates := [], pendingSignals := [])
  }

  /** The accepted event: create the connection, replay the kept signals in order,
      and let the caller make the first offer. */
  function Connect(p: Peer): Outcome {
    var replayed := ApplyAll(Open(p), p.pendingSignals);
    if p.role == Caller then
      var first := Request(replayed.peer);
      Outcome(first.peer, replayed.sent + first.sent)
    else replayed
  }

  // ----- Two peers and the relay -----

  /** History of the run: what each side asked for and which candidates it gathered. */
  datatype Ledger = Ledger(
    callerRequests: nat,
    recipientRequests: nat,
    callerCandidates: seq<nat>,
    recipientCandidates: seq<nat>)

  datatype Net = Net(
    caller: Peer,
    recipient: Peer,
    toRecipient: seq<Signal>,
    toCaller: seq<Signal>,
    ledger: Ledger)

  datatype Event =
    | DeliverToRecipient
    | DeliverToCaller
    | CallerConnects
    | RecipientConnects
    | CallerRequests
    | RecipientRequests
    | CallerGathers(candidate: nat)
    | RecipientGathers(candidate: nat)

  function Initial(): Net {
    Net(NewPeer(Caller), NewPeer(Recipient), [], [], Ledger(0, 0, [], []))
  }

  function Enabled(n: Net, e: Event): bool {
    match e
    case DeliverToRecipient => n.toRecipient != []
    case DeliverToCaller => n.toCaller != []
    case CallerConnects => !n.caller.connected
    case RecipientConnects => !n.recipient.connected
    case CallerRequests => n.caller.connected
    case RecipientRequests => n.recipient.connected
    case CallerGathers(_) => n.caller.connected
    case RecipientGathers(_) => n.recipient.connected
  }

  function CallerActs(n: Net, o: Outcome): Net {
    n.(caller := o.peer, toRecipient := n.toRecipient + o.sent)
  }

  function RecipientActs(n: Net, o: Outcome): Net {
    n.(recipient := o.peer, toCaller := n.toCaller + o.sent)
  }

  function CallerAsked(l: Ledger): Ledger { l.(callerRequests := l.callerRequests + 1) }

  function RecipientAsked(l: Ledger): Ledger { l.(recipientRequests := l.recipientRequests + 1) }

  function CallerGathered(l: Ledger, c: nat): Ledger { l.(callerCandidates := l.callerCandidates + [c]) }

  function RecipientGathered(l: Ledger, c: nat): Ledger { l.(recipientCandidates := l.recipientCandidates + [c]) }

  /** One step; an event that cannot happen leaves the net as it is. */
  function Next(n: Net, e: Event): Net {
    if !Enabled(n, e) then n else
    match e
    case DeliverToRecipient =>
      RecipientActs(n.(toRecipient := n.toRecipient[1..]), Receive(n.recipient, n.toRecipient[0]))
    case DeliverToCaller =>
      CallerActs(n.(toCaller := n.toCaller[1..]), Receive(n.caller, n.toCaller[0]))
    case CallerConnects =>
      CallerActs(n.(ledger := CallerAsked(n.ledger)), Connect(n.caller))
    case RecipientConnects => RecipientActs(n, Connect(n.recipient))
    case CallerRequests =>
      CallerActs(n.(ledger := CallerAsked(n.ledger)), Request(n.caller))
    case RecipientRequests =>
      RecipientActs(n.(ledger := RecipientAsked(n.ledger)), Request(n.recipient))
    case CallerGathers(c) =>
      n.(toRecipient := n.toRecipient + [Candidate(c)], ledger := CallerGathered(n.ledger, c))
    case RecipientGathers(c) =>
      n.(toCaller := n.toCaller + [Candidate(c)], ledger := RecipientGathered(n.ledger, c))
  }

  function Run(n: Net, events: seq<Event>): Net
    decreases |events|
  {
    if events == [] then n else Run(Next(n, events[0]), events[1..])
  }
}
