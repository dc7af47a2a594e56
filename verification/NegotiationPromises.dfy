/** That every requested media change is offered and answered: an observer of the queues
    counts the offers handed to the relay, notes which offer is due when a side asks for one,
    and notes the answers delivered. */
module NegotiationPromises {
  import opened Negotiation
  import opened NegotiationProofs

  /** `offers` counts the offers a side has handed to the relay; `due` is the number of the
      offer it owes for its latest request, counted from one; `answered` is the highest
      number of its offers for which an answer was delivered to it. */
  datatype Watch = Watch(offers: nat, due: nat, answered: nat)

  datatype Watches = Watches(caller: Watch, recipient: Watch)

  function NoWatches(): Watches {
    Watches(Watch(0, 0, 0), Watch(0, 0, 0))
  }

  /** What a step has put at the end of a queue, given what was there before. */
  function Appended(before: seq<Signal>, after: seq<Signal>): seq<Signal> {
    if |before| <= |after| then after[|before|..] else []
  }

  ghost function Asked(w: Watch): Watch {
    w.(due := w.offers + 1)
  }

  ghost function Counted(w: Watch, sent: seq<Signal>): Watch {
    w.(offers := w.offers + Offers(sent))
  }

  /** The answer a side receives carries the number of its offer. */
  ghost function Told(w: Watch, signal: Signal): Watch {
    if signal.Answer? && signal.answered.number + 1 > w.answered then w.(answered := signal.answered.number + 1) else w
  }

  /** What the observer notes of one step, seeing the queues before and after it. */
  ghost function Observe(w: Watches, n: Net, e: Event): Watches {
    if !Enabled(n, e) then w else
    var m := Next(n, e);
    match e
    case DeliverToCaller =>
      Watches(Counted(Told(w.caller, n.toCaller[0]), Appended(n.toRecipient, m.toRecipient)), w.recipient)
    case DeliverToRecipient =>
      Watches(w.caller, Counted(Told(w.recipient, n.toRecipient[0]), Appended(n.toCaller, m.toCaller)))
    case CallerConnects => w.(caller := Counted(Asked(w.caller), Appended(n.toRecipient, m.toRecipient)))
    case CallerRequests => w.(caller := Counted(Asked(w.caller), Appended(n.toRecipient, m.toRecipient)))
    case RecipientConnects => w.(recipient := Counted(w.recipient, Appended(n.toCaller, m.toCaller)))
    case RecipientRequests => w.(recipient := Counted(Asked(w.recipient), Appended(n.toCaller, m.toCaller)))
    case _ => w
  }

  ghost function ObserveAll(w: Watches, n: Net, events: seq<Event>): Watches
    decreases |events|
  {
    if events == [] then w else ObserveAll(Observe(w, n, events[0]), Next(n, events[0]), events[1..])
  }

  // ----- The offer due is answered, outstanding or still to be made -----

  ghost predicate Promised(w: Watch, p: Peer) {
    && w.offers == p.offersSent && w.due <= p.offersSent + 1 && w.answered <= w.offers
    && (w.due <= w.answered || p.renegotiationPending || (p.signaling != Stable && w.due <= p.signaling.local.number + 1))
    && (p.signaling != Stable ==> p.signaling.local.number < p.offersSent)
  }

  ghost predicate AllPromised(w: Watches, n: Net) {
    && Inv(n) && Promised(w.caller, n.caller) && Promised(w.recipient, n.recipient)
    && (!n.caller.connected ==> w.caller.due == 0) && (!n.recipient.connected ==> w.recipient.due == 0)
  }

  lemma AppendedIs(before: seq<Signal>, sent: seq<Signal>)
    ensures Appended(before, before + sent) == sent
  {
  }

  lemma {:induction false} OffersOfShort(q: seq<Signal>)
    ensures |q| == 0 ==> Offers(q) == 0
    ensures |q| == 1 ==> Offers(q) == if q[0].Offer? then 1 else 0
    ensures |q| == 2 ==> Offers(q) == (if q[0].Offer? then 1 else 0) + if q[1].Offer? then 1 else 0
    decreases |q|
  {
    if q != [] { OffersOfShort(q[1..]); }
  }

  /** Applying a signal keeps the promise; an answer is the one the open offer waits for. */
  lemma {:induction false} SignalKeepsPromise(w: Watch, p: Peer, signal: Signal)
    requires Promised(w, p) && p.connected
    requires signal.Answer? ==> p.signaling == HaveLocalOffer(signal.answered)
    ensures var o := ApplySignal(p, signal);
            Promised(Counted(Told(w, signal), o.sent), o.peer)
  {
    OffersOfShort(ApplySignal(p, signal).sent);
    hide Offers;
  }

  /** A side that has asked for nothing keeps its promise whatever it applies. */
  lemma {:induction false} ReplayKeepsPromise(w: Watch, p: Peer, signals: seq<Signal>)
    requires Promised(w, p) && p.connected && w.due <= w.answered
    ensures var o := ApplyAll(p, signals);
            Promised(Counted(w, o.sent), o.peer)
    decreases |signals|
  {
    if signals != [] {
      var first := ApplySignal(p, signals[0]);
      OffersOfShort(first.sent);
      SignalKeepsConnection(p, signals[0]);
      assert Promised(Counted(w, first.sent), first.peer) by { hide Offers; }
      hide ApplySignal;
      ReplayKeepsPromise(Counted(w, first.sent), first.peer, signals[1..]);
      OffersOfConcat(first.sent, ApplyAll(first.peer, signals[1..]).sent);
    }
  }

  lemma {:induction false} RequestKeepsPromise(w: Watch, p: Peer)
    requires Promised(w, p) && p.connected
    ensures var o := Request(p);
            Promised(Counted(Asked(w), o.sent), o.peer)
  {
    OffersOfShort(Request(p).sent);
    hide Offers;
  }

  lemma {:induction false} ConnectKeepsPromise(w: Watch, p: Peer)
    requires Promised(w, p) && !p.connected && Untouched(p) && w.due == 0
    ensures var o := Connect(p);
            Promised(Counted(if p.role == Caller then Asked(w) else w, o.sent), o.peer)
  {
    var replayed := ApplyAll(Open(p), p.pendingSignals);
    ReplayKeepsPromise(w, Open(p), p.pendingSignals);
    ReplayKeepsConnection(Open(p), p.pendingSignals);
    RequestKeepsPromise(Counted(w, replayed.sent), replayed.peer);
    OffersOfConcat(replayed.sent, Request(replayed.peer).sent);
  }

  lemma {:induction false} DeliveryToCaller(w: Watches, n: Net)
    requires AllPromised(w, n) && n.toCaller != []
    ensures var v, m := Observe(w, n, DeliverToCaller), Next(n, DeliverToCaller);
            Promised(v.caller, m.caller) && Promised(v.recipient, m.recipient) && m.caller.connected == n.caller.connected
            && m.recipient.connected == n.recipient.connected && v.caller.due == w.caller.due && v.recipient.due == w.recipient.due
  {
    var signal := n.toCaller[0];
    var o := Receive(n.caller, signal);
    AppendedIs(n.toRecipient, o.sent);
    if signal.Answer? { CallerAnswer(n); }
    OffersOfShort([]);
    hide Inv, Offers;
    if n.caller.connected {
      SignalKeepsPromise(w.caller, n.caller, signal);
      SignalKeepsConnection(n.caller, signal);
      hide ApplySignal;
    }
  }

  lemma {:induction false} DeliveryToRecipient(w: Watches, n: Net)
    requires AllPromised(w, n) && n.toRecipient != []
    ensures var v, m := Observe(w, n, DeliverToRecipient), Next(n, DeliverToRecipient);
            Promised(v.caller, m.caller) && Promised(v.recipient, m.recipient) && m.caller.connected == n.caller.connected
            && m.recipient.connected == n.recipient.connected && v.caller.due == w.caller.due && v.recipient.due == w.recipient.due
  {
    var signal := n.toRecipient[0];
    var o := Receive(n.recipient, signal);
    AppendedIs(n.toCaller, o.sent);
    if signal.Answer? { RecipientAnswer(n); }
    OffersOfShort([]);
    hide Inv, Offers;
    if n.recipient.connected {
      SignalKeepsPromise(w.recipient, n.recipient, signal);
      SignalKeepsConnection(n.recipient, signal);
      hide ApplySignal;
    }
  }

  lemma {:induction false} StepKeepsPromises(w: Watches, n: Net, e: Event)
    requires AllPromised(w, n)
    ensures AllPromised(Observe(w, n, e), Next(n, e))
  {
    StepKeeps(n, e);
    RequestKeepsConnection(n.caller);
    RequestKeepsConnection(n.recipient);
    ConnectConnects(n.caller);
    ConnectConnects(n.recipient);
    if Enabled(n, e) {
      match e {
        case DeliverToCaller => DeliveryToCaller(w, n);
        case DeliverToRecipient => DeliveryToRecipient(w, n);
        case CallerConnects =>
          AppendedIs(n.toRecipient, Connect(n.caller).sent);
          ConnectKeepsPromise(w.caller, n.caller);
        case RecipientConnects =>
          AppendedIs(n.toCaller, Connect(n.recipient).sent);
          ConnectKeepsPromise(w.recipient, n.recipient);
        case CallerRequests =>
          AppendedIs(n.toRecipient, Request(n.caller).sent);
          RequestKeepsPromise(w.caller, n.caller);
        case RecipientRequests =>
          AppendedIs(n.toCaller, Request(n.recipient).sent);
          RequestKeepsPromise(w.recipient, n.recipient);
        case CallerGathers(_) =>
        case RecipientGathers(_) =>
      }
    }
    hide Balanced, Connect, Request, Receive, Offers, Appended;
  }

  lemma RequestKeepsConnection(p: Peer)
    ensures Request(p).peer.connected == p.connected
  {
  }

  lemma ConnectConnects(p: Peer)
    ensures Connect(p).peer.connected
  {
    ReplayKeepsConnection(Open(p), p.pendingSignals);
    hide ApplyAll;
  }

  lemma {:induction false} RunKeepsPromises(w: Watches, n: Net, events: seq<Event>)
    requires AllPromised(w, n)
    ensures AllPromised(ObserveAll(w, n, events), Run(n, events))
    decreases |events|
  {
    hide AllPromised, Observe, Next;
    if events != [] {
      StepKeepsPromises(w, n, events[0]);
      RunKeepsPromises(Observe(w, n, events[0]), Next(n, events[0]), events[1..]);
    }
  }

  /** Over every run: once both sides are connected and nothing is in flight, the offer due
      for the latest request of each side has been handed over and its answer delivered. */
  lemma {:induction false} EveryRequestIsAnswered(events: seq<Event>)
    ensures var n := Run(Initial(), events);
            var w := ObserveAll(NoWatches(), Initial(), events);
            n.toCaller == [] && n.toRecipient == [] && n.caller.connected && n.recipient.connected ==>
              && w.caller.due <= w.caller.answered <= w.caller.offers
              && w.recipient.due <= w.recipient.answered <= w.recipient.offers
  {
    InitialInv();
    RunKeepsPromises(NoWatches(), Initial(), events);
    QuietMeansSettled(events);
    hide Run, ObserveAll, Inv;
  }

  /** A request of a connected side either hands over the offer due at once, as the last
      signal of its queue, or leaves it to be made when the outstanding offer is settled. */
  lemma {:induction false} RequestIsCarried(events: seq<Event>)
    ensures var n := Run(Initial(), events);
            var w := ObserveAll(NoWatches(), Initial(), events);
            var m := Next(n, CallerRequests);
            n.caller.connected ==>
              if n.caller.signaling == Stable
              then m.toRecipient == n.toRecipient + [Offer(Sdp(Caller, w.caller.offers))]
                   && m.caller.signaling == HaveLocalOffer(Sdp(Caller, w.caller.offers))
              else m.toRecipient == n.toRecipient && m.caller.renegotiationPending && m.caller.signaling == n.caller.signaling
    ensures var n := Run(Initial(), events);
            var w := ObserveAll(NoWatches(), Initial(), events);
            var m := Next(n, RecipientRequests);
            n.recipient.connected ==>
              if n.recipient.signaling == Stable
              then m.toCaller == n.toCaller + [Offer(Sdp(Recipient, w.recipient.offers))]
                   && m.recipient.signaling == HaveLocalOffer(Sdp(Recipient, w.recipient.offers))
              else m.toCaller == n.toCaller && m.recipient.renegotiationPending && m.recipient.signaling == n.recipient.signaling
  {
    InitialInv();
    RunKeepsPromises(NoWatches(), Initial(), events);
    hide Run, ObserveAll, Shape, Books;
  }
}
