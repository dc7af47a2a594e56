/** The signalling part of one browser's direct call, as the mutable service it is. */
module CallFacade {
  import opened Negotiation

  datatype ConnectionState =
    | InStable
    | InHaveLocalOffer(local: Sdp)
    | InHaveRemoteOffer(remote: Sdp)

  /** The browser's connection: each operation demands the state that section 3.2 of
      RFC 8829 allows it in, so a caller cannot run into an invalid-state error. */
  class PeerConnection {
    const author: Role
    var signalingState: ConnectionState
    var remoteDescriptionSet: bool
    var candidates: seq<nat>
    var offersMade: nat

    constructor (author: Role)
      ensures this.author == author && signalingState == InStable && !remoteDescriptionSet
      ensures candidates == [] && offersMade == 0
    {
      this.author := author;
      signalingState, remoteDescriptionSet, candidates, offersMade := InStable, false, [], 0;
    }

    method SetLocalOffer() returns (offer: Sdp)
      requires signalingState == InStable
      modifies `signalingState, `offersMade
      ensures offer == Sdp(author, old(offersMade)) && offersMade == old(offersMade) + 1
      ensures signalingState == InHaveLocalOffer(offer)
    {
      offer := Sdp(author, offersMade);
      signalingState, offersMade := InHaveLocalOffer(offer), offersMade + 1;
    }

    method Rollback()
      requires signalingState.InHaveLocalOffer?
      modifies `signalingState
      ensures signalingState == InStable
    {
      signalingState := InStable;
    }

    method SetRemoteOffer(offer: Sdp)
      requires signalingState == InStable
      modifies `signalingState, `remoteDescriptionSet
      ensures signalingState == InHaveRemoteOffer(offer) && remoteDescriptionSet
    {
      signalingState, remoteDescriptionSet := InHaveRemoteOffer(offer), true;
    }

    method SetLocalAnswer() returns (answered: Sdp)
      requires signalingState.InHaveRemoteOffer?
      modifies `signalingState
      ensures answered == old(signalingState.remote) && signalingState == InStable
    {
      answered := signalingState.remote;
      signalingState := InStable;
    }

    method SetRemoteAnswer()
      requires signalingState.InHaveLocalOffer?
      modifies `signalingState, `remoteDescriptionSet
      ensures signalingState == InStable && remoteDescriptionSet
    {
      signalingState, remoteDescriptionSet := InStable, true;
    }

    method AddIceCandidate(candidate: nat)
      requires remoteDescriptionSet
      modifies `candidates
      ensures candidates == old(candidates) + [candidate]
    {
      candidates := candidates + [candidate];
    }
  }

  class CallFacade {
    const role: Role
    var connection: PeerConnection?
    var pendingSignals: seq<Signal>
    var pendingCandidates: seq<nat>
    var remoteDescriptionReady: bool
    var localRenegotiationPending: bool
    var sent: seq<Signal>

    /** Between two serialized operations no remote offer is left unanswered. */
    ghost predicate Valid()
      reads this, connection
    {
      connection != null ==>
        && connection.author == role
        && !connection.signalingState.InHaveRemoteOffer?
        && (remoteDescriptionReady ==> connection.remoteDescriptionSet)
    }

    ghost function View(): Peer
      reads this, connection
    {
      if connection == null then
        Peer(role, false, Stable, remoteDescriptionReady, pendingSignals, pendingCandidates, [],
             localRenegotiationPending, 0)
      else
        Peer(role, true,
             if connection.signalingState.InHaveLocalOffer? then HaveLocalOffer(connection.signalingState.local) else Stable,
             remoteDescriptionReady, pendingSignals, pendingCandidates, connection.candidates,
             localRenegotiationPending, connection.offersMade)
    }

    ghost function Footprint(): set<object>
      reads this
    {
      if connection == null then {this} else {this, connection}
    }

    constructor (role: Role)
      ensures Valid() && View() == NewPeer(role) && sent == []
      ensures connection == null
    {
      this.role := role;
      connection := null;
      pendingSignals, pendingCandidates, sent := [], [], [];
      remoteDescriptionReady, localRenegotiationPending := false, false;
    }

    predicate IsPolite() {
      role == Recipient
    }

    method SendSignal(signal: Signal)
      modifies `sent
      ensures sent == old(sent) + [signal]
    {
      sent := sent + [signal];
    }

    method CreateAndSendOffer()
      requires Valid()
      modifies Footprint()
      ensures Valid() && connection == old(connection)
      ensures var o := Negotiation.CreateAndSendOffer(old(View()));
              View() == o.peer && sent == old(sent) + o.sent
    {
      if connection == null {
        return;
      }
      if connection.signalingState != InStable {
        localRenegotiationPending := true;
        return;
      }
      var offer := connection.SetLocalOffer();
      SendSignal(Offer(offer));
    }

    /** A local media change: screen sharing started, stopped, or lost its audio. */
    method Renegotiate()
      requires Valid()
      modifies Footprint()
      ensures Valid() && connection == old(connection)
      ensures var o := Request(old(View()));
              View() == o.peer && sent == old(sent) + o.sent
    {
      CreateAndSendOffer();
    }

    method FlushPendingCandidates()
      requires connection != null && connection.remoteDescriptionSet
      modifies `pendingCandidates, connection`candidates
      ensures pendingCandidates == []
      ensures connection.candidates == old(connection.candidates) + old(pendingCandidates)
    {
      var flushed := pendingCandidates;
      pendingCandidates := [];
      var i := 0;
      while i < |flushed|
        invariant 0 <= i <= |flushed|
        invariant pendingCandidates == []
        invariant connection.candidates == old(connection.candidates) + flushed[..i]
      {
        connection.AddIceCandidate(flushed[i]);
        assert flushed[..i + 1] == flushed[..i] + [flushed[i]];
        i := i + 1;
      }
      assert flushed[..i] == flushed;
    }

    method RunPendingRenegotiation()
      requires Valid()
      modifies Footprint()
      ensures Valid() && connection == old(connection)
      ensures var o := Negotiation.RunPendingRenegotiation(old(View()));
              View() == o.peer && sent == old(sent) + o.sent
    {
      if localRenegotiationPending {
        localRenegotiationPending := false;
        CreateAndSendOffer();
      }
    }

    method ApplyOffer(offer: Sdp)
      requires Valid() && connection != null
      modifies Footprint()
      ensures Valid() && connection == old(connection)
      ensures var o := Negotiation.ApplySignal(old(View()), Offer(offer));
              View() == o.peer && sent == old(sent) + o.sent
    {
      var offerCollision := connection.signalingState != InStable;
      if offerCollision && !IsPolite() {
        return;
      }
      if offerCollision {
        localRenegotiationPending := true;
        connection.Rollback();
      }
      connection.SetRemoteOffer(offer);
      remoteDescriptionReady := true;
      FlushPendingCandidates();
      var answered := connection.SetLocalAnswer();
      SendSignal(Answer(answered));
      RunPendingRenegotiation();
    }

    method ApplyAnswer(answered: Sdp)
      requires Valid() && connection != null
      modifies Footprint()
      ensures Valid() && connection == old(connection)
      ensures var o := Negotiation.ApplySignal(old(View()), Answer(answered));
              View() == o.peer && sent == old(sent) + o.sent
    {
      if !connection.signalingState.InHaveLocalOffer? {
        return;
      }
      connection.SetRemoteAnswer();
      remoteDescriptionReady := true;
      FlushPendingCandidates();
      RunPendingRenegotiation();
    }

    method ApplySignal(signal: Signal)
      requires Valid() && connection != null
      modifies Footprint()
      ensures Valid() && connection == old(connection)
      ensures var o := Negotiation.ApplySignal(old(View()), signal);
              View() == o.peer && sent == old(sent) + o.sent
    {
      match signal
      case Candidate(candidate) =>
        if !remoteDescriptionReady {
          pendingCandidates := pendingCandidates + [candidate];
          return;
        }
        connection.AddIceCandidate(candidate);
      case Offer(offer) => ApplyOffer(offer);
      case Answer(answered) => ApplyAnswer(answered);
    }

    method HandleSignal(signal: Signal)
      requires Valid()
      modifies Footprint()
      ensures Valid() && connection == old(connection)
      ensures var o := Receive(old(View()), signal);
              View() == o.peer && sent == old(sent) + o.sent
    {
      if connection == null {
        pendingSignals := pendingSignals + [signal];
        return;
      }
      ApplySignal(signal);
    }

    method ReplayKept(kept: seq<Signal>)
      requires Valid() && connection != null
      modifies Footprint()
      ensures Valid() && connection == old(connection)
      ensures var o := ApplyAll(old(View()), kept);
              View() == o.peer && sent == old(sent) + o.sent
    {
      hide Negotiation.ApplySignal, View;
      ghost var emitted := [];
      var i := 0;
      while i < |kept|
        invariant 0 <= i <= |kept|
        invariant Valid() && connection != null && connection == old(connection)
        invariant sent == old(sent) + emitted
        invariant ApplyAll(old(View()), kept).peer == ApplyAll(View(), kept[i..]).peer
        invariant ApplyAll(old(View()), kept).sent == emitted + ApplyAll(View(), kept[i..]).sent
      {
        ghost var step := Negotiation.ApplySignal(View(), kept[i]).sent;
        assert kept[i..] != [] && kept[i..][0] == kept[i] && kept[i..][1..] == kept[i + 1..];
        ApplySignal(kept[i]);
        assert emitted + (step + ApplyAll(View(), kept[i + 1..]).sent) == emitted + step + ApplyAll(View(), kept[i + 1..]).sent;
        emitted := emitted + step;
        i := i + 1;
      }
      assert kept[i..] == [];
    }

    /** The call was accepted: create the connection, replay the signals kept so far,
        and let the caller offer. */
    method HandleAccepted()
      requires Valid() && connection == null
      modifies this
      ensures Valid() && connection != null && fresh(connection)
      ensures var o := Connect(old(View()));
              View() == o.peer && sent == old(sent) + o.sent
    {
      connection := new PeerConnection(role);
      remoteDescriptionReady, pendingCandidates := false, [];
      var kept := pendingSignals;
      pendingSignals := [];
      assert View() == Open(old(View()));
      hide Negotiation.ApplySignal;
      ReplayKept(kept);
      if role == Caller {
        Renegotiate();
      }
    }
  }
}
