/** The call bookkeeping of client.js: the map `pcs` from a remote username
    to the peer connection opened with that participant, the handlers that
    create, use and drop its entries, and the guards in front of them.
    Peer connections are opaque handles of type `P`, and session
    descriptions and candidates are opaque bodies of type `B`. What the
    browser does with them is recorded in `effects`, and what the client
    emits to the server in `outbox`. A new `RTCPeerConnection`, an offer and
    an answer come from the browser, so they are parameters. */
module Calls {
  import opened Options
  import opened Signaling

  /** The calls the client makes on a peer connection. */
  datatype Effect<P, B> =
    | LocalDescriptionSet(pc: P, sdp: B)    // pc.setLocalDescription(...)
    | RemoteDescriptionSet(pc: P, sdp: B)   // pc.setRemoteDescription(...)
    | CandidateAdded(pc: P, candidate: B)   // pc.addIceCandidate(...)
    | Closed(pc: P)                         // pc.close()

  /** A signaling event the client emits: `audio-offer`, `audio-answer`
      or `ice-candidate`. */
  datatype Outgoing<B> = Outgoing(kind: SignalKind, signal: Signal<B>)

  /** `pc.connectionState`. */
  datatype ConnectionState = New | Connecting | Connected | Disconnected | Failed | ClosedState

  /** The client of a logged-in participant. */
  class CallClient<P, B> {
    /** `me.username`. */
    const me: Username
    /** `pcs`, keyed by the remote participant's username. */
    var pcs: map<Username, P>
    var effects: seq<Effect<P, B>>
    var outbox: seq<Outgoing<B>>

    constructor (me: Username)
      ensures this.me == me
      ensures pcs == map[] && effects == [] && outbox == []
    {
      this.me := me;
      pcs := map[];
      effects := [];
      outbox := [];
    }

    /** `createPeerConnectionFor(remote)`: the existing connection with
        `remote` if there is one, otherwise `created`, which is stored under
        `remote` and is the only entry added. */
    method CreatePeerConnectionFor(remote: Username, created: P) returns (pc: P)
      modifies this`pcs
      ensures remote in old(pcs) ==> pc == old(pcs)[remote] && pcs == old(pcs)
      ensures remote !in old(pcs) ==> pc == created && pcs == old(pcs)[remote := created]
      ensures pcs.Keys == old(pcs).Keys + {remote} && pcs[remote] == pc
    {
      if remote in pcs {
        return pcs[remote];
      }
      pc := created;
      pcs := pcs[remote := pc];
    }

    /** `endCall(remote)`: nothing when there is no connection with `remote`;
        otherwise close it and remove exactly that entry. */
    method EndCall(remote: Username)
      modifies this`pcs, this`effects
      ensures remote !in old(pcs) ==> pcs == old(pcs) && effects == old(effects)
      ensures remote in old(pcs) ==>
                && pcs == old(pcs) - {remote}
                && effects == old(effects) + [Closed(old(pcs)[remote])]
      ensures forall r :: r != remote && r in old(pcs) ==> r in pcs && pcs[r] == old(pcs)[r]
    {
      if remote !in pcs {
        return;
      }
      var pc := pcs[remote];
      effects := effects + [Closed(pc)];
      pcs := pcs - {remote};
    }

    /** `handleAnswer(payload)`: apply the answer to the connection with the
        sender, or do nothing when there is none. */
    method HandleAnswer(payload: Signal<B>)
      modifies this`effects
      ensures payload.from !in pcs ==> effects == old(effects)
      ensures payload.from in pcs ==>
                effects == old(effects) + [RemoteDescriptionSet(pcs[payload.from], payload.body)]
    {
      if payload.from !in pcs {
        return;
      }
      effects := effects + [RemoteDescriptionSet(pcs[payload.from], payload.body)];
    }

    /** `handleRemoteIce(payload)`: add the candidate to the connection with
        the sender, or do nothing when there is none. */
    method HandleRemoteIce(payload: Signal<B>)
      modifies this`effects
      ensures payload.from !in pcs ==> effects == old(effects)
      ensures payload.from in pcs ==>
                effects == old(effects) + [CandidateAdded(pcs[payload.from], payload.body)]
    {
      if payload.from !in pcs {
        return;
      }
      effects := effects + [CandidateAdded(pcs[payload.from], payload.body)];
    }

    /** `handleOffer(payload)`: open a connection with the sender, apply its
        offer, set the local answer and send it back. A connection that
        already exists already has the local tracks, so adding them again
        throws and the handler stops with nothing set and nothing sent. */
    method HandleOffer(payload: Signal<B>, created: P, answer: B)
      modifies this`pcs, this`effects, this`outbox
      ensures payload.from in old(pcs) ==>
                pcs == old(pcs) && effects == old(effects) && outbox == old(outbox)
      ensures payload.from !in old(pcs) ==>
                && pcs == old(pcs)[payload.from := created]
                && effects == old(effects) + [RemoteDescriptionSet(created, payload.body),
                                              LocalDescriptionSet(created, answer)]
                && outbox == old(outbox) + [Outgoing(Answer, Signal(me, payload.from, answer))]
    {
      if payload.from in pcs {
        return;
      }
      var pc := CreatePeerConnectionFor(payload.from, created);
      effects := effects + [RemoteDescriptionSet(pc, payload.body)];
      effects := effects + [LocalDescriptionSet(pc, answer)];
      outbox := outbox + [Outgoing(Answer, Signal(me, payload.from, answer))];
    }

    /** The `audio-offer` listener: an offer addressed to someone else is
        ignored. */
    method OnAudioOffer(payload: Signal<B>, created: P, answer: B)
      modifies this`pcs, this`effects, this`outbox
      ensures payload.to != me ==>
                pcs == old(pcs) && effects == old(effects) && outbox == old(outbox)
      ensures payload.to == me && payload.from in old(pcs) ==>
                pcs == old(pcs) && effects == old(effects) && outbox == old(outbox)
      ensures payload.to == me && payload.from !in old(pcs) ==>
                && pcs == old(pcs)[payload.from := created]
                && effects == old(effects) + [RemoteDescriptionSet(created, payload.body),
                                              LocalDescriptionSet(created, answer)]
                && outbox == old(outbox) + [Outgoing(Answer, Signal(me, payload.from, answer))]
    {
      if payload.to != me {
        return;
      }
      HandleOffer(payload, created, answer);
    }

    /** The `audio-answer` listener: an answer addressed to someone else is
        ignored. */
    method OnAudioAnswer(payload: Signal<B>)
      modifies this`effects
      ensures payload.to != me || payload.from !in pcs ==> effects == old(effects)
      ensures payload.to == me && payload.from in pcs ==>
                effects == old(effects) + [RemoteDescriptionSet(pcs[payload.from], payload.body)]
    {
      if payload.to != me {
        return;
      }
      HandleAnswer(payload);
    }

    /** The `ice-candidate` listener: a candidate addressed to someone else
        is ignored. */
    method OnIceCandidate(payload: Signal<B>)
      modifies this`effects
      ensures payload.to != me || payload.from !in pcs ==> effects == old(effects)
      ensures payload.to == me && payload.from in pcs ==>
                effects == old(effects) + [CandidateAdded(pcs[payload.from], payload.body)]
    {
      if payload.to != me {
        return;
      }
      HandleRemoteIce(payload);
    }

    /** `startCallTo(remote)`: calling oneself does nothing; otherwise open a
        connection with `remote`, set the local offer and send it to `remote`
        through the server. With a connection already open, adding the local
        tracks to it again throws, so no offer is made or sent. */
    method StartCallTo(remote: Username, created: P, offer: B)
      modifies this`pcs, this`effects, this`outbox
      ensures remote == me || remote in old(pcs) ==>
                pcs == old(pcs) && effects == old(effects) && outbox == old(outbox)
      ensures remote != me && remote !in old(pcs) ==>
                && pcs == old(pcs)[remote := created]
                && effects == old(effects) + [LocalDescriptionSet(created, offer)]
                && outbox == old(outbox) + [Outgoing(Offer, Signal(me, remote, offer))]
    {
      if remote == me || remote in pcs {
        return;
      }
      var pc := CreatePeerConnectionFor(remote, created);
      effects := effects + [LocalDescriptionSet(pc, offer)];
      outbox := outbox + [Outgoing(Offer, Signal(me, remote, offer))];
    }

    /** `pc.onicecandidate` of the connection with `remote`: a discovered
        candidate is sent to `remote`; the final `null` candidate is not. */
    method OnLocalCandidate(remote: Username, candidate: Option<B>)
      modifies this`outbox
      ensures candidate.None? ==> outbox == old(outbox)
      ensures candidate.Some? ==>
                outbox == old(outbox) + [Outgoing(Candidate, Signal(me, remote, candidate.value))]
    {
      if candidate.Some? {
        outbox := outbox + [Outgoing(Candidate, Signal(me, remote, candidate.value))];
      }
    }

    /** `pc.onconnectionstatechange` of the connection with `remote`: a
        disconnected, failed or closed connection ends the call. */
    method OnConnectionStateChange(remote: Username, state: ConnectionState)
      modifies this`pcs, this`effects
      ensures state !in {Disconnected, Failed, ClosedState} ==>
                pcs == old(pcs) && effects == old(effects)
      ensures state in {Disconnected, Failed, ClosedState} ==>
                && pcs == old(pcs) - {remote}
                && effects == old(effects) + (if remote in old(pcs) then [Closed(old(pcs)[remote])] else [])
    {
      if state == Disconnected || state == Failed || state == ClosedState {
        EndCall(remote);
      }
    }
  }
}
