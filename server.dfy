/** The socket.io handlers of server.js that keep the audio presence table and
    relay WebRTC signaling between participants. Every outbound emit is
    recorded, in order, in the log `sent`; who receives it is kept symbolic
    (all sockets, all but one, or exactly one), since the set of connected
    sockets belongs to the transport. */
module Server {
  import opened Options
  import opened Signaling
  import opened Registry

  /** `io.emit`, `socket.broadcast.emit` and `io.to(sid).emit`. */
  datatype Audience = Everyone | EveryoneBut(except: SocketId) | Only(target: SocketId)

  /** The outbound events of the presence and relay handlers. */
  datatype Message<B> =
    | AudioUsers(names: seq<Username>)              // "audio-users"
    | NewAudioUser(name: Username)                   // "new-audio-user"
    | AudioLeft(who: Option<Username>)               // "audio-left"; None is `undefined`
    | Relayed(kind: SignalKind, signal: Signal<B>)   // "audio-offer", "audio-answer", "ice-candidate"

  datatype Emit<B> = Emit(audience: Audience, message: Message<B>)

  class SignalServer<B> {
    /** `audioUsers`: socket id to username, in enumeration order. */
    var audioUsers: seq<Entry>
    /** `socket.username` of every socket that has sent `join-audio`. */
    var socketNames: map<SocketId, Username>
    /** Everything emitted so far. */
    var sent: seq<Emit<B>>

    /** Socket ids are distinct, and every socket with an entry carries
        that entry's name as `socket.username`: both are set by `join-audio`. */
    ghost predicate Valid()
      reads this
    {
      && UniqueIds(audioUsers)
      && forall s :: Lookup(audioUsers, s).Some? ==> SocketName(s) == Lookup(audioUsers, s)
    }

    /** `socket.username`, which is `undefined` until the socket joins. */
    function SocketName(sid: SocketId): (r: Option<Username>)
      reads this
    {
      if sid in socketNames then Some(socketNames[sid]) else None
    }

    constructor ()
      ensures Valid()
      ensures audioUsers == [] && socketNames == map[] && sent == []
    {
      audioUsers := [];
      socketNames := map[];
      sent := [];
    }

    /** `join-audio`: record the name on the socket, store it in the table
        (in place if the socket had joined before), broadcast the full list
        to everyone and the newcomer's name to everyone else. */
    method JoinAudio(sid: SocketId, username: Username)
      requires Valid()
      modifies this
      ensures Valid()
      ensures socketNames == old(socketNames)[sid := username]
      ensures audioUsers == Put(old(audioUsers), sid, username)
      ensures Lookup(audioUsers, sid) == Some(username)
      ensures forall s :: s != sid ==> Lookup(audioUsers, s) == Lookup(old(audioUsers), s)
      ensures sent == old(sent) + [Emit(Everyone, AudioUsers(Names(audioUsers))),
                                   Emit(EveryoneBut(sid), NewAudioUser(username))]
    {
      socketNames := socketNames[sid := username];
      PutLookup(audioUsers, sid, username);
      PutUnique(audioUsers, sid, username);
      audioUsers := Put(audioUsers, sid, username);
      forall s | Lookup(audioUsers, s).Some?
        ensures SocketName(s) == Lookup(audioUsers, s)
      {
        if s != sid {
          assert Lookup(audioUsers, s) == Lookup(old(audioUsers), s);
        }
      }
      sent := sent + [Emit(Everyone, AudioUsers(Names(audioUsers)))];
      sent := sent + [Emit(EveryoneBut(sid), NewAudioUser(username))];
    }

    /** `leave-audio`: delete the socket's entry whether or not there is one,
        and always broadcast the list and the socket's last joined name. */
    method LeaveAudio(sid: SocketId)
      requires Valid()
      modifies this`audioUsers, this`sent
      ensures Valid()
      ensures audioUsers == Remove(old(audioUsers), sid)
      ensures Lookup(audioUsers, sid) == None
      ensures forall s :: s != sid ==> Lookup(audioUsers, s) == Lookup(old(audioUsers), s)
      ensures sent == old(sent) + [Emit(Everyone, AudioUsers(Names(audioUsers))),
                                   Emit(EveryoneBut(sid), AudioLeft(SocketName(sid)))]
    {
      RemoveLookup(audioUsers, sid);
      RemoveUnique(audioUsers, sid);
      audioUsers := Remove(audioUsers, sid);
      sent := sent + [Emit(Everyone, AudioUsers(Names(audioUsers)))];
      sent := sent + [Emit(EveryoneBut(sid), AudioLeft(SocketName(sid)))];
    }

    /** `disconnect`: the same as `leave-audio`, but only when the socket's
        entry exists and is truthy; otherwise nothing happens, so an entry
        whose name is `""` outlives its socket. */
    method Disconnect(sid: SocketId)
      requires Valid()
      modifies this`audioUsers, this`sent
      ensures Valid()
      ensures var cur := Lookup(old(audioUsers), sid);
              if Filled(cur) then
                && audioUsers == Remove(old(audioUsers), sid)
                && Lookup(audioUsers, sid) == None
                && SocketName(sid) == cur
                && sent == old(sent) + [Emit(Everyone, AudioUsers(Names(audioUsers))),
                                        Emit(EveryoneBut(sid), AudioLeft(SocketName(sid)))]
              else
                audioUsers == old(audioUsers) && sent == old(sent)
      ensures forall s :: s != sid ==> Lookup(audioUsers, s) == Lookup(old(audioUsers), s)
    {
      var cur := Lookup(audioUsers, sid);
      if Filled(cur) {
        RemoveLookup(audioUsers, sid);
        RemoveUnique(audioUsers, sid);
        audioUsers := Remove(audioUsers, sid);
        sent := sent + [Emit(Everyone, AudioUsers(Names(audioUsers)))];
        sent := sent + [Emit(EveryoneBut(sid), AudioLeft(SocketName(sid)))];
      }
    }

    /** The `for (let sid in audioUsers)` scan of the relay handlers: the
        first socket, in enumeration order, whose username is `name`. */
    method FirstHolder(name: Username) returns (found: Option<SocketId>)
      ensures found.None? <==> forall i :: 0 <= i < |audioUsers| ==> audioUsers[i].1 != name
      ensures found.Some? ==>
                exists k :: FirstNamed(audioUsers, name, k) && audioUsers[k].0 == found.value
      ensures found == Holder(audioUsers, name)
    {
      found := None;
      var i := 0;
      while i < |audioUsers|
        invariant 0 <= i <= |audioUsers|
        invariant found == None
        invariant forall j :: 0 <= j < i ==> audioUsers[j].1 != name
      {
        if audioUsers[i].1 == name {
          found := Some(audioUsers[i].0);
          assert FirstNamed(audioUsers, name, i);
          break;
        }
        i := i + 1;
      }
    }

    /** The shared body of the three relay handlers: forward the payload,
        unchanged and under its own event name, to exactly the first socket
        named `payload.to`, or drop it silently if there is none. */
    method Relay(kind: SignalKind, payload: Signal<B>)
      modifies this`sent
      ensures Holder(audioUsers, payload.to).None? ==> sent == old(sent)
      ensures Holder(audioUsers, payload.to).Some? ==>
                sent == old(sent) + [Emit(Only(Holder(audioUsers, payload.to).value), Relayed(kind, payload))]
    {
      var target := FirstHolder(payload.to);
      if target.Some? {
        sent := sent + [Emit(Only(target.value), Relayed(kind, payload))];
      }
    }

    /** `audio-offer` handler. */
    method AudioOffer(payload: Signal<B>)
      modifies this`sent
      ensures Holder(audioUsers, payload.to).None? ==> sent == old(sent)
      ensures Holder(audioUsers, payload.to).Some? ==>
                sent == old(sent) + [Emit(Only(Holder(audioUsers, payload.to).value), Relayed(Offer, payload))]
    {
      Relay(Offer, payload);
    }

    /** `audio-answer` handler. */
    method AudioAnswer(payload: Signal<B>)
      modifies this`sent
      ensures Holder(audioUsers, payload.to).None? ==> sent == old(sent)
      ensures Holder(audioUsers, payload.to).Some? ==>
                sent == old(sent) + [Emit(Only(Holder(audioUsers, payload.to).value), Relayed(Answer, payload))]
    {
      Relay(Answer, payload);
    }

    /** `ice-candidate` handler. */
    method IceCandidate(payload: Signal<B>)
      modifies this`sent
      ensures Holder(audioUsers, payload.to).None? ==> sent == old(sent)
      ensures Holder(audioUsers, payload.to).Some? ==>
                sent == old(sent) + [Emit(Only(Holder(audioUsers, payload.to).value), Relayed(Candidate, payload))]
    {
      Relay(Candidate, payload);
    }
  }
}
