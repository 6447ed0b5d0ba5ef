/** End-to-end walks through the server and two clients, each step checked
    against the contracts alone: presence broadcasts in join order, an offer
    reaching only its addressee, a payload to an absent name dropped, a
    disconnect announced, and a whole offer/answer exchange. */
module Scenarios {
  import opened Options
  import opened Signaling
  import opened Registry
  import opened Server
  import opened Calls

  /** Two joins: the list broadcasts follow join order, and each joiner is
      announced to everyone else. */
  method PresenceInJoinOrder() {
    var server := new SignalServer<string>();
    server.JoinAudio("A", "alice");
    assert server.audioUsers == [("A", "alice")];
    server.JoinAudio("B", "bob");
    PutInPlace([("A", "alice")], "B", "bob");
    assert server.audioUsers == [("A", "alice"), ("B", "bob")];
    assert server.sent[1] == Emit(EveryoneBut("A"), NewAudioUser("alice"));
    assert Names(server.audioUsers) == ["alice", "bob"];
    assert server.sent[2] == Emit(Everyone, AudioUsers(["alice", "bob"]));
    assert server.sent[3] == Emit(EveryoneBut("B"), NewAudioUser("bob"));
  }

  /** Only bob's socket receives an offer to bob, unchanged; an offer to a
      name nobody holds is dropped. */
  method OfferReachesOnlyAddressee(server: SignalServer<string>)
    requires server.audioUsers == [("A", "alice"), ("B", "bob")]
    modifies server
  {
    var before := server.sent;
    var offer := Signal("alice", "bob", "offer-sdp");
    server.AudioOffer(offer);
    assert FirstNamed(server.audioUsers, "bob", 1);
    assert server.sent == before + [Emit(Only("B"), Relayed(Offer, offer))];

    server.AudioOffer(Signal("alice", "carol", "offer-sdp"));
    assert |server.sent| == |before| + 1;
  }

  /** bob's socket drops without leave-audio: everyone hears of it once, and
      a second disconnect or a relay to bob changes nothing. */
  method DisconnectAnnounced(server: SignalServer<string>)
    requires server.audioUsers == [("A", "alice"), ("B", "bob")]
    requires server.Valid()
    modifies server
  {
    var before := server.sent;
    server.Disconnect("B");
    RemoveInPlace([("A", "alice"), ("B", "bob")], "B");
    assert server.audioUsers == [("A", "alice")];
    assert Names(server.audioUsers) == ["alice"];
    assert server.sent == before + [Emit(Everyone, AudioUsers(["alice"])),
                                    Emit(EveryoneBut("B"), AudioLeft(Some("bob")))];

    server.Disconnect("B");
    server.IceCandidate(Signal("alice", "bob", "candidate"));
    assert |server.sent| == |before| + 2;
  }

  /** alice calls bob through the server and bob answers: each payload
      reaches only its addressee, and both connections end up with both
      descriptions. */
  method OfferAnswerExchange(server: SignalServer<string>)
    requires server.audioUsers == [("A", "alice"), ("B", "bob")]
    modifies server
  {
    var alice := new CallClient<int, string>("alice");
    var bob := new CallClient<int, string>("bob");
    var before := server.sent;

    alice.StartCallTo("bob", 1, "offer-sdp");
    var offer := alice.outbox[0];
    assert offer == Outgoing(Offer, Signal("alice", "bob", "offer-sdp"));
    server.Relay(offer.kind, offer.signal);
    assert FirstNamed(server.audioUsers, "bob", 1);
    assert server.sent == before + [Emit(Only("B"), Relayed(Offer, offer.signal))];

    bob.OnAudioOffer(offer.signal, 2, "answer-sdp");
    var answer := bob.outbox[0];
    assert answer == Outgoing(Answer, Signal("bob", "alice", "answer-sdp"));
    server.Relay(answer.kind, answer.signal);
    assert FirstNamed(server.audioUsers, "alice", 0);
    assert server.sent[|before| + 1] == Emit(Only("A"), Relayed(Answer, answer.signal));

    alice.OnAudioAnswer(answer.signal);
    assert alice.effects == [LocalDescriptionSet(1, "offer-sdp"), RemoteDescriptionSet(1, "answer-sdp")];
    assert bob.effects == [RemoteDescriptionSet(2, "offer-sdp"), LocalDescriptionSet(2, "answer-sdp")];
  }

  /** After a call is set up, bob hangs up and a late candidate from alice
      is ignored; a payload addressed to someone else and a call to oneself
      change nothing. */
  method HangUpAndGuards() {
    var alice := new CallClient<int, string>("alice");
    var bob := new CallClient<int, string>("bob");
    alice.StartCallTo("bob", 1, "offer-sdp");
    bob.OnAudioOffer(Signal("alice", "bob", "offer-sdp"), 2, "answer-sdp");
    alice.OnAudioAnswer(Signal("bob", "alice", "answer-sdp"));
    assert |alice.effects| == 2 && |bob.effects| == 2;

    // bob hangs up; a late candidate from alice is then ignored by bob.
    bob.EndCall("alice");
    assert bob.effects[2] == Closed(2);
    bob.OnIceCandidate(Signal("alice", "bob", "candidate"));
    assert |bob.effects| == 3;

    // A payload meant for someone else is ignored even with a call open.
    alice.OnAudioAnswer(Signal("bob", "carol", "answer-sdp"));
    assert |alice.effects| == 2;

    // alice still holds her connection with bob: calling bob again adds
    // tracks to it a second time, which throws, so nothing is sent.
    alice.StartCallTo("bob", 4, "offer-sdp");
    assert |alice.outbox| == 1 && |alice.effects| == 2;

    // Calling oneself does nothing.
    alice.StartCallTo("alice", 3, "offer-sdp");
    assert |alice.outbox| == 1 && alice.pcs.Keys == {"bob"};
  }
}
