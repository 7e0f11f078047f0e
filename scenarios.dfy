/**
 Whole-system scenarios: two browser tabs running the client script, connected through
 the relay server, with every emitted event carried from the sender's outbox to the
 relay and from the recipient's inbox to the matching handler.
 */
module Scenarios {
  import opened Signaling
  import opened JsText
  import opened Server
  import opened Client

  /**
   A tab whose user placed a call as `name` with `media` granted and then ended it: the
   local stream stays, the connection is gone, nothing is shown for a remote peer.
   */
  method CalledAndHungUp(name: string, media: seq<MediaTrack>, offer: SessionDescription)
    returns (tab: CallController)
    requires Trimmed(name) && name != []
    ensures fresh(tab) && tab.Valid()
    ensures tab.peerConnection == null && tab.localStream == Some(media)
  {
    tab := new CallController();
    TrimRemovesExactlySurroundingSpace([], name, []);
    assert [] + name + [] == name;
    var o := tab.StartCall(name, Some(media), offer);
    o := tab.EndCall();
  }

  /** A fresh tab whose user starts a call as `name` with `media` granted. */
  method StartsCall(name: string, media: seq<MediaTrack>, offer: SessionDescription)
    returns (tab: CallController)
    requires Trimmed(name) && name != []
    ensures fresh(tab) && tab.Valid() && tab.peerConnection != null && fresh(tab.peerConnection)
    ensures tab.Phase() == AwaitingAnswer && tab.liveTimers == 1 && tab.latestTimerLive
    ensures tab.outbox == [Message(RemoteNameEvent, Text(name)), Message(OfferEvent, Description(offer))]
  {
    tab := new CallController();
    TrimRemovesExactlySurroundingSpace([], name, []);
    assert [] + name + [] == name;
    var o := tab.StartCall(name, Some(media), offer);
  }

  /**
   A tab with a local stream and no connection is sent a name and then an offer: it
   shows the name, answers, and is connected. Returns the event it emitted last.
   */
  method HandlesNameAndOffer(tab: CallController, name: string, offer: SessionDescription, answer: SessionDescription)
    returns (sent: Message)
    requires tab.Valid() && tab.peerConnection == null && tab.localStream.Some?
    modifies tab
    ensures tab.Valid() && tab.peerConnection != null && fresh(tab.peerConnection)
    ensures tab.Phase() == Connected && tab.remoteLabel == name
    ensures tab.peerConnection.remoteDescription == Some(offer)
    ensures sent == Message(AnswerEvent, Description(answer))
  {
    tab.OnRemoteName(name);
    var o := tab.OnOffer(offer, answer);
    sent := tab.outbox[|tab.outbox| - 1];
  }

  /** With exactly two sockets connected, a relayed event from one reaches the other. */
  method RelayToTheOther(server: RelayServer, from: ConnId, to: ConnId, m: Message)
    requires server.Valid() && server.connected == {from, to} && from != to
    requires IsSignalingEvent(m.event)
    modifies server
    ensures server.Valid() && server.connected == old(server.connected)
    ensures server.inbox[to] == old(server.inbox[to]) + [m]
    ensures server.inbox[from] == old(server.inbox[from])
  {
    server.OnEvent(from, m.event, m.payload);
  }

  /** A fresh relay to which `a` and then `b` have connected. */
  method TwoConnected(a: ConnId, b: ConnId) returns (server: RelayServer)
    requires a != b
    ensures fresh(server) && server.Valid() && server.connected == {a, b}
    ensures server.inbox[a] == [] && server.inbox[b] == []
  {
    server := new RelayServer();
    server.OnConnection(a);
    server.OnConnection(b);
  }

  /** With exactly two sockets connected, two relayed events from one reach the other in order. */
  method RelayPairToTheOther(server: RelayServer, from: ConnId, to: ConnId, ms: seq<Message>)
    requires server.Valid() && server.connected == {from, to} && from != to
    requires |ms| == 2 && IsSignalingEvent(ms[0].event) && IsSignalingEvent(ms[1].event)
    modifies server
    ensures server.Valid() && server.connected == old(server.connected)
    ensures server.inbox[to] == old(server.inbox[to]) + ms
    ensures server.inbox[from] == old(server.inbox[from])
  {
    RelayToTheOther(server, from, to, ms[0]);
    RelayToTheOther(server, from, to, ms[1]);
    assert ms == [ms[0]] + [ms[1]];
  }

  /**
   Alice and Bob are connected to the relay. Bob has local media from an earlier call he
   ended (the offer handler needs a local stream to add to the new connection). Alice
   starts a call as "Alice": the relay sends Bob her name and then her offer, Bob's tab
   handles both in order and answers, and Alice's tab applies the relayed answer. Both
   tabs end up connected, Bob's showing Alice's name and Alice's holding Bob's answer.
   */
  method AliceCallsBob(aliceMedia: seq<MediaTrack>, bobMedia: seq<MediaTrack>,
                       earlierOffer: SessionDescription, offer: SessionDescription, answer: SessionDescription)
    returns (alicePhase: CallPhase, bobPhase: CallPhase, bobShows: string, aliceHolds: Option<SessionDescription>)
    ensures alicePhase == Connected && bobPhase == Connected
    ensures bobShows == "Alice"
    ensures aliceHolds == Some(answer)
  {
    var server := TwoConnected("A", "B");
    var bob := CalledAndHungUp("Bob", bobMedia, earlierOffer);
    var alice := StartsCall("Alice", aliceMedia, offer);

    // The relay carries Alice's two events to Bob, in order.
    RelayPairToTheOther(server, "A", "B", alice.outbox);

    // Bob's tab handles them in order and answers; the relay carries the answer to Alice.
    var bobSent := HandlesNameAndOffer(bob, server.inbox["B"][0].payload.text,
      server.inbox["B"][1].payload.description, answer);
    RelayToTheOther(server, "B", "A", bobSent);

    // Alice's tab applies the answer.
    var o := alice.OnAnswer(server.inbox["A"][0].payload.description);

    alicePhase := alice.Phase();
    bobPhase := bob.Phase();
    bobShows := bob.remoteLabel;
    aliceHolds := alice.peerConnection.remoteDescription;
  }

  /**
   A third participant joining mid-call is not kept out: its message reaches both of
   the others, unchanged.
   */
  lemma ThirdParticipantReachesBoth(s: RelayState, a: ConnId, b: ConnId, c: ConnId, m: Message)
    requires WellFormed(s) && a in s.connected && b in s.connected
    requires c != a && c != b && IsSignalingEvent(m.event)
    ensures var r := Run(s, [Connect(c), Receive(c, m)]);
      r.inbox[a] == s.inbox[a] + [m] && r.inbox[b] == s.inbox[b] + [m]
  {
    var trace := [Connect(c), Receive(c, m)];
    RunDeliversInOrder(s, trace, a);
    RunDeliversInOrder(s, trace, b);
    var joined := s.connected + {c};
    assert trace[1..] == [Receive(c, m)] && trace[1..][1..] == [];
    assert DeliveredTo(joined, a, trace[1..]) == [m] + DeliveredTo(joined, a, []);
    assert DeliveredTo(joined, b, trace[1..]) == [m] + DeliveredTo(joined, b, []);
  }

  /**
   After one of two participants drops, the other's messages reach nobody and change
   no inbox.
   */
  lemma BroadcastAfterPeerLeftReachesNobody(s: RelayState, a: ConnId, b: ConnId, ms: seq<Message>)
    requires WellFormed(s) && s.connected == {a, b} && a != b
    ensures forall id :: id in s.inbox ==> Run(s, [Disconnect(a)] + Sends(b, ms)).inbox[id] == s.inbox[id]
  {
    var trace := [Disconnect(a)] + Sends(b, ms);
    var r := Run(s, trace);
    forall id | id in s.inbox
      ensures r.inbox[id] == s.inbox[id]
    {
      RunDeliversInOrder(s, trace, id);
      NobodyElseConnected(s.connected - {a}, b, ms, id);
      assert trace[1..] == Sends(b, ms);
      assert DeliveredTo(s.connected, id, trace) == [] + DeliveredTo(s.connected - {a}, id, trace[1..]);
    }
  }

  lemma {:induction false} NobodyElseConnected(connected: set<ConnId>, b: ConnId, ms: seq<Message>, id: ConnId)
    requires connected <= {b}
    ensures DeliveredTo(connected, id, Sends(b, ms)) == []
    decreases |ms|
  {
    if ms != [] {
      assert Sends(b, ms)[1..] == Sends(b, ms[1..]);
      NobodyElseConnected(connected, b, ms[1..], id);
    }
  }

  /**
   Pressing "Start Call" twice starts two intervals, and "End Call" clears only the one
   whose handle is stored last: after hanging up one interval is still live, and its next
   tick overwrites the reset timer text.
   */
  method SecondStartLeavesTimerRunning(media: seq<MediaTrack>, offer1: SessionDescription,
                                       offer2: SessionDescription, elapsed: nat)
    returns (phase: CallPhase, live: nat, shown: string)
    requires elapsed >= 1000
    ensures phase == Idle && live == 1
    ensures shown == CallTimer.FormatDuration(elapsed) && shown != CallTimer.ResetTimerText
  {
    var tab := StartsCall("Ann", media, offer1);
    TrimRemovesExactlySurroundingSpace([], "Ann", []);
    assert [] + "Ann" + [] == "Ann";
    var o := tab.StartCall("Ann", Some(media), offer2);
    o := tab.EndCall();
    phase := tab.Phase();
    live := tab.liveTimers;
    tab.TimerTick(elapsed);
    shown := tab.timerText;
    CallTimer.FormatDurationIsResetText(elapsed);
  }

  /**
   The mute buttons' texts are written only by the toggles. Muting, hanging up and
   calling again with newly granted media leaves "Unmute Audio" on the button while the
   new audio track is enabled.
   */
  method MuteLabelOutlivesItsTrack(offer1: SessionDescription, offer2: SessionDescription)
    returns (buttonText: string, enabled: bool)
    ensures buttonText == "Unmute Audio" && enabled
  {
    var tab := MutedAndHungUp(offer1);
    TrimRemovesExactlySurroundingSpace([], "Ann", []);
    assert [] + "Ann" + [] == "Ann";
    var second := new MediaTrack(Audio);
    var o := tab.StartCall("Ann", Some([second]), offer2);
    buttonText := tab.muteAudioLabel;
    enabled := second.enabled;
  }

  /** A tab whose user called with one audio track, muted it and hung up. */
  method MutedAndHungUp(offer: SessionDescription) returns (tab: CallController)
    ensures fresh(tab) && tab.Valid() && tab.muteAudioLabel == "Unmute Audio"
  {
    tab := new CallController();
    TrimRemovesExactlySurroundingSpace([], "Ann", []);
    assert [] + "Ann" + [] == "Ann";
    var track := new MediaTrack(Audio);
    var o := tab.StartCall("Ann", Some([track]), offer);
    assert FirstOfKind([track], Audio) == Some(0);
    o := tab.ToggleMute(Audio);
    o := tab.EndCall();
  }
}
