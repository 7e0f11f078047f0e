/**
 The call-control logic of client/script.js.

 The script keeps its state in module-level variables (`localStream`, `remoteStream`,
 `peerConnection`, `username`, the interval handle) and in a few DOM texts (the two name
 labels, the two mute buttons, the call timer). `CallController` holds exactly that
 state; each event handler of the script is one of its methods, run as one atomic step
 as the browser's event loop runs it.

 The browser's RTCPeerConnection is replaced by `PeerConnection`, a record of what the
 script does to it: the descriptions set on it, the tracks added to it, the remote
 candidates applied to it, and whether it has been closed. The socket is replaced by the
 `outbox`, the sequence of events the script has emitted, in emission order. Values the
 browser produces (the media tracks `getUserMedia` grants, the descriptions
 `createOffer` and `createAnswer` return, the candidates and remote tracks it
 discovers) are parameters of the handlers.

 A dereference of `null` or `undefined` throws a TypeError, which ends the handler at
 that statement; the model returns `Failed` with the state exactly as the script leaves
 it at the throw.
 */
module Client {
  import opened Signaling
  import opened JsText
  import opened CallTimer

  datatype Option<T> = None | Some(value: T)

  datatype TrackKind = Audio | Video

  /** A MediaStreamTrack: its kind never changes, its `enabled` flag is toggled in place. */
  class MediaTrack {
    const kind: TrackKind
    var enabled: bool

    constructor (kind: TrackKind)
      ensures this.kind == kind && enabled
    {
      this.kind := kind;
      enabled := true;
    }
  }

  /** What the script does to an RTCPeerConnection, recorded. */
  class PeerConnection {
    var closed: bool
    var localDescription: Option<SessionDescription>
    var remoteDescription: Option<SessionDescription>
    var senders: seq<MediaTrack>
    var remoteCandidates: seq<IceCandidate>

    /** `new RTCPeerConnection(servers)`; the ICE server configuration is not modelled. */
    constructor ()
      ensures !closed && localDescription == None && remoteDescription == None
      ensures senders == [] && remoteCandidates == []
    {
      closed := false;
      localDescription := None;
      remoteDescription := None;
      senders := [];
      remoteCandidates := [];
    }

    method AddTrack(track: MediaTrack)
      modifies this`senders
      ensures senders == old(senders) + [track]
    {
      senders := senders + [track];
    }

    method SetLocalDescription(description: SessionDescription)
      modifies this`localDescription
      ensures localDescription == Some(description)
    {
      localDescription := Some(description);
    }

    method SetRemoteDescription(description: SessionDescription)
      modifies this`remoteDescription
      ensures remoteDescription == Some(description)
    {
      remoteDescription := Some(description);
    }

    method AddIceCandidate(candidate: IceCandidate)
      modifies this`remoteCandidates
      ensures remoteCandidates == old(remoteCandidates) + [candidate]
    {
      remoteCandidates := remoteCandidates + [candidate];
    }

    method Close()
      modifies this`closed
      ensures closed
    {
      closed := true;
    }
  }

  /**
   `localStream.getTracks().forEach((track) => peerConnection.addTrack(track, localStream))`:
   every local track is added, in stream order.
   */
  method AddLocalTracks(pc: PeerConnection, tracks: seq<MediaTrack>)
    modifies pc`senders
    ensures pc.senders == old(pc.senders) + tracks
  {
    var i := 0;
    while i < |tracks|
      invariant 0 <= i <= |tracks|
      invariant pc.senders == old(pc.senders) + tracks[..i]
    {
      assert tracks[..i + 1] == tracks[..i] + [tracks[i]];
      pc.AddTrack(tracks[i]);
      i := i + 1;
    }
    assert tracks[..i] == tracks;
  }

  /**
   `stream.getAudioTracks()[0]` / `stream.getVideoTracks()[0]`: the index of the first
   track of `kind`, if there is one.
   */
  function FirstOfKind(tracks: seq<MediaTrack>, kind: TrackKind): (r: Option<nat>)
    ensures r.Some? ==> r.value < |tracks| && tracks[r.value].kind == kind
    ensures r.Some? ==> forall k :: 0 <= k < r.value ==> tracks[k].kind != kind
    ensures r.None? ==> forall k :: 0 <= k < |tracks| ==> tracks[k].kind != kind
  {
    if tracks == [] then None
    else if tracks[0].kind == kind then Some(0)
    else match FirstOfKind(tracks[1..], kind)
      case None => None
      case Some(i) => Some(i + 1)
  }

  /** The text a mute button shows for a track that is now `enabled` or not. */
  function MuteLabel(kind: TrackKind, enabled: bool): string
  {
    match kind
    case Audio => if enabled then "Mute Audio" else "Unmute Audio"
    case Video => if enabled then "Mute Video" else "Unmute Video"
  }

  /** How a handler ended: normally, at the empty-name alert, or at a thrown error. */
  datatype Outcome = Completed | EmptyName | Failed(failure: Failure)

  datatype Failure =
    | NoPeerConnection  // `peerConnection` is null when dereferenced
    | NoLocalStream     // `localStream` is undefined when dereferenced
    | MediaDenied       // `getUserMedia` rejected

  /** The negotiation phase the script's variables imply. */
  datatype CallPhase =
    | Idle            // no peer connection
    | Negotiating     // a peer connection with no local description yet
    | AwaitingAnswer  // local description set, remote description not yet
    | Connected       // both descriptions set

  /** Every variable and text the handlers read or write, as one value. */
  datatype ScriptVars = ScriptVars(
    localStream: Option<seq<MediaTrack>>,
    remoteStream: Option<seq<MediaTrack>>,
    peerConnection: PeerConnection?,
    username: Option<string>,
    localLabel: string,
    remoteLabel: string,
    muteAudioLabel: string,
    muteVideoLabel: string,
    timerText: string,
    liveTimers: nat,
    latestTimerLive: bool,
    outbox: seq<Message>)

  /** The state of one browser tab running client/script.js. */
  class CallController {
    var localStream: Option<seq<MediaTrack>>
    var remoteStream: Option<seq<MediaTrack>>
    var peerConnection: PeerConnection?
    var username: Option<string>
    var localLabel: string
    var remoteLabel: string
    var muteAudioLabel: string
    var muteVideoLabel: string
    var timerText: string
    /** Intervals started by `startCallTimer` and not yet cleared. */
    var liveTimers: nat
    /** Whether the interval in `timerInterval` (the last one started) is still running. */
    var latestTimerLive: bool
    /** Every event emitted on the socket, in order. */
    var outbox: seq<Message>

    function Vars(): ScriptVars
      reads this
    {
      ScriptVars(localStream, remoteStream, peerConnection, username, localLabel, remoteLabel,
        muteAudioLabel, muteVideoLabel, timerText, liveTimers, latestTimerLive, outbox)
    }

    /**
     The current peer connection is never a closed one (end call closes it and drops the
     reference in the same step), and the last interval started is among the live ones.
     */
    ghost predicate Valid()
      reads this, peerConnection
    {
      && (peerConnection != null ==> !peerConnection.closed)
      && (latestTimerLive ==> liveTimers >= 1)
    }

    function Phase(): CallPhase
      reads this, peerConnection
    {
      if peerConnection == null then Idle
      else if peerConnection.localDescription.None? then Negotiating
      else if peerConnection.remoteDescription.None? then AwaitingAnswer
      else Connected
    }

    /**
     The script's state when it has just loaded. The initial texts of the labels and
     buttons come from the page's markup and are taken to be the ones the script itself
     writes.
     */
    constructor ()
      ensures Valid() && Phase() == Idle
      ensures Vars() == ScriptVars(None, None, null, None, "", "", MuteLabel(Audio, true),
        MuteLabel(Video, true), ResetTimerText, 0, false, [])
    {
      localStream := None;
      remoteStream := None;
      peerConnection := null;
      username := None;
      localLabel := "";
      remoteLabel := "";
      muteAudioLabel := MuteLabel(Audio, true);
      muteVideoLabel := MuteLabel(Video, true);
      timerText := ResetTimerText;
      liveTimers := 0;
      latestTimerLive := false;
      outbox := [];
    }

    /**
     The "Start Call" button. The name is trimmed and stored first; an empty name stops
     there (with an alert). Otherwise the name is shown and sent as `remote-name` before
     media is requested; with media granted, a fresh peer connection gets the local
     tracks and the offer as its local description, the offer is sent, and a call timer
     is started. A previous peer connection is replaced without being closed, and a
     previous interval keeps running.
     */
    method StartCall(input: string, media: Option<seq<MediaTrack>>, offer: SessionDescription)
      returns (outcome: Outcome)
      requires Valid()
      modifies this
      ensures Valid()
      ensures username == Some(Trim(input))
      ensures Trim(input) == [] ==>
        outcome == EmptyName && Vars() == old(Vars()).(username := Some([]))
      ensures Trim(input) != [] && media.None? ==>
        && outcome == Failed(MediaDenied)
        && Vars() == old(Vars()).(username := Some(Trim(input)), localLabel := Trim(input),
             outbox := old(outbox) + [Message(RemoteNameEvent, Text(Trim(input)))])
      ensures Trim(input) != [] && media.Some? ==>
        && outcome == Completed
        && fresh(peerConnection)
        && peerConnection.senders == media.value
        && peerConnection.localDescription == Some(offer)
        && peerConnection.remoteDescription == None
        && peerConnection.remoteCandidates == []
        && Phase() == AwaitingAnswer
      ensures Trim(input) != [] && media.Some? ==>
        Vars() == old(Vars()).(username := Some(Trim(input)), localLabel := Trim(input),
          localStream := media, peerConnection := peerConnection,
          liveTimers := old(liveTimers) + 1, latestTimerLive := true,
          outbox := old(outbox) + [Message(RemoteNameEvent, Text(Trim(input))),
                                   Message(OfferEvent, Description(offer))])
    {
      var name := Trim(input);
      username := Some(name);
      if name == [] {
        return EmptyName;
      }
      localLabel := name;
      outbox := outbox + [Message(RemoteNameEvent, Text(name))];
      if media.None? {
        return Failed(MediaDenied);
      }
      ghost var sent := outbox;
      SendOffer(media.value, offer);
      assert outbox == old(outbox) + [Message(RemoteNameEvent, Text(name)), Message(OfferEvent, Description(offer))] by {
        assert sent == old(outbox) + [Message(RemoteNameEvent, Text(name))];
      }
      outcome := Completed;
    }

    /**
     The part of "Start Call" after media is granted: store the stream, create and
     prepare a fresh peer connection, send the offer, start the call timer.
     */
    method SendOffer(tracks: seq<MediaTrack>, offer: SessionDescription)
      requires Valid()
      modifies this
      ensures Valid()
      ensures fresh(peerConnection)
      ensures peerConnection.senders == tracks
      ensures peerConnection.localDescription == Some(offer)
      ensures peerConnection.remoteDescription == None
      ensures peerConnection.remoteCandidates == []
      ensures Phase() == AwaitingAnswer
      ensures Vars() == old(Vars()).(localStream := Some(tracks), peerConnection := peerConnection,
        liveTimers := old(liveTimers) + 1, latestTimerLive := true,
        outbox := old(outbox) + [Message(OfferEvent, Description(offer))])
    {
      localStream := Some(tracks);
      var pc := new PeerConnection();
      peerConnection := pc;
      AddLocalTracks(pc, tracks);
      pc.SetLocalDescription(offer);
      outbox := outbox + [Message(OfferEvent, Description(offer))];
      liveTimers := liveTimers + 1;
      latestTimerLive := true;
    }

    /**
     An `offer` arrives. Without a peer connection one is created and stored, and the
     local tracks are added to it (an undefined local stream throws right there); an
     existing connection is reused as it is. The offer becomes the remote description,
     the answer the local description, and the answer is sent.
     */
    method OnOffer(offer: SessionDescription, answer: SessionDescription) returns (outcome: Outcome)
      requires Valid()
      modifies this, peerConnection
      ensures Valid()
      ensures old(peerConnection) == null && old(localStream).None? ==>
        && outcome == Failed(NoLocalStream)
        && fresh(peerConnection) && Phase() == Negotiating
        && peerConnection.senders == [] && peerConnection.remoteDescription == None
        && peerConnection.remoteCandidates == []
        && Vars() == old(Vars()).(peerConnection := peerConnection)
      ensures old(peerConnection) == null && old(localStream).Some? ==>
        && fresh(peerConnection)
        && peerConnection.senders == old(localStream).value
        && peerConnection.remoteCandidates == []
      ensures old(peerConnection) != null ==>
        && peerConnection == old(peerConnection)
        && peerConnection.senders == old(peerConnection.senders)
        && peerConnection.remoteCandidates == old(peerConnection.remoteCandidates)
      ensures old(peerConnection) != null || old(localStream).Some? ==>
        && outcome == Completed
        && peerConnection != null
        && peerConnection.remoteDescription == Some(offer)
        && peerConnection.localDescription == Some(answer)
        && Phase() == Connected
        && Vars() == old(Vars()).(peerConnection := peerConnection,
             outbox := old(outbox) + [Message(AnswerEvent, Description(answer))])
    {
      var pc := peerConnection;
      if pc == null {
        pc := new PeerConnection();
        peerConnection := pc;
        if localStream.None? {
          return Failed(NoLocalStream);
        }
        AddLocalTracks(pc, localStream.value);
      }
      pc.SetRemoteDescription(offer);
      pc.SetLocalDescription(answer);
      outbox := outbox + [Message(AnswerEvent, Description(answer))];
      outcome := Completed;
    }

    /** An `answer` arrives: it becomes the remote description of the current connection. */
    method OnAnswer(answer: SessionDescription) returns (outcome: Outcome)
      requires Valid()
      modifies peerConnection
      ensures Valid() && Vars() == old(Vars())
      ensures old(peerConnection) == null ==> outcome == Failed(NoPeerConnection)
      ensures old(peerConnection) != null ==>
        && outcome == Completed
        && peerConnection.remoteDescription == Some(answer)
        && peerConnection.localDescription == old(peerConnection.localDescription)
        && peerConnection.senders == old(peerConnection.senders)
        && peerConnection.remoteCandidates == old(peerConnection.remoteCandidates)
      ensures old(Phase()) == AwaitingAnswer ==> Phase() == Connected
    {
      if peerConnection == null {
        return Failed(NoPeerConnection);
      }
      peerConnection.SetRemoteDescription(answer);
      outcome := Completed;
    }

    /** An `ice-candidate` arrives: it is applied to the current connection. */
    method OnRemoteCandidate(candidate: IceCandidate) returns (outcome: Outcome)
      requires Valid()
      modifies peerConnection
      ensures Valid() && Vars() == old(Vars())
      ensures old(peerConnection) == null ==> outcome == Failed(NoPeerConnection)
      ensures old(peerConnection) != null ==>
        && outcome == Completed
        && peerConnection.remoteCandidates == old(peerConnection.remoteCandidates) + [candidate]
        && peerConnection.localDescription == old(peerConnection.localDescription)
        && peerConnection.remoteDescription == old(peerConnection.remoteDescription)
        && peerConnection.senders == old(peerConnection.senders)
        && Phase() == old(Phase())
    {
      if peerConnection == null {
        return Failed(NoPeerConnection);
      }
      peerConnection.AddIceCandidate(candidate);
      outcome := Completed;
    }

    /** A `remote-name` arrives: it is shown on the remote label. */
    method OnRemoteName(name: string)
      requires Valid()
      modifies this`remoteLabel
      ensures Valid()
      ensures Vars() == old(Vars()).(remoteLabel := name)
    {
      remoteLabel := name;
    }

    /**
     `peerConnection.ontrack`: the first remote track creates the remote stream, later
     ones are appended after the earlier ones. `MediaStream.addTrack` ignores a track the
     stream already holds.
     */
    method OnTrack(track: MediaTrack)
      requires Valid()
      modifies this`remoteStream
      ensures Valid()
      ensures old(remoteStream).None? ==> remoteStream == Some([track])
      ensures old(remoteStream).Some? && track !in old(remoteStream).value ==>
        remoteStream == Some(old(remoteStream).value + [track])
      ensures old(remoteStream).Some? && track in old(remoteStream).value ==>
        remoteStream == old(remoteStream)
      ensures Vars() == old(Vars()).(remoteStream := remoteStream)
    {
      if remoteStream.None? {
        remoteStream := Some([]);
      }
      if track !in remoteStream.value {
        assert [] + [track] == [track];
        remoteStream := Some(remoteStream.value + [track]);
      }
    }

    /**
     `peerConnection.onicecandidate`: a discovered candidate is sent as `ice-candidate`;
     the end-of-candidates event (a null candidate) sends nothing.
     */
    method OnLocalCandidate(candidate: Option<IceCandidate>)
      requires Valid()
      modifies this`outbox
      ensures Valid()
      ensures candidate.None? ==> Vars() == old(Vars())
      ensures candidate.Some? ==>
        Vars() == old(Vars()).(outbox := old(outbox) + [Message(IceCandidateEvent, Candidate(candidate.value))])
    {
      if candidate.Some? {
        outbox := outbox + [Message(IceCandidateEvent, Candidate(candidate.value))];
      }
    }

    /** The track the mute button for `kind` toggles, when there is a local stream with one. */
    function MuteTarget(kind: TrackKind): Option<MediaTrack>
      reads this
    {
      if localStream.None? then None
      else match FirstOfKind(localStream.value, kind)
        case None => None
        case Some(i) => Some(localStream.value[i])
    }

    function MuteTargetSet(kind: TrackKind): set<MediaTrack>
      reads this
    {
      if MuteTarget(kind).Some? then {MuteTarget(kind).value} else {}
    }

    /**
     The "Mute Audio" (`kind == Audio`) and "Mute Video" (`kind == Video`) buttons: the
     first local track of that kind is enabled or disabled in place and the button's text
     follows the new flag. With no such track nothing happens; with no local stream the
     handler throws. Nothing is emitted.
     */
    method ToggleMute(kind: TrackKind) returns (outcome: Outcome)
      requires Valid()
      modifies this, MuteTargetSet(kind)
      ensures Valid()
      ensures old(localStream).None? ==> outcome == Failed(NoLocalStream) && Vars() == old(Vars())
      ensures old(localStream).Some? ==> outcome == Completed
      ensures old(MuteTarget(kind)).None? ==> Vars() == old(Vars())
      ensures old(MuteTarget(kind)).Some? ==>
        var track := old(MuteTarget(kind)).value;
        && track.enabled == !old(track.enabled)
        && (kind == Audio ==> Vars() == old(Vars()).(muteAudioLabel := MuteLabel(Audio, track.enabled)))
        && (kind == Video ==> Vars() == old(Vars()).(muteVideoLabel := MuteLabel(Video, track.enabled)))
    {
      if localStream.None? {
        return Failed(NoLocalStream);
      }
      outcome := Completed;
      var target := MuteTarget(kind);
      if target.Some? {
        var track := target.value;
        track.enabled := !track.enabled;
        if kind == Audio {
          muteAudioLabel := MuteLabel(Audio, track.enabled);
        } else {
          muteVideoLabel := MuteLabel(Video, track.enabled);
        }
      }
    }

    /**
     Pressing a mute button twice restores the track's flag, leaves the button showing
     the label for that flag, and emits nothing.
     */
    method ToggleMuteTwice(kind: TrackKind)
      requires Valid()
      modifies this, MuteTargetSet(kind)
      ensures Valid()
      ensures old(MuteTarget(kind)).Some? ==>
        var track := old(MuteTarget(kind)).value;
        && track.enabled == old(track.enabled)
        && (kind == Audio ==> Vars() == old(Vars()).(muteAudioLabel := MuteLabel(Audio, track.enabled)))
        && (kind == Video ==> Vars() == old(Vars()).(muteVideoLabel := MuteLabel(Video, track.enabled)))
      ensures old(MuteTarget(kind)).None? ==> Vars() == old(Vars())
    {
      var first := ToggleMute(kind);
      var second := ToggleMute(kind);
    }

    /**
     The "End Call" button: the current connection is closed and dropped, the remote
     stream and both name labels are cleared, the last interval started is cleared and the
     timer text reset. The local stream and the name are kept, and nothing is emitted.
     Without a connection the handler throws before changing anything.
     */
    method EndCall() returns (outcome: Outcome)
      requires Valid()
      modifies this, peerConnection
      ensures Valid()
      ensures old(peerConnection) == null ==> outcome == Failed(NoPeerConnection) && Vars() == old(Vars())
      ensures old(peerConnection) != null ==>
        && outcome == Completed
        && old(peerConnection).closed
        && old(peerConnection).localDescription == old(peerConnection.localDescription)
        && old(peerConnection).remoteDescription == old(peerConnection.remoteDescription)
        && old(peerConnection).senders == old(peerConnection.senders)
        && old(peerConnection).remoteCandidates == old(peerConnection.remoteCandidates)
        && Phase() == Idle
        && Vars() == old(Vars()).(peerConnection := null, remoteStream := None,
             localLabel := "", remoteLabel := "", timerText := ResetTimerText,
             liveTimers := if old(latestTimerLive) then old(liveTimers) - 1 else old(liveTimers),
             latestTimerLive := false)
    {
      if peerConnection == null {
        return Failed(NoPeerConnection);
      }
      peerConnection.Close();
      peerConnection := null;
      remoteStream := None;
      localLabel := "";
      remoteLabel := "";
      if latestTimerLive {
        liveTimers := liveTimers - 1;
        latestTimerLive := false;
      }
      timerText := ResetTimerText;
      outcome := Completed;
    }

    /**
     One tick of a live call-timer interval, `elapsed` milliseconds after the latest call
     start: the timer text shows the elapsed minutes and seconds.
     */
    method TimerTick(elapsed: nat)
      requires Valid() && liveTimers >= 1
      modifies this`timerText
      ensures Valid()
      ensures timerText == FormatDuration(elapsed)
      ensures Vars() == old(Vars()).(timerText := timerText)
    {
      timerText := FormatDuration(elapsed);
    }
  }
}
