# WebRTC video chat: call control and signaling relay, in Dafny

The system is a two-party browser video chat. Each browser tab runs `client/script.js`.
The user types a name and presses "Start Call". The tab then:

- sends its name to the other participant;
- asks the browser for camera and microphone;
- creates an RTCPeerConnection and adds the local tracks to it;
- sends an SDP offer and starts a call-duration timer.

The other tab answers the offer. Both tabs exchange ICE candidates, and each shows the
other's name and media. Mute buttons disable and re-enable the local audio or video
track. "End Call" closes the connection and resets the display.

`server/index.js` is the signaling relay. It handles four event names: `offer`, `answer`,
`ice-candidate` and `remote-name`. It re-emits each one unchanged, under the same name,
to every other connected socket.

The project models both pieces and proves what they promise:

- `signaling.dfy` (`Signaling`): the signaling messages. A message is an event name and a
  payload (a session description, an ICE candidate or a text). The four relayed names
  are constants here.
- `js_text.dfy` (`JsText`): the three JavaScript string built-ins the script relies on,
  over `seq<char>`. They are `String.prototype.trim` (ECMAScript white space and line
  terminators), `Number.prototype.toString()` for non-negative integers below 10^21 (where JavaScript
  writes plain digits) and
  `String.prototype.padStart` with a one-character fill. Each comes with the properties
  the script needs and a partner: what trimming strips, reading the digits back, and
  zero padding keeping the value.
- `call_timer.dfy` (`CallTimer`): the call-duration text `Call Duration: MM:SS` computed
  from elapsed milliseconds. The whole minutes and leftover seconds are bounded exactly.
  The text reads back as those two numbers and distinguishes every pair of them. The
  text equals the reset text exactly during the first second.
- `client.dfy` (`Client`): one tab's state machine, as the class `CallController`. Its
  fields are the script's module variables and the texts the handlers write: name
  labels, mute buttons and timer. It also has an `outbox`, the sequence of events
  emitted on the socket, in order.
  - The browser's RTCPeerConnection becomes the class `PeerConnection`, a record of what
    the script does to it. It holds the closed flag, the local and remote descriptions,
    the added tracks and the applied remote candidates.
  - Each handler is a method. Its contract gives the complete new state (through the
    snapshot `Vars()`), the events emitted and the `Outcome`.
  - A dereference of `null`/`undefined` throws a TypeError and ends the handler at that
    statement. This is modelled as a `Failed` outcome, with the state exactly as the
    script leaves it.
  - `Phase()` reads off the implied call phase (idle, negotiating, awaiting the answer,
    connected).
- `server.dfy` (`Server`): the relay.
  - `Step` is a pure semantics of connect, disconnect and receive events over an
    explicit connection set with per-socket inboxes. `Run` extends it to traces.
  - `DeliveredTo` is an independent per-socket account of what a socket is sent,
    computed from the membership alone.
  - The class `RelayServer` has handlers, each proved to perform exactly one `Step`.
  - Lemmas relate `Run` to `DeliveredTo`, and derive fan-out to exactly the other
    sockets, unaltered payloads, the sender's order, no echo, and nothing for
    unconnected sockets or for other event names.
- `scenarios.dfy` (`Scenarios`): whole-system runs, with two tabs connected through the
  relay. In the main run, Alice calls Bob and both end up connected. Other runs show two
  behaviours of the script as written (see "Behaviour as written").

Values produced by the browser are parameters of the handlers:

- the tracks `getUserMedia` grants, or `None` when it rejects;
- the descriptions `createOffer` and `createAnswer` return;
- the local ICE candidates discovered (`None` for the end-of-candidates event);
- the remote tracks that arrive;
- the elapsed time `Date.now() - callStartTime`.

Every handler runs as one atomic step, as the single-threaded event loop runs it.

### Behaviour as written

- "Start Call" assigns the trimmed name to `username` before checking it. On an empty
  name, `username` therefore becomes the empty string. Nothing else changes and nothing
  is emitted (client/script.js:35-41).
- The caller emits `remote-name` and shows its own name before asking for media. When
  `getUserMedia` rejects, the name has already been sent (client/script.js:44-53).
- "Start Call" replaces an existing peer connection without closing it. It starts a new
  interval without clearing the previous one. "End Call" clears only the interval whose
  handle is stored last, so after two starts and one end an interval keeps overwriting
  the reset timer text (`Scenarios.SecondStartLeavesTimerRunning`).
- The mute buttons' texts are written only by the toggles. After muting, hanging up and
  calling again with new media, the button still says "Unmute Audio" while the new
  track is enabled (`Scenarios.MuteLabelOutlivesItsTrack`).
- The offer handler called with no peer connection and no local stream creates and
  stores a peer connection, then throws at `localStream.getTracks()`. The stored
  connection has no tracks and no descriptions (client/script.js:97-120).
- The callee never starts a timer. The caller starts its timer right after sending the
  offer (client/script.js:88-91).

## Model

| member | source | states |
|---|---|---|
| JsText.TrimStartSpec | client/script.js:35 | removing leading white space leaves a suffix of the input; everything dropped is white space; the result is empty or starts with a non-white-space character |
| JsText.TrimEndSpec | client/script.js:35 | removing trailing white space leaves a prefix; everything dropped is white space; the result is empty or ends with a non-white-space character |
| JsText.TrimSpec | client/script.js:35 | the trimmed name neither starts nor ends with white space, and it is empty exactly when the input is all white space |
| JsText.TrimStartSkips | client/script.js:35 | white space before a string that starts with a non-white-space character is removed exactly |
| JsText.TrimEndSkips | client/script.js:35 | white space after a string that ends with a non-white-space character is removed exactly |
| JsText.TrimRemovesExactlySurroundingSpace | client/script.js:35 | trimming any white-space surround of an already trimmed string gives that string back |
| JsText.DigitChar | client/script.js:199 | each digit 0-9 is written as a decimal digit character of that value |
| JsText.DecimalDigits | client/script.js:199 | for `n` below 10^21, `n.toString()` is a non-empty digit string, starting with '0' only for 0, and one character long exactly below 10 |
| JsText.DecimalRoundTrip | client/script.js:199 | reading the digits of `n.toString()` back gives `n` |
| JsText.Repeat | client/script.js:199 | the fill run has the requested length |
| JsText.RepeatSpec | client/script.js:199 | the fill run consists only of the fill character |
| JsText.PadStartSpec | client/script.js:199 | `padStart` reaches the width (or keeps a longer string), ends with the original string and puts only fill characters before it |
| JsText.ZerosValue | client/script.js:199 | a run of zeros reads as 0 |
| JsText.LeadingZerosValue | client/script.js:199 | leading zeros do not change the value of a digit string |
| JsText.ZeroPadValue | client/script.js:199 | zero-padding a digit string keeps it a digit string with the same value |
| CallTimer.Minutes | client/script.js:195 | the whole minutes `m` satisfy `m*60000 <= elapsed < m*60000 + 60000` |
| CallTimer.Seconds | client/script.js:196 | the seconds `s` are below 60 and `minutes*60000 + s*1000 <= elapsed < minutes*60000 + s*1000 + 1000` |
| CallTimer.TwoDigitsExact | client/script.js:199 | a field below 100 is written with exactly two characters |
| CallTimer.TwoDigitsReadsBack | client/script.js:199 | every padded field has at least two digits and reads back as its number |
| CallTimer.FormatDurationReadsBack | client/script.js:194-199 | the text is the prefix, at least two digits reading as the minutes, a colon, and exactly two digits reading as the seconds |
| CallTimer.TwoDigitsZero | client/script.js:199 | zero is shown as "00" |
| CallTimer.FormatDurationInjective | client/script.js:194-199 | two elapsed times with the same text have the same minutes and seconds |
| CallTimer.FirstSecondShowsResetText | client/script.js:194-206 | during the first second a tick shows the same text as the reset |
| CallTimer.FormatDurationIsResetText | client/script.js:194-206 | a tick shows the reset text "Call Duration: 00:00" if and only if less than a second has elapsed |
| Client.MediaTrack.constructor | client/script.js:53 | a granted track has its kind and starts enabled |
| Client.PeerConnection.constructor | client/script.js:59 | a new connection is open, with no descriptions, tracks or remote candidates |
| Client.PeerConnection.AddTrack | client/script.js:62 | the track is appended to the senders |
| Client.PeerConnection.SetLocalDescription | client/script.js:85 | the description becomes the local description |
| Client.PeerConnection.SetRemoteDescription | client/script.js:124 | the description becomes the remote description |
| Client.PeerConnection.AddIceCandidate | client/script.js:143 | the candidate is appended to the applied remote candidates |
| Client.PeerConnection.Close | client/script.js:175 | the connection is closed |
| Client.AddLocalTracks | client/script.js:62 | every local track is added, in stream order, after any tracks already added |
| Client.FirstOfKind | client/script.js:155-165 | finds the first track of the kind with no earlier one of that kind, or reports that none exists |
| Client.CallController.constructor | client/script.js:17-23 | the loaded script is idle, with no stream, connection or name, empty labels, "Mute" button texts, the reset timer text and nothing emitted |
| Client.CallController.StartCall | client/script.js:33-92 | the stored name is the trimmed input. An empty name changes nothing else and emits nothing. A rejected media request leaves the name shown and `remote-name` emitted. Otherwise a fresh connection holds exactly the granted tracks and the offer as local description. It emits `remote-name` then the same offer, and one more interval runs as the latest; nothing else changes |
| Client.CallController.SendOffer | client/script.js:53-91 | after media is granted: the stream is stored, a fresh connection gets the tracks and the offer, the offer is emitted, and a new interval is the latest |
| Client.CallController.OnOffer | client/script.js:95-132 | a connection is created and given the local tracks only when there is none; an existing one keeps its tracks and candidates. An undefined local stream throws after the new connection is stored. Otherwise the remote description is the offer, the local one the answer, exactly one `answer` is emitted and the phase is connected |
| Client.CallController.OnAnswer | client/script.js:135-138 | the answer becomes the remote description and nothing else changes; awaiting the answer becomes connected; without a connection it throws and nothing changes |
| Client.CallController.OnRemoteCandidate | client/script.js:141-144 | the candidate is appended to the connection's applied candidates and nothing else changes; without a connection it throws and nothing changes |
| Client.CallController.OnRemoteName | client/script.js:147-150 | the remote label shows the name and nothing else changes |
| Client.CallController.OnTrack | client/script.js:65-73 | the first remote track creates the remote stream; a new track is appended after the earlier ones; a track the stream already holds leaves it unchanged, as `MediaStream.addTrack` does; nothing else changes |
| Client.CallController.OnLocalCandidate | client/script.js:76-81 | a discovered candidate is emitted as `ice-candidate`; the null end-of-candidates event emits nothing; nothing else changes |
| Client.CallController.ToggleMute | client/script.js:153-170 | the first track of the kind flips its flag and the button text follows the new flag; with no such track nothing changes; with no local stream it throws; nothing is emitted |
| Client.CallController.ToggleMuteTwice | client/script.js:153-170 | pressing a mute button twice restores the track's flag, leaves the text for that flag and emits nothing |
| Client.CallController.EndCall | client/script.js:173-187 | the connection is closed (its record otherwise kept) and dropped, the remote stream and both labels are cleared, the latest interval is cleared, the timer text is reset, and nothing is emitted; the local stream and name stay; without a connection it throws and nothing changes |
| Client.CallController.TimerTick | client/script.js:192-200 | a live interval's tick shows the formatted elapsed time and changes nothing else |
| Server.Broadcast | server/index.js:21-38 | a broadcast keeps the connection set and the set of inboxes |
| Server.Step | server/index.js:17-44 | connect adds and disconnect removes the id, a received event keeps the membership; no inbox disappears and every connected socket still has one |
| Server.Run | server/index.js:17-44 | over any trace no inbox disappears and every connected socket still has one |
| Server.BroadcastReachesExactlyTheOthers | server/index.js:21-38 | a relayed message changes exactly the inboxes of the other connected sockets; each one gets the message appended unchanged. An unhandled event name or an unconnected sender changes nothing |
| Server.MembershipChangesDeliverNothing | server/index.js:17-43 | connecting and disconnecting deliver nothing to any socket |
| Server.StepDelivers | server/index.js:17-44 | one event appends to an inbox exactly what the per-socket account counts for it |
| Server.RunDeliversInOrder | server/index.js:17-44 | over any trace, each inbox grows by exactly the per-socket account of its deliveries, in trace order |
| Server.Sends | server/index.js:21-38 | the trace of one sender emitting each message in turn |
| Server.RelayedOnly | server/index.js:21-38 | a message is kept exactly when it is in the input and its event name is one of the four relayed ones |
| Server.RelayedOnlyAppend | server/index.js:21-38 | the filter keeps the order: the relayed messages of two consecutive batches are those of the first followed by those of the second |
| Server.SendsDeliveredTo | server/index.js:21-38 | another connected socket is sent exactly the sender's relayed messages |
| Server.SenderOrderPreserved | server/index.js:21-38 | a connected recipient receives another connected socket's relayed messages complete, unaltered and in send order |
| Server.WithoutSendsOf | server/index.js:17-44 | an event is kept exactly when it is in the trace and is not a send by the given socket; the result is no longer than the trace |
| Server.OwnSendsIgnored | server/index.js:22-37 | a socket's own sends never count among its deliveries |
| Server.NeverEchoedToSender | server/index.js:22-37 | a socket's inbox is the same as if it had sent nothing |
| Server.AbsentReceivesNothing | server/index.js:17-44 | a socket that is not connected and does not connect receives nothing |
| Server.RelayServer.constructor | server/index.js:11 | a new server has no connections and no inboxes |
| Server.RelayServer.OnConnection | server/index.js:17-18 | the handler performs exactly a connect step: the id joins and every existing inbox is kept |
| Server.RelayServer.OnDisconnect | server/index.js:41-43 | the handler performs exactly a disconnect step: the id leaves and all inboxes are kept |
| Server.RelayServer.OnEvent | server/index.js:21-38 | the handler performs exactly a receive step: the membership is kept, and each inbox gains the message exactly when it reaches that socket |
| Scenarios.CalledAndHungUp | client/script.js:33-187 | after calling and hanging up, a tab still holds its local stream and has no connection |
| Scenarios.StartsCall | client/script.js:33-92 | a fresh tab that starts a call awaits the answer, runs one timer and has emitted its name and then its offer |
| Scenarios.HandlesNameAndOffer | client/script.js:95-150 | a tab with media that is sent a name and an offer shows the name, is connected, holds the offer and emits the answer |
| Scenarios.TwoConnected | server/index.js:17-18 | two sockets that connect to a fresh relay have empty inboxes |
| Scenarios.RelayToTheOther | server/index.js:21-38 | with two sockets connected, one's relayed message reaches only the other |
| Scenarios.RelayPairToTheOther | server/index.js:21-38 | with two sockets connected, two relayed messages reach the other in order |
| Scenarios.AliceCallsBob | client/script.js:33-138 | caller and callee connected through the relay both end up connected; the callee shows the caller's name and the caller holds the callee's answer |
| Scenarios.ThirdParticipantReachesBoth | server/index.js:21-38 | a third socket that joins mid-call reaches both participants with its message |
| Scenarios.BroadcastAfterPeerLeftReachesNobody | server/index.js:21-43 | after one of two participants leaves, the other's messages change no inbox |
| Scenarios.NobodyElseConnected | server/index.js:21-38 | a lone connected sender's messages reach nobody |
| Scenarios.SecondStartLeavesTimerRunning | client/script.js:190-207 | after two starts and one end, one interval is still live and its tick overwrites the reset timer text |
| Scenarios.MutedAndHungUp | client/script.js:153-187 | after muting and hanging up, the audio button says "Unmute Audio" |
| Scenarios.MuteLabelOutlivesItsTrack | client/script.js:153-187 | calling again with new media leaves "Unmute Audio" on the button while the new audio track is enabled |

## Left out

- The page's markup (index.html) is not part of this model. The initial texts of the two name labels (empty), the mute buttons ("Mute Audio", "Mute Video") and the timer ("Call Duration: 00:00") are assumed to be the ones the script itself writes.
- DOM work other than the label, button and timer texts is not modelled: `srcObject`, `style.display`, `alert`. It has no effect on the call state.
- `getUserMedia`, SDP generation, ICE gathering and the STUN server configuration are browser internals. Their results are parameters: granted tracks or a rejection, descriptions and candidates as opaque values.
- Browser-side rejections of `setRemoteDescription`, `setLocalDescription` and `addIceCandidate` are not modelled. Examples are a description in the wrong signaling state, or a candidate before any remote description. Each call always succeeds and records its argument.
- `RTCSessionDescription`/`RTCIceCandidate` wrapping is the identity on the modelled values.
- `setInterval`, `clearInterval` and `Date.now()` scheduling are runtime timers. The model counts live intervals and whether the last one started is live. A tick is an explicit call with the elapsed time since the latest start. Because `callStartTime` is one shared variable, every live interval shows that same elapsed time.
- `Date.now()` differences and the minutes and seconds computed from them are JavaScript doubles; the model uses `nat`. The two agree for every elapsed time a `Date.now()` difference can take, which stays below 8.64e15 ms, far below 2^53 and far below the 10^21 where `toString` switches to exponent notation. A clock stepping backwards would make the elapsed time negative (a step of under a second makes the script show `Call Duration: -1:-1`); `nat` excludes this.
- `async`/`await` interleaving between handlers is not modelled: each handler runs to completion as one step.
- `console.log`, static file serving and `server.listen(3000)` are I/O plumbing and are left out.
- socket.io internals (transport, acknowledgements, reconnection, rooms) are left out. The set of connected sockets belongs to socket.io. The model makes it explicit: connecting adds the id and disconnecting removes it.
- The relay keeps a disconnected socket's inbox as a record of what it was sent. Sending to it stops.
- Client.CallController.TimerTick: requires a live interval, since only a running interval ticks; it does not tie the elapsed time to a clock.
