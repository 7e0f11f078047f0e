/**
 The signaling messages the two clients exchange through the relay.

 Both sides of the wire use socket.io named events; an event carries a name and one
 payload. Session descriptions and ICE candidates are produced by the browser's
 connectivity library and are opaque here: the relay never looks inside them and the
 client only stores and forwards them.
 */
module Signaling {

  /** The `type` member of an RTCSessionDescription. */
  datatype SdpType = OfferSdp | AnswerSdp

  /** An opaque session description (what `createOffer`/`createAnswer` produce). */
  datatype SessionDescription = SessionDescription(sdpType: SdpType, sdp: string)

  /** An opaque ICE candidate (what `onicecandidate` reports). */
  datatype IceCandidate = IceCandidate(candidate: string, sdpMid: string, sdpMLineIndex: nat)

  /** The payload of one socket.io event; the relay forwards it without inspecting it. */
  datatype Payload =
    | Description(description: SessionDescription)
    | Candidate(ice: IceCandidate)
    | Text(text: string)

  /** One emitted event: its name and its payload. */
  datatype Message = Message(event: string, payload: Payload)

  const OfferEvent: string := "offer"
  const AnswerEvent: string := "answer"
  const IceCandidateEvent: string := "ice-candidate"
  const RemoteNameEvent: string := "remote-name"

  /** The four event names the server registers a relay handler for. */
  predicate IsSignalingEvent(event: string)
  {
    event == OfferEvent || event == AnswerEvent || event == IceCandidateEvent || event == RemoteNameEvent
  }
}
