/** Values shared by the chat component and the video-call component: participant
    identifiers, the opaque WebRTC blobs, the envelopes written to the socket and the
    call-data record that the chat component hands to the video call. */
module Signaling {

  datatype Option<+T> = None | Some(value: T)

  /** A participant identifier (the username); it is also the socket routing key. */
  type UserId = string

  /** A network candidate; its contents are opaque to the client. */
  type Candidate = string

  datatype SdpType = OfferSdp | AnswerSdp

  /** A session description, as produced by createOffer or createAnswer; opaque. */
  datatype Sdp = Sdp(sdpType: SdpType, blob: string)

  /** The socket event names the client emits. */
  datatype EventName =
    | Join
    | SendMessage
    | CallUser
    | MakeAnswer
    | IceCandidateEvent
    | RejectCall
    | EndCall

  datatype Payload =
    | NoPayload
    | Offer(offer: Sdp)
    | Answer(answer: Sdp)
    | IceCandidate(candidate: Candidate)
    | Content(text: string)

  /** One emitted socket message. `to` is absent when the source addresses a null
      user (a reset call-data record) or the event has no addressee (join). */
  datatype Envelope = Envelope(event: EventName, to: Option<UserId>, from: UserId, payload: Payload)

  /** The call-data record of the chat component; `caller`, `callee` and `offer`
      are null when no call is set up. */
  datatype CallData = CallData(
    isReceivingCall: bool,
    isInitiator: bool,
    caller: Option<UserId>,
    callee: Option<UserId>,
    offer: Option<Sdp>)

  /** The all-null/false record the chat component resets to. */
  const NoCall: CallData := CallData(false, false, None, None, None)

  /** The record written when `me` starts a call with `peer`. */
  function Outgoing(me: UserId, peer: UserId): CallData
  {
    CallData(false, true, Some(me), Some(peer), None)
  }

  /** The record written when `from` calls `me` with an optional offer. */
  function Incoming(from: UserId, me: UserId, offer: Option<Sdp>): CallData
  {
    CallData(true, false, Some(from), Some(me), offer)
  }

  /** The party on the other end: the callee for the initiator, the caller otherwise. */
  function OtherUser(cd: CallData): Option<UserId>
  {
    if cd.isInitiator then cd.callee else cd.caller
  }

  /** Whichever side of a call the user is on, the other user is the peer and never
      the user's own slot in the record. */
  lemma OtherUserIsPeer(me: UserId, peer: UserId, offer: Option<Sdp>)
    ensures OtherUser(Outgoing(me, peer)) == Some(peer)
    ensures OtherUser(Incoming(peer, me, offer)) == Some(peer)
    ensures OtherUser(NoCall).None?
  {
  }
}
