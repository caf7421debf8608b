/** Vocabulary shared by the browser client and the signaling server of the
    Tamagochi Cam room: participant ids, negotiation signals and the events
    carried over the socket in each direction. */
module Protocol {

  datatype Option<+T> = None | Some(value: T)

  /** A socket id; the transport assigns one per connection. */
  type Id = string

  /** The single room every client joins. The server addresses it with the
      same call it uses to address one socket, so it shares the id space. */
  const RoomName: Id := "tamagochi-room"

  /** A signal produced or consumed by a peer connection. `sdpType` is the
      `type` field of the signal object: "offer", "answer", "candidate",
      "renegotiate", …, or absent. `blob` is the rest, never inspected. */
  datatype Signal = Signal(sdpType: Option<string>, blob: string)

  /** The three relay events, named after the socket event that carries them. */
  datatype SignalKind = OfferKind | AnswerKind | CandidateKind

  /** Client to server. */
  datatype Upstream =
    | JoinRoom
    | StartStreaming
    | StopStreaming
    | Forward(kind: SignalKind, to: Id, signal: Signal)

  /** Server to client. */
  datatype Downstream =
    | UserJoined(user: Id)
    | StreamerStarted(streamer: Id)
    | StreamerStopped(streamer: Id)
    | Relayed(kind: SignalKind, from: Id, signal: Signal)
    | UserLeft(user: Id)

  /** The event name a peer's outbound signal is sent under: an offer as
      `offer`, an answer as `answer`, and every other signal (candidates,
      renegotiation requests, …) as `ice-candidate`; always addressed to the
      remote participant the peer was created for, payload untouched. */
  function Classify(to: Id, s: Signal): (m: Upstream)
    ensures m.Forward? && m.to == to && m.signal == s
    ensures m.kind == OfferKind <==> s.sdpType == Some("offer")
    ensures m.kind == AnswerKind <==> s.sdpType == Some("answer")
    ensures m.kind == CandidateKind <==> s.sdpType !in {Some("offer"), Some("answer")}
  {
    if s.sdpType == Some("offer") then Forward(OfferKind, to, s)
    else if s.sdpType == Some("answer") then Forward(AnswerKind, to, s)
    else Forward(CandidateKind, to, s)
  }
}
