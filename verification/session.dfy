/** The client side of the room (the `useWebRTC` hook): a reducer from the
    hook's state and one event — an inbound socket event, a user action, a
    callback from the camera or from a peer connection — to the next state and
    the socket events the client emits in reaction. State updates are taken to
    be immediate; peer connections are opaque handles. */
module Session {
  import opened Protocol

  /** A camera/microphone stream, as a token. */
  datatype MediaStream = MediaStream(token: nat)

  /** The two user-visible error messages the hook can show. */
  datatype Fault = CameraUnavailable | LinkFailed

  /** One peer connection: whether it was created as the initiating side, the
      local stream handed to it at creation, and the remote signals fed to it
      so far, in order. */
  datatype Peer = Peer(initiator: bool, stream: Option<MediaStream>, fed: seq<Signal>)

  /** The hook's state; `localStream` stands for both the React state and the
      ref the handlers read, which the code always sets together. `socketId`
      is the id the socket holds at the moment, absent while disconnected; a
      reconnection gets a new one. */
  datatype Client = Client(
    socketId: Option<Id>,
    localStream: Option<MediaStream>,
    isStreaming: bool,
    currentStreamer: Option<Id>,
    remoteStream: Option<MediaStream>,
    error: Option<Fault>,
    peers: map<Id, Peer>)

  datatype Event =
    | SocketConnected(id: Id)                       // the socket (re)connected under `id`
    | SocketDropped                                 // the socket lost its connection
    | Received(msg: Downstream)                     // an event from the server
    | PeerSignal(peer: Id, signal: Signal)          // the peer created for `peer` produced a signal
    | PeerStream(stream: MediaStream)               // a peer delivered a remote stream
    | PeerFailed                                    // a peer reported an error
    | StartRequested                                // the user pressed start
    | MediaSettled(acquired: Option<MediaStream>)   // the camera request resolved (None: it failed)
    | StopRequested                                 // the user pressed stop

  datatype Reaction = Reaction(next: Client, outbox: seq<Upstream>)

  /** The invariant the hook keeps: it only claims to be streaming while it
      holds a local stream. */
  predicate Valid(c: Client) {
    c.isStreaming ==> c.localStream.Some?
  }

  /** Every field except the peer map is as in `c`. */
  ghost predicate SameExceptPeers(c: Client, d: Client) {
    d.(peers := c.peers) == c
  }

  /** Every peer entry other than the one for `u` is present in `d` exactly
      when it is present in `c`, and unchanged. */
  ghost predicate PeersKeptExcept(c: Client, d: Client, u: Id) {
    forall k :: k != u ==>
      (k in d.peers <==> k in c.peers) && (k in d.peers ==> d.peers[k] == c.peers[k])
  }

  /** A fresh peer for `id`, replacing whatever entry `id` had; it is given
      the local stream currently held and, for a responder, the offer. */
  function CreatePeer(c: Client, id: Id, initiator: bool, offer: Option<Signal>): (r: Client)
    ensures r.peers.Keys == c.peers.Keys + {id}
    ensures r.peers[id].initiator == initiator && r.peers[id].stream == c.localStream
    ensures offer.None? ==> r.peers[id].fed == []
    ensures offer.Some? ==> r.peers[id].fed == [offer.value]
    ensures PeersKeptExcept(c, r, id) && SameExceptPeers(c, r)
  {
    var fed := if offer.Some? then [offer.value] else [];
    c.(peers := c.peers[id := Peer(initiator, c.localStream, fed)])
  }

  /** `user-joined`: a client holding a local stream offers it to the
      newcomer; any other client ignores the event. */
  function OnUserJoined(c: Client, u: Id): (r: Client)
    ensures c.localStream.None? ==> r == c
    ensures c.localStream.Some? ==>
      u in r.peers && r.peers[u].initiator && r.peers[u].stream == c.localStream && r.peers[u].fed == []
    ensures PeersKeptExcept(c, r, u) && SameExceptPeers(c, r)
  {
    if c.localStream.Some? then CreatePeer(c, u, true, None) else c
  }

  /** `streamer-started`: record the streamer; unless it is this client's
      current socket id, stop claiming to stream (the local stream is kept)
      and open an initiating peer towards the streamer. */
  function OnStreamerStarted(c: Client, s: Id): (r: Client)
    ensures r.currentStreamer == Some(s)
    ensures c.socketId == Some(s) ==> r.(currentStreamer := c.currentStreamer) == c
    ensures c.socketId != Some(s) ==>
      && !r.isStreaming
      && s in r.peers && r.peers[s].initiator && r.peers[s].fed == []
      && r.localStream == c.localStream && r.peers[s].stream == c.localStream
      && r.remoteStream == c.remoteStream && r.error == c.error
    ensures PeersKeptExcept(c, r, s) && r.socketId == c.socketId
  {
    var c' := c.(currentStreamer := Some(s));
    if c.socketId != Some(s) then CreatePeer(c'.(isStreaming := false), s, true, None) else c'
  }

  /** `streamer-stopped`, whoever stopped: forget the streamer and the remote
      stream and destroy every peer. */
  function OnStreamerStopped(c: Client): (r: Client)
    ensures r.currentStreamer.None? && r.remoteStream.None? && |r.peers| == 0
    ensures r.localStream == c.localStream && r.isStreaming == c.isStreaming && r.error == c.error
    ensures r.socketId == c.socketId
  {
    c.(currentStreamer := None, remoteStream := None, peers := map[])
  }

  /** `offer` from `f`: a responder peer for `f`, fed the offer, replaces any
      entry `f` had. */
  function OnOffer(c: Client, f: Id, offer: Signal): (r: Client)
    ensures f in r.peers && !r.peers[f].initiator && r.peers[f].fed == [offer]
    ensures r.peers[f].stream == c.localStream
    ensures PeersKeptExcept(c, r, f) && SameExceptPeers(c, r)
  {
    CreatePeer(c, f, false, Some(offer))
  }

  /** `answer` or `ice-candidate` from `f`: fed to the peer for `f` when there
      is one, dropped otherwise; never creates an entry. */
  function OnAnswerOrCandidate(c: Client, f: Id, s: Signal): (r: Client)
    ensures r.peers.Keys == c.peers.Keys
    ensures f in c.peers ==>
      && r.peers[f].fed == c.peers[f].fed + [s]
      && r.peers[f].initiator == c.peers[f].initiator
      && r.peers[f].stream == c.peers[f].stream
    ensures f !in c.peers ==> r == c
    ensures PeersKeptExcept(c, r, f) && SameExceptPeers(c, r)
  {
    if f in c.peers then
      var p := c.peers[f];
      c.(peers := c.peers[f := p.(fed := p.fed + [s])])
    else c
  }

  /** `user-left`: destroy and drop the peer for `u`, if any. */
  function OnUserLeft(c: Client, u: Id): (r: Client)
    ensures u !in r.peers
    ensures PeersKeptExcept(c, r, u) && SameExceptPeers(c, r)
  {
    if u in c.peers then c.(peers := c.peers - {u}) else c
  }

  /** The continuation of the start action once the camera request resolves:
      on success hold the stream, claim to stream and announce it; on failure
      show the camera error and emit nothing. */
  function Settle(c: Client, acquired: Option<MediaStream>): (r: Reaction)
    ensures acquired.None? ==> r.next == c.(error := Some(CameraUnavailable)) && r.outbox == []
    ensures acquired.Some? ==>
      && r.next.localStream == acquired && r.next.isStreaming
      && r.next.(localStream := c.localStream, isStreaming := c.isStreaming) == c
      && r.outbox == [StartStreaming]
  {
    if acquired.Some? then
      Reaction(c.(localStream := acquired, isStreaming := true), [StartStreaming])
    else
      Reaction(c.(error := Some(CameraUnavailable)), [])
  }

  /** The stop action, whatever the prior state: release the local stream,
      stop claiming to stream, destroy every peer, and tell the server. */
  function Stop(c: Client): (r: Reaction)
    ensures r.next.localStream.None? && !r.next.isStreaming && |r.next.peers| == 0
    ensures r.next.currentStreamer == c.currentStreamer && r.next.remoteStream == c.remoteStream
    ensures r.next.error == c.error && r.next.socketId == c.socketId
    ensures r.outbox == [StopStreaming]
  {
    Reaction(c.(localStream := None, isStreaming := false, peers := map[]), [StopStreaming])
  }

  /** The ids an event may open a new peer entry for. */
  function Opens(e: Event): set<Id> {
    match e
    case Received(UserJoined(u)) => {u}
    case Received(StreamerStarted(s)) => {s}
    case Received(Relayed(OfferKind, f, _)) => {f}
    case _ => {}
  }

  /** The events the client answers with a socket event. */
  predicate Emits(e: Event) {
    e.SocketConnected? || e.PeerSignal? || (e.MediaSettled? && e.acquired.Some?) || e.StopRequested?
  }

  /** The hook's reaction to one event. */
  function Step(c: Client, e: Event): (r: Reaction)
    ensures Valid(c) ==> Valid(r.next)
    ensures e.SocketConnected? ==> r == Reaction(c.(socketId := Some(e.id)), [JoinRoom])
    ensures e.SocketDropped? ==> r == Reaction(c.(socketId := None), [])
    ensures !e.SocketConnected? && !e.SocketDropped? ==> r.next.socketId == c.socketId
    ensures e.PeerSignal? ==> r == Reaction(c, [Classify(e.peer, e.signal)])
    ensures r.next.peers.Keys - c.peers.Keys <= Opens(e)
    ensures |r.outbox| <= 1 && (r.outbox != [] <==> Emits(e))
    ensures r.next.isStreaming && !c.isStreaming ==> e.MediaSettled? && e.acquired.Some?
    ensures r.next.currentStreamer != c.currentStreamer ==>
      e.Received? && (e.msg.StreamerStarted? || e.msg.StreamerStopped?)
  {
    match e
    case SocketConnected(id) => Reaction(c.(socketId := Some(id)), [JoinRoom])
    case SocketDropped => Reaction(c.(socketId := None), [])
    case Received(msg) =>
      var c' := match msg
        case UserJoined(u) => OnUserJoined(c, u)
        case StreamerStarted(s) => OnStreamerStarted(c, s)
        case StreamerStopped(_) => OnStreamerStopped(c)
        case Relayed(OfferKind, f, s) => OnOffer(c, f, s)
        case Relayed(_, f, s) => OnAnswerOrCandidate(c, f, s)
        case UserLeft(u) => OnUserLeft(c, u);
      Reaction(c', [])
    case PeerSignal(p, s) => Reaction(c, [Classify(p, s)])
    case PeerStream(m) => Reaction(c.(remoteStream := Some(m)), [])
    case PeerFailed => Reaction(c.(error := Some(LinkFailed)), [])
    case StartRequested => Reaction(c.(error := None), [])
    case MediaSettled(acquired) => Settle(c, acquired)
    case StopRequested => Stop(c)
  }

  /** The reaction to a sequence of events, outboxes concatenated in order. */
  function Run(c: Client, es: seq<Event>): (r: Reaction)
    ensures Valid(c) ==> Valid(r.next)
    ensures |r.outbox| <= |es|
    ensures (forall i :: 0 <= i < |es| ==> Opens(es[i]) == {}) ==> r.next.peers.Keys <= c.peers.Keys
    decreases |es|
  {
    if es == [] then Reaction(c, [])
    else
      var a := Step(c, es[0]);
      var b := Run(a.next, es[1..]);
      assert forall i :: 0 <= i < |es[1..]| ==> es[1..][i] == es[i + 1];
      Reaction(b.next, a.outbox + b.outbox)
  }

  /** The start action when no other event interleaves with the camera
      request: on failure only the error changes and nothing is emitted; on
      success the stream is held, streaming is claimed, the error is cleared
      and exactly one `start-streaming` is emitted. */
  function Start(c: Client, acquired: Option<MediaStream>): (r: Reaction)
    ensures acquired.None? ==> r.next == c.(error := Some(CameraUnavailable)) && r.outbox == []
    ensures acquired.Some? ==>
      && r.next == c.(localStream := acquired, isStreaming := true, error := None)
      && r.outbox == [StartStreaming]
  {
    var a := Step(c, StartRequested);
    var b := Step(a.next, MediaSettled(acquired));
    Reaction(b.next, a.outbox + b.outbox)
  }

  /** The hook keeps no pending flag across the camera request: a call to
      the stop action while the request is outstanding is undone when it
      succeeds —
      the client holds the stream, claims to stream, and its last word to the
      server is `start-streaming`. */
  lemma StopDuringCameraRequestIsUndone(c: Client, m: MediaStream)
    ensures var r := Run(c, [StartRequested, StopRequested, MediaSettled(Some(m))]);
      && r.next.isStreaming && r.next.localStream == Some(m) && |r.next.peers| == 0
      && r.outbox == [StopStreaming, StartStreaming]
  {
    var es := [StartRequested, StopRequested, MediaSettled(Some(m))];
    var a := Step(c, StartRequested);
    var b := Step(a.next, StopRequested);
    var d := Step(b.next, MediaSettled(Some(m)));
    assert es[1..] == [StopRequested, MediaSettled(Some(m))];
    assert es[1..][1..] == [MediaSettled(Some(m))];
    assert es[1..][1..][1..] == [];
    assert Run(b.next, es[1..][1..]) == Reaction(d.next, d.outbox);
    assert Run(a.next, es[1..]) == Reaction(d.next, b.outbox + d.outbox);
  }

  /** After a reconnection the client recognises the announcement of its
      own start under its new socket id: it keeps streaming, opens no peer
      and records itself as the current streamer. */
  lemma OwnStartAfterReconnect(c: Client, id: Id, m: MediaStream)
    ensures var r := Run(c, [SocketConnected(id), StartRequested, MediaSettled(Some(m)), Received(StreamerStarted(id))]);
      && r.next.isStreaming && r.next.localStream == Some(m) && r.next.peers == c.peers
      && r.next.currentStreamer == Some(id) && r.next.socketId == Some(id)
      && r.outbox == [JoinRoom, StartStreaming]
  {
    var es := [SocketConnected(id), StartRequested, MediaSettled(Some(m)), Received(StreamerStarted(id))];
    var a := Step(c, es[0]);
    var b := Step(a.next, es[1]);
    var d := Step(b.next, es[2]);
    var f := Step(d.next, es[3]);
    assert es[1..][1..][1..][1..] == [];
    assert Run(d.next, es[1..][1..][1..]) == Reaction(f.next, f.outbox);
    assert Run(b.next, es[1..][1..]) == Reaction(f.next, d.outbox + f.outbox);
    assert Run(a.next, es[1..]) == Reaction(f.next, b.outbox + d.outbox + f.outbox);
  }

  /** A client that is not streaming never creates a peer on `user-joined`:
      with no local stream the event changes nothing at all. */
  lemma {:induction false} ViewersIgnoreJoins(c: Client, users: seq<Id>)
    requires c.localStream.None?
    ensures Run(c, seq(|users|, i requires 0 <= i < |users| => Received(UserJoined(users[i])))) == Reaction(c, [])
    decreases |users|
  {
    var es := seq(|users|, i requires 0 <= i < |users| => Received(UserJoined(users[i])));
    if users != [] {
      assert es[1..] == seq(|users[1..]|, i requires 0 <= i < |users[1..]| => Received(UserJoined(users[1..][i])));
      ViewersIgnoreJoins(c, users[1..]);
    }
  }
}
