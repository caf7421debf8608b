# Tamagochi Cam signaling core in Dafny

Tamagochi Cam is a one-room webcam sharing site. Browsers join a single
socket.io room. A participant who starts streaming is announced to the room,
and the viewers open WebRTC peer connections to that participant. The Node
server only relays. It announces joins, starts, stops and departures, and
forwards offers, answers and ICE candidates to the socket they name.

This project models the two event-driven parts as pure state-transition
functions:

- `protocol.dfy` (`Protocol`): participant ids, the room name, negotiation
  signals, the socket events in each direction, and the client's rule for
  which event name an outbound signal travels under.
- `session.dfy` (`Session`): the `useWebRTC` hook as a reducer
  `Step(client, event) -> Reaction(client', outbox)`. The events are the
  socket connecting (under a new id each time) or dropping, the inbound
  socket events, the user's start and stop actions, the camera request
  resolving, and the callbacks of a peer connection. The client state is the
  socket's current id, the local stream, `isStreaming`, `currentStreamer`,
  `remoteStream`, `error` and the peer map. A peer is an opaque handle that records its
  `initiator` flag, the local stream it was given and the signals fed to it.
  The invariant "`isStreaming` implies a local stream is held" is preserved by
  every step and every run.
- `relay.dfy` (`Relay`): the server's `connection` handler as
  `Route(server, sender, event) -> Routed(server', deliveries)`. The state is
  the set of connected sockets and the set of room members. A delivery is a
  (recipient, event) pair.
- `system.dfy` (`System`): end-to-end statements that put the two sides
  together. They cover a signal's trip from one peer to the other, the start
  announcement, a streamer's departure, and a full offer/answer handshake.

The code has no broadcaster registry and no capacity limit. A joining client
gets no snapshot of who is streaming. Glare has no tie-break. On disconnect
the server sends `user-left` but never `streamer-stopped`. The model follows
the code in all of these points. The "max 2" text in `src/components/StreamControls.tsx:43` is
only a label: its `disabled` prop is never passed
(`src/app/tamagochi/page.tsx:79-83`).

Points of the code the model makes explicit:

- socket.io addresses a socket and a room with the same call (`io.to(x)`).
  So a relay whose `to` is the room's own name, `tamagochi-room`, reaches the
  whole room. `Relay.OnRelay` models this. The "at most one recipient" promise
  is proved for every other target.
- `startStreaming` clears the error, then waits for the camera. The model
  splits it at the `await` into `StartRequested` and `MediaSettled`. The hook
  keeps no pending flag, so a call to `stopStreaming` while the camera
  request is outstanding is undone when the request succeeds
  (`Session.StopDuringCameraRequestIsUndone`).
- `streamer-started` for another participant clears `isStreaming`. It does
  not release the local stream or destroy the peers already open.
- An inbound offer replaces the peer entry for its sender. The old peer is
  not destroyed first.

## Model

| member | source | states |
|---|---|---|
| Protocol.Classify | src/hooks/useWebRTC.ts:122-130 | an outbound signal goes out as `offer` exactly when its type is "offer", as `answer` exactly when it is "answer", and as `ice-candidate` otherwise; it is addressed to the peer's remote id with the payload unchanged |
| Session.CreatePeer | src/hooks/useWebRTC.ts:115-147 | the entry for the id is replaced by a fresh peer with the given role and the currently held local stream; a responder has been fed exactly its offer, an initiator nothing; every other peer and every other field are unchanged |
| Session.OnUserJoined | src/hooks/useWebRTC.ts:38-46 | an initiating peer for the newcomer is added only when a local stream is held; without one the state is unchanged; other peers and fields are untouched either way |
| Session.OnStreamerStarted | src/hooks/useWebRTC.ts:49-60 | `currentStreamer` becomes the announced id; for an id other than the socket's current one `isStreaming` becomes false, the local stream is kept, and an initiating peer is opened towards the streamer; for the current id nothing else changes |
| Session.OnStreamerStopped | src/hooks/useWebRTC.ts:63-70 | whoever stopped, `currentStreamer` and `remoteStream` are cleared and the peer map is empty, while the local stream, `isStreaming`, `error` and the socket id are kept |
| Session.OnOffer | src/hooks/useWebRTC.ts:73-76 | a responder peer for the sender, fed exactly the offer and carrying the local stream, replaces any entry for the sender; nothing else changes |
| Session.OnAnswerOrCandidate | src/hooks/useWebRTC.ts:79-93 | the signal is appended to the sender's existing peer with its role and stream kept; the key set never changes, and without a peer the state is unchanged |
| Session.OnUserLeft | src/hooks/useWebRTC.ts:96-103 | the departed id has no peer afterwards, every other peer is kept unchanged, and so is every other field |
| Session.Settle | src/hooks/useWebRTC.ts:154-171 | a failed camera request only sets the camera error and emits nothing; a successful one holds the stream, sets `isStreaming`, leaves everything else alone and emits exactly one `start-streaming` |
| Session.Stop | src/hooks/useWebRTC.ts:174-189 | from any state: no local stream, not streaming, no peers, `currentStreamer`/`remoteStream`/`error`/socket id kept, and exactly one `stop-streaming` emitted |
| Session.Step | src/hooks/useWebRTC.ts:32-189 | preserves "`isStreaming` implies a local stream is held"; a connect records the new socket id, emits exactly `join-room` and changes nothing else; a dropped connection only forgets the id; no other event touches the id; a peer signal changes nothing and emits exactly its classified relay event; new peer keys come only from the id a join, a start announcement or an offer names; at most one event is emitted, and one is emitted exactly for a connect, a peer signal, a successful camera request or a stop; only a successful camera request turns streaming on; only start/stop announcements change `currentStreamer` |
| Session.Run | src/hooks/useWebRTC.ts:32-189 | over any sequence of events the invariant is preserved, at most one event is emitted per input event, and a sequence with no join, start announcement or offer never adds a peer key |
| Session.Start | src/hooks/useWebRTC.ts:149-172 | the start action without interleaving: on camera failure only `error` changes and nothing is emitted; on success the stream is held, `isStreaming` is true, the error is cleared and exactly one `start-streaming` is emitted |
| Session.OwnStartAfterReconnect | src/hooks/useWebRTC.ts:32-60 | after reconnecting under a new id and starting, the announcement of that id is taken as the client's own: it keeps streaming, opens no peer, and has emitted `join-room` then `start-streaming` |
| Session.StopDuringCameraRequestIsUndone | src/hooks/useWebRTC.ts:149-189 | a call to `stopStreaming` between the start and a successful camera result leaves the client streaming with the new stream, with no peers, having emitted `stop-streaming` then `start-streaming` |
| Session.ViewersIgnoreJoins | src/hooks/useWebRTC.ts:38-46 | for a client without a local stream, any sequence of `user-joined` events changes nothing and emits nothing |
| Relay.Targets | server.js:51-65 | addressing an id reaches that socket only while it is connected, and addressing the room's name reaches exactly the room |
| Relay.Broadcast | server.js:39-48 | each addressed socket gets the event once, and nobody else gets anything |
| Relay.OnJoin | server.js:30-36 | the sender is added to the room and every other member, never the sender, gets `user-joined(sender)` |
| Relay.OnStart | server.js:39-42 | every room member, the sender included, gets `streamer-started(sender)`; nothing is counted or refused and the state is unchanged |
| Relay.OnStop | server.js:45-48 | every room member gets `streamer-stopped(sender)` whether or not the sender started; the state is unchanged |
| Relay.OnRelay | server.js:51-65 | the relayed event carries the sender as `from` and the payload unchanged; for a socket target there is at most one delivery, there is one exactly when the target is connected, and it goes to the target; the room's name as target reaches the whole room |
| Relay.OnDisconnect | server.js:68-71 | the sender leaves the connected set and the room; every remaining member gets `user-left(sender)` and nothing else, with no `streamer-stopped` |
| Relay.Route | server.js:26-72 | a connection only registers the sender as connected and delivers nothing; keeps "members are connected and no socket is named like the room" for events the transport can raise; every delivery goes to a connected socket; membership changes only on join (add) and disconnect (remove); connect, join and disconnect never echo to the sender |
| Relay.RunServer | server.js:26-72 | over any legal sequence of events the server invariant holds, and a sequence with no join or disconnect leaves the room unchanged |
| System.SignalReachesPeerUnchanged | server.js:51-65 | a peer signal from `a` for `b` reaches exactly `b` with `a` as sender and the payload unchanged; at `b` an offer opens a responder for `a` fed that signal, and any other signal is appended to `b`'s existing peer for `a` or dropped |
| System.StartIsAnnouncedToEveryMember | server.js:39-42 | every member hears a member's start; the starter keeps its flag and opens no peer, and every other member drops its flag and opens an initiating peer towards the starter |
| System.DepartedStreamerStaysCurrent | server.js:68-71 | when a streamer disconnects, a viewer hears only `user-left`, drops its peer, and still names the departed streamer as current with its remote stream kept |
| System.Handshake | src/hooks/useWebRTC.ts:49-93 | a viewer hearing a start, sending an offer through the server and receiving the answer ends with an initiating peer fed the answer, and the streamer with a responder peer that carries its stream and was fed the offer |

## Left out

- SimplePeer internals are not modelled: SDP and ICE negotiation, and when a peer produces a signal or a stream. A peer's signals, streams and errors arrive as the events `PeerSignal`, `PeerStream` and `PeerFailed`, which may occur at any time.
- `getUserMedia` is not modelled; its result is the event `MediaSettled`, which carries a stream token or a failure. Media track stopping is not modelled either; a stream is a token.
- Peer destruction is not modelled: a removed map entry stands for a destroyed peer. A replaced entry's old peer, which the code does not destroy, is not tracked.
- React's `useState` scheduling, the effect lifecycle and its cleanup (src/hooks/useWebRTC.ts:28-31, 105-112) are not modelled; state updates are immediate.
- `console.log` output and the exact text of the two error messages are not modelled; the messages are the values `CameraUnavailable` and `LinkFailed`.
- socket.io delivery order and concurrency between clients are not modelled; the deliveries of one server event form a set. A reconnect is a `SocketConnected` event carrying the new id; the server side sees it as a disconnect and a fresh connect.
- Relay.OnRelay: the target is modelled as one id, so the model does not cover a client that sends an array of rooms as `to` (one delivery per listed room; an empty array reaches every connected socket, the sender and sockets outside the room included), a `null` or missing payload (the destructuring throws and nothing is sent), or a string or number payload (`to` is undefined and the relay reaches nobody). The shipped client always sends an object with a single id.
- The HTTP server and Next.js bootstrap (server.js:1-24, 74-81), the pages, `VideoDisplay`, `StreamControls` and the password route are not modelled. They are I/O and presentation.
- No capacity limit, join-time snapshot or glare tie-break is modelled, because the code implements none.
