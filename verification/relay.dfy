/** The signaling server's `connection` handler: for each event a socket
    raises, the deliveries it causes and the new room membership. The server
    keeps nothing of its own beyond what the transport keeps — which sockets
    are connected and which of them joined the room — and never inspects a
    negotiation payload. */
module Relay {
  import opened Protocol

  datatype Server = Server(connected: set<Id>, room: set<Id>)

  /** What a socket can raise at the server. */
  datatype Inbound = Connect | Disconnect | Send(msg: Upstream)

  /** One event handed to the transport for one socket. */
  datatype Delivery = Delivery(to: Id, msg: Downstream)

  datatype Routed = Routed(next: Server, out: set<Delivery>)

  /** The sockets the transport reaches when addressed by `target`: every
      socket is addressable by its own id while connected, and the room by
      its name. */
  function Targets(s: Server, target: Id): (r: set<Id>)
    ensures target == RoomName ==> r == s.room
    ensures target != RoomName ==> r == s.connected * {target}
  {
    if target == RoomName then s.room
    else if target in s.connected then {target}
    else {}
  }

  /** `msg` handed once to each of `ids`. */
  function Broadcast(ids: set<Id>, msg: Downstream): (r: set<Delivery>)
    ensures forall d :: d in r <==> d.to in ids && d.msg == msg
  {
    set i | i in ids :: Delivery(i, msg)
  }

  /** `join-room`: the sender enters the room and everyone else in it hears
      `user-joined(sender)`; the sender does not. */
  function OnJoin(s: Server, sender: Id): (r: Routed)
    ensures r.next.connected == s.connected && r.next.room == s.room + {sender}
    ensures forall d :: d in r.out <==> d.to in s.room && d.to != sender && d.msg == UserJoined(sender)
  {
    var s' := s.(room := s.room + {sender});
    Routed(s', Broadcast(Targets(s', RoomName) - {sender}, UserJoined(sender)))
  }

  /** `start-streaming`: announced to the whole room, sender included when
      it is a member. Nothing is counted and nothing is refused. */
  function OnStart(s: Server, sender: Id): (r: Routed)
    ensures r.next == s
    ensures forall d :: d in r.out <==> d.to in s.room && d.msg == StreamerStarted(sender)
  {
    Routed(s, Broadcast(Targets(s, RoomName), StreamerStarted(sender)))
  }

  /** `stop-streaming`: announced to the whole room, whether or not the
      sender ever started. */
  function OnStop(s: Server, sender: Id): (r: Routed)
    ensures r.next == s
    ensures forall d :: d in r.out <==> d.to in s.room && d.msg == StreamerStopped(sender)
  {
    Routed(s, Broadcast(Targets(s, RoomName), StreamerStopped(sender)))
  }

  /** `offer`, `answer`, `ice-candidate` carrying a target and a payload: the
      same event goes to the target with the sender as `from` and the payload
      untouched. A target that is not connected gets nothing. */
  function OnRelay(s: Server, sender: Id, kind: SignalKind, to: Id, signal: Signal): (r: Routed)
    ensures r.next == s
    ensures forall d :: d in r.out ==> d.msg == Relayed(kind, sender, signal)
    ensures to != RoomName ==> (forall d :: d in r.out ==> d.to == to) && |r.out| <= 1
    ensures to != RoomName ==> (r.out != {} <==> to in s.connected)
    ensures to == RoomName ==> forall d :: d in r.out <==> d.to in s.room && d.msg == Relayed(kind, sender, signal)
  {
    var out := Broadcast(Targets(s, to), Relayed(kind, sender, signal));
    assert to != RoomName && to in s.connected ==> out == {Delivery(to, Relayed(kind, sender, signal))};
    assert to != RoomName && to !in s.connected ==> out == {};
    Routed(s, out)
  }

  /** `disconnect`: the transport has already taken the socket out of every
      room, so `user-left(sender)` reaches the remaining members only; no
      `streamer-stopped` is sent, even for a socket that was streaming. */
  function OnDisconnect(s: Server, sender: Id): (r: Routed)
    ensures r.next.connected == s.connected - {sender} && r.next.room == s.room - {sender}
    ensures forall d :: d in r.out <==> d.to in s.room && d.to != sender && d.msg == UserLeft(sender)
  {
    var s' := Server(s.connected - {sender}, s.room - {sender});
    Routed(s', Broadcast(Targets(s', RoomName), UserLeft(sender)))
  }

  /** The transport's guarantees about the events it raises: a connecting
      socket gets a fresh id, and only connected sockets raise anything else. */
  predicate Legal(s: Server, sender: Id, e: Inbound) {
    if e.Connect? then sender !in s.connected && sender != RoomName else sender in s.connected
  }

  /** What the transport keeps true: room members are connected sockets and
      no socket id is the room's name. */
  predicate Valid(s: Server) {
    s.room <= s.connected && RoomName !in s.connected
  }

  /** Whether an event may change room membership. */
  predicate ChangesMembership(e: Inbound) {
    e.Disconnect? || (e.Send? && e.msg.JoinRoom?)
  }

  /** The `connection` handler's reaction to one event from `sender`. */
  function Route(s: Server, sender: Id, e: Inbound): (r: Routed)
    ensures e.Connect? ==> r == Routed(s.(connected := s.connected + {sender}), {})
    ensures Valid(s) && Legal(s, sender, e) ==> Valid(r.next)
    ensures Valid(s) ==> forall d :: d in r.out ==> d.to in r.next.connected
    ensures !ChangesMembership(e) ==> r.next.room == s.room
    ensures e.Send? && e.msg.JoinRoom? ==> r.next.room == s.room + {sender}
    ensures e.Disconnect? ==> r.next.room == s.room - {sender}
    ensures e.Connect? || ChangesMembership(e) ==> forall d :: d in r.out ==> d.to != sender
  {
    match e
    case Connect => Routed(s.(connected := s.connected + {sender}), {})
    case Disconnect => OnDisconnect(s, sender)
    case Send(JoinRoom) => OnJoin(s, sender)
    case Send(StartStreaming) => OnStart(s, sender)
    case Send(StopStreaming) => OnStop(s, sender)
    case Send(Forward(kind, to, signal)) => OnRelay(s, sender, kind, to, signal)
  }

  /** A sequence of events, each paired with the socket that raised it. */
  datatype Raised = Raised(sender: Id, event: Inbound)

  predicate LegalRun(s: Server, rs: seq<Raised>)
    decreases |rs|
  {
    rs == [] || (Legal(s, rs[0].sender, rs[0].event) && LegalRun(Route(s, rs[0].sender, rs[0].event).next, rs[1..]))
  }

  /** The server after a sequence of events, with every delivery it made. */
  function RunServer(s: Server, rs: seq<Raised>): (r: Routed)
    ensures Valid(s) && LegalRun(s, rs) ==> Valid(r.next)
    ensures (forall i :: 0 <= i < |rs| ==> !ChangesMembership(rs[i].event)) ==> r.next.room == s.room
    decreases |rs|
  {
    if rs == [] then Routed(s, {})
    else
      var a := Route(s, rs[0].sender, rs[0].event);
      var b := RunServer(a.next, rs[1..]);
      assert forall i :: 0 <= i < |rs[1..]| ==> rs[1..][i] == rs[i + 1];
      Routed(b.next, a.out + b.out)
  }
}
