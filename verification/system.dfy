/** Client reducer and server routing put together: what one client's action
    causes at the server and at the clients the server delivers to. */
module System {
  import opened Protocol
  import S = Session
  import R = Relay

  /** A signal produced by `a`'s peer for `b` reaches `b` under the event
      name matching its type, with `a` as sender and the payload untouched,
      and nobody else gets it. At `b` an offer opens a responder peer for `a`
      fed exactly that signal; an answer or candidate is appended to the peer
      `b` already has for `a`, and dropped when there is none. */
  lemma SignalReachesPeerUnchanged(
    srv: R.Server, a: Id, ca: S.Client, b: Id, cb: S.Client, sig: Signal)
    requires R.Valid(srv) && a in srv.connected && b in srv.connected
    ensures var up := S.Step(ca, S.PeerSignal(b, sig)).outbox;
      && |up| == 1 && up[0].Forward?
      && var routed := R.Route(srv, a, R.Send(up[0]));
      && routed.next == srv
      && routed.out == {R.Delivery(b, Relayed(up[0].kind, a, sig))}
      && var cb' := S.Step(cb, S.Received(Relayed(up[0].kind, a, sig))).next;
      && (sig.sdpType == Some("offer") ==>
            a in cb'.peers && !cb'.peers[a].initiator && cb'.peers[a].fed == [sig])
      && (sig.sdpType != Some("offer") && a in cb.peers ==>
            a in cb'.peers && cb'.peers[a].fed == cb.peers[a].fed + [sig])
      && (sig.sdpType != Some("offer") && a !in cb.peers ==> cb' == cb)
  {
  }

  /** A room member's `start-streaming` is announced to every member, the
      sender included, and each reconciles in its own way: the sender keeps
      its streaming flag and opens no peer, every other member drops its flag
      and opens an initiating peer towards the sender. */
  lemma StartIsAnnouncedToEveryMember(srv: R.Server, a: Id, x: Id, cx: S.Client)
    requires a in srv.room && x in srv.room && cx.socketId == Some(x)
    ensures R.Delivery(x, StreamerStarted(a)) in R.Route(srv, a, R.Send(StartStreaming)).out
    ensures var cx' := S.Step(cx, S.Received(StreamerStarted(a))).next;
      && cx'.currentStreamer == Some(a)
      && (x == a ==> cx'.isStreaming == cx.isStreaming && cx'.peers == cx.peers)
      && (x != a ==> !cx'.isStreaming && a in cx'.peers && cx'.peers[a].initiator)
  {
  }

  /** When a streaming client disconnects, the remaining members hear only
      `user-left`: a viewer drops its peer for the streamer but still names
      it as the current streamer and keeps whatever remote stream it had. */
  lemma DepartedStreamerStaysCurrent(srv: R.Server, a: Id, v: Id, cv: S.Client)
    requires R.Valid(srv) && a in srv.room && v in srv.room && v != a
    requires cv.currentStreamer == Some(a)
    ensures var routed := R.Route(srv, a, R.Disconnect);
      && (forall d :: d in routed.out ==> d.msg == UserLeft(a))
      && R.Delivery(v, UserLeft(a)) in routed.out
      && var cv' := S.Step(cv, S.Received(UserLeft(a))).next;
      && cv'.currentStreamer == Some(a) && cv'.remoteStream == cv.remoteStream
      && a !in cv'.peers
  {
  }

  /** The whole handshake between a viewer `v` and a streamer `s` that holds
      a local stream: `v` hears the start and opens an initiating peer; that
      peer's offer travels to `s`, which opens a responder peer carrying its
      local stream; the responder's answer travels back and is fed to `v`'s
      peer. Afterwards exactly one link exists on each side, with opposite
      roles, each fed the other's signal once. */
  lemma Handshake(
    srv: R.Server, s: Id, cs: S.Client, v: Id, cv: S.Client,
    offer: Signal, answer: Signal)
    requires R.Valid(srv) && s in srv.room && v in srv.room && s != v
    requires cs.localStream.Some? && cv.socketId == Some(v)
    requires offer.sdpType == Some("offer") && answer.sdpType == Some("answer")
    ensures
      var cv1 := S.Step(cv, S.Received(StreamerStarted(s))).next;
      var up1 := S.Step(cv1, S.PeerSignal(s, offer)).outbox;
      var cs1 := S.Step(cs, S.Received(Relayed(OfferKind, v, offer))).next;
      var up2 := S.Step(cs1, S.PeerSignal(v, answer)).outbox;
      var cv2 := S.Step(cv1, S.Received(Relayed(AnswerKind, s, answer))).next;
      && up1 == [Forward(OfferKind, s, offer)]
      && R.Route(srv, v, R.Send(up1[0])).out == {R.Delivery(s, Relayed(OfferKind, v, offer))}
      && up2 == [Forward(AnswerKind, v, answer)]
      && R.Route(srv, s, R.Send(up2[0])).out == {R.Delivery(v, Relayed(AnswerKind, s, answer))}
      && s in cv2.peers && cv2.peers[s].initiator && cv2.peers[s].fed == [answer]
      && v in cs1.peers && !cs1.peers[v].initiator && cs1.peers[v].fed == [offer]
      && cs1.peers[v].stream == cs.localStream
  {
  }
}
