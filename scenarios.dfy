/** Clients of `TunnelServer` that run fixed sequences of events on any
    request and any peer message, and state what the HTTP caller and the peer
    observe, from the event methods' specifications alone. */
module Scenarios {
  import opened Json
  import opened Frames
  import opened Server

  /** A fresh server whose peer, connection 0, has been acknowledged and
      sent `req`, now awaiting its reply. */
  method OneCallInFlight(req: Request) returns (s: TunnelServer, id: nat)
    requires IsProxyRoute(req.path)
    ensures fresh(s) && s.Valid() && s.AnsweredOnce()
    ensures s.active == Some(0) && s.ready == map[0 := Open]
    ensures id == 0 && s.listeners.Keys == {0} && s.listeners[0] == [id]
    ensures s.calls == [Call(Some(0), true, [])]
    ensures s.outbox == [Sent(0, ConnectedFrame), Sent(0, RequestFrame(req))]
  {
    s := new TunnelServer();
    s.Connect(0);
    id := s.Dispatch(req);
  }

  /** With no peer connected, a call is answered 503 and no frame is sent. */
  method NoTunnel(req: Request) returns (writes: seq<Reply>, sent: seq<Sent>)
    requires IsProxyRoute(req.path)
    ensures writes == [NoTunnelReply]
    ensures sent == []
  {
    var s := new TunnelServer();
    var id := s.Dispatch(req);
    writes := s.calls[id].writes;
    sent := s.outbox;
  }

  /** A connected peer is acknowledged, and receives the request with its
      method and stripped path. Its `http_response` is passed unchanged to
      `res.status(…).set(…).send(…)`, and the timer that fires later writes
      nothing more. */
  method ProxyRoundTrip(req: Request, status: int, headers: seq<(string, Json)>, body: Json)
    returns (ack: Json, frame: Json, writes: seq<Reply>)
    requires IsProxyRoute(req.path) && status != 0
    ensures ack == ConnectedFrame
    ensures Member(frame, "type") == Read(Some(Str("http_request")))
    ensures Member(frame, "method") == Read(Some(Str(req.verb)))
    ensures Member(frame, "path") == Read(Some(Str(TargetPath(req.path))))
    ensures writes == [Relayed(Num(status), Obj(headers), Some(body))]
  {
    var s, id := OneCallInFlight(req);
    ack := s.outbox[0].frame;
    frame := s.outbox[1].frame;
    PeerReplyRelayed(status, headers, body);
    s.Deliver(0, Some(ReplyFrame(Num(status), Obj(headers), body)));
    assert s.calls[id] == Fired(Call(Some(0), true, []), true, Respond(Relayed(Num(status), Obj(headers), Some(body))));
    s.Timeout(id);
    writes := s.calls[id].writes;
  }

  /** After the peer connects and closes, the slot is empty and a call is
      answered 503. */
  method ConnectThenClose(req: Request) returns (slot: Option<ConnId>, writes: seq<Reply>)
    requires IsProxyRoute(req.path)
    ensures slot == None
    ensures writes == [NoTunnelReply]
  {
    var s := new TunnelServer();
    s.Connect(0);
    s.Close(0);
    slot := s.GetActive();
    var id := s.Dispatch(req);
    writes := s.calls[id].writes;
  }

  /** A newer connection takes over: the request goes to it, and no message
      on the replaced connection answers the call. */
  method Replacement(req: Request, stale: Option<Json>) returns (target: ConnId, writes: seq<Reply>)
    requires IsProxyRoute(req.path)
    ensures target == 1
    ensures writes == []
  {
    var s := new TunnelServer();
    s.Connect(0);
    s.Connect(1);
    var id := s.Dispatch(req);
    target := s.outbox[|s.outbox| - 1].conn;
    assert id !in s.listeners[0];
    s.Deliver(0, stale);
    writes := s.calls[id].writes;
  }

  /** The replaced connection closing empties the slot although the newer
      connection is still open, so the next call is answered 503. */
  method StaleClose(req: Request) returns (newerOpen: bool, writes: seq<Reply>)
    requires IsProxyRoute(req.path)
    ensures newerOpen
    ensures writes == [NoTunnelReply]
  {
    var s := new TunnelServer();
    s.Connect(0);
    s.Connect(1);
    s.Close(0);
    newerOpen := s.ready[1] == Open;
    var id := s.Dispatch(req);
    writes := s.calls[id].writes;
  }

  /** The first message after the request parses but is not a reply: the
      one-shot listener is spent on it, whatever follows is not seen, and only
      the timer answers. */
  method NonReplyThenTimeout(req: Request, first: Json, next: Option<Json>) returns (writes: seq<Reply>)
    requires IsProxyRoute(req.path)
    requires first != Null && !IsReplyFrame(first)
    ensures writes == [TimeoutReply]
  {
    var s, id := OneCallInFlight(req);
    s.Deliver(0, Some(first));
    assert s.listeners[0] == [] && s.calls[id].writes == [];
    s.Deliver(0, next);
    s.Timeout(id);
    writes := s.calls[id].writes;
  }

  /** A message that does not parse is answered 500, and the timer adds
      nothing. */
  method MalformedReply(req: Request) returns (writes: seq<Reply>)
    requires IsProxyRoute(req.path)
    ensures writes == [InvalidReply]
  {
    var s, id := OneCallInFlight(req);
    s.Deliver(0, None);
    assert s.calls[id].writes == [InvalidReply];
    s.Timeout(id);
    writes := s.calls[id].writes;
  }

  /** Two calls in flight on one connection: the peer's single message
      answers both alike, since nothing ties a reply to its request. */
  method CrossTalk(req1: Request, req2: Request, reply: Option<Json>)
    returns (first: seq<Reply>, second: seq<Reply>)
    requires IsProxyRoute(req1.path) && IsProxyRoute(req2.path)
    ensures first == second
    ensures OnMessage(reply).Respond? ==> first == [OnMessage(reply).reply]
  {
    var s, a := OneCallInFlight(req1);
    var b := s.Dispatch(req2);
    assert s.listeners[0] == [a, b];
    s.Deliver(0, reply);
    first := s.calls[a].writes;
    second := s.calls[b].writes;
  }

  /** The timer as written, after the connection was replaced: it removes the
      listener from the new connection and writes 504, and then the old
      connection's late reply writes the same response a second time. */
  method LateReplyAfterReplacement(req: Request, late: Json) returns (writes: seq<Reply>)
    requires IsProxyRoute(req.path) && IsReplyFrame(late)
    ensures |writes| == 2 && writes[0] == TimeoutReply && writes[1].Relayed?
  {
    var s, id := OneCallInFlight(req);
    s.Connect(1);
    s.Timeout(id);
    assert s.listeners[0] == [id] && s.calls[id].writes == [TimeoutReply];
    s.Deliver(0, Some(late));
    writes := s.calls[id].writes;
  }

  /** The same events with the listener removed from the connection it was
      armed on: the late reply finds no listener and the 504 stands alone. */
  method LateReplyAfterReplacementFixed(req: Request, late: Json) returns (writes: seq<Reply>)
    requires IsProxyRoute(req.path)
    ensures writes == [TimeoutReply]
  {
    var s, id := OneCallInFlight(req);
    s.Connect(1);
    s.TimeoutOwnConnection(id);
    assert s.listeners[0] == [] && s.calls[id].writes == [TimeoutReply];
    s.Deliver(0, Some(late));
    writes := s.calls[id].writes;
  }
}
