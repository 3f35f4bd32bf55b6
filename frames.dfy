/** The pure part of the `/proxy` route: which path is forwarded, the
    `http_request` frame sent to the peer, and what the server writes back for
    the peer's next message. */
module Frames {
  import opened Json

  /** An inbound HTTP call as the route handler sees it: `req.method` (as `verb`),
      `req.path`, and the already parsed `req.headers`, `req.body`, `req.query`. */
  datatype Request = Request(verb: string, path: string, headers: Json, body: Json, query: Json)

  const ProxyPrefix: string := "/proxy"

  /** The route `^\/proxy(.*)$` matches exactly the paths that start with `/proxy`. */
  predicate IsProxyRoute(path: string) {
    ProxyPrefix <= path
  }

  /** `req.params[0] || '/'`: what follows `/proxy`, or `/` when nothing does. */
  function TargetPath(path: string): (t: string)
    requires IsProxyRoute(path)
    ensures t != []
    ensures ProxyPrefix + t == path || (path == ProxyPrefix && t == "/")
  {
    var rest := path[|ProxyPrefix|..];
    assert path == ProxyPrefix + rest;
    if rest == [] then "/" else rest
  }

  /** The `requestData` object the handler stringifies and sends to the peer. */
  function RequestFrame(req: Request): (f: Json)
    requires IsProxyRoute(req.path)
    ensures f.Obj?
    ensures Lookup(f.members, "type") == Some(Str("http_request"))
    ensures Lookup(f.members, "method") == Some(Str(req.verb))
    ensures Lookup(f.members, "path") == Some(Str(TargetPath(req.path)))
    ensures Lookup(f.members, "headers") == Some(req.headers)
    ensures Lookup(f.members, "body") == Some(req.body)
    ensures Lookup(f.members, "query") == Some(req.query)
  {
    var ms := [("type", Str("http_request")),
               ("method", Str(req.verb)),
               ("path", Str(TargetPath(req.path))),
               ("headers", req.headers),
               ("body", req.body),
               ("query", req.query)];
    LookupAt(ms, "type", 0);
    LookupAt(ms, "method", 1);
    LookupAt(ms, "path", 2);
    LookupAt(ms, "headers", 3);
    LookupAt(ms, "body", 4);
    LookupAt(ms, "query", 5);
    Obj(ms)
  }

  /** The acknowledgement sent on every new connection. */
  const ConnectedFrame: Json := Obj([("type", Str("connected"))])

  /** What the server writes on an HTTP response. */
  datatype Reply =
    | /** `res.status(status).set(headers).send(body)`; `None` is `undefined`. */
      Relayed(status: Json, headers: Json, body: Option<Json>)
    | /** `res.status(code).json({ error: message })`. */
      ErrorJson(code: nat, message: string)

  const NoTunnelReply: Reply := ErrorJson(503, "No active tunnel connection")
  const InvalidReply: Reply := ErrorJson(500, "Invalid response from tunnel")
  const TimeoutReply: Reply := ErrorJson(504, "Tunnel response timeout")

  /** What one run of `responseHandler` does with the message it is given. */
  datatype Reaction = Ignore | Respond(reply: Reply)

  /** A parsed message whose `type` is `http_response`. */
  predicate IsReplyFrame(v: Json) {
    v.Obj? && Lookup(v.members, "type") == Some(Str("http_response"))
  }

  /** `responseHandler` applied to the parsed message (`None`: `JSON.parse`
      threw). An `http_response` is relayed with `status || 200` and
      `headers || {}`; a parse failure, or a `null` whose `type` cannot be
      read, answers 500; anything else writes nothing. */
  function OnMessage(parsed: Option<Json>): (r: Reaction)
    ensures r == Respond(InvalidReply) <==> parsed.None? || parsed == Some(Null)
    ensures r.Respond? && r.reply.Relayed? <==> parsed.Some? && IsReplyFrame(parsed.value)
    ensures r == Ignore <==> parsed.Some? && parsed.value != Null && !IsReplyFrame(parsed.value)
  {
    match parsed
    case None => Respond(InvalidReply)
    case Some(v) =>
      match Member(v, "type")
      case Threw => Respond(InvalidReply)
      case Read(t) =>
        if t == Some(Str("http_response")) then
          var m := v.members;
          Respond(Relayed(OrElse(Lookup(m, "status"), Num(200)),
                          OrElse(Lookup(m, "headers"), Obj([])),
                          Lookup(m, "body")))
        else Ignore
  }

  /** What an `http_response` is relayed with: the peer's status when it is
      truthy and 200 otherwise, the peer's headers when truthy and `{}`
      otherwise, and the peer's body (or `undefined`) unchanged. */
  lemma RelayedFields(v: Json)
    requires IsReplyFrame(v)
    ensures OnMessage(Some(v)).Respond? && OnMessage(Some(v)).reply.Relayed?
    ensures var m, r := v.members, OnMessage(Some(v)).reply;
      && (Truthy(Lookup(m, "status")) ==> Some(r.status) == Lookup(m, "status"))
      && (!Truthy(Lookup(m, "status")) ==> r.status == Num(200))
      && (Truthy(Lookup(m, "headers")) ==> Some(r.headers) == Lookup(m, "headers"))
      && (!Truthy(Lookup(m, "headers")) ==> r.headers == Obj([]))
      && r.body == Lookup(m, "body")
  {
  }

  /** The reply object a peer sends: `{type: "http_response", status, headers, body}`. */
  function ReplyFrame(status: Json, headers: Json, body: Json): (r: Json) {
    Obj([("type", Str("http_response")), ("status", status), ("headers", headers), ("body", body)])
  }

  /** A peer reply with a non-zero status and an object of headers is passed
      unchanged to `res.status(…).set(…).send(…)`. */
  lemma PeerReplyRelayed(status: int, headers: seq<(string, Json)>, body: Json)
    requires status != 0
    ensures OnMessage(Some(ReplyFrame(Num(status), Obj(headers), body)))
         == Respond(Relayed(Num(status), Obj(headers), Some(body)))
  {
    var ms := ReplyFrame(Num(status), Obj(headers), body).members;
    LookupAt(ms, "type", 0);
    LookupAt(ms, "status", 1);
    LookupAt(ms, "headers", 2);
    LookupAt(ms, "body", 3);
  }

  /** The path a request to `/proxy/test` is forwarded under. */
  lemma ForwardsTestPath()
    ensures TargetPath("/proxy/test") == "/test"
    ensures TargetPath("/proxy") == "/"
  {
  }

  /** Neither frame the server itself sends is mistaken for a reply when it
      comes back on the channel. */
  lemma OwnFramesIgnored(req: Request)
    requires IsProxyRoute(req.path)
    ensures OnMessage(Some(ConnectedFrame)) == Ignore
    ensures OnMessage(Some(RequestFrame(req))) == Ignore
  {
  }
}
