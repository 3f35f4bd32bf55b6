# vercel-tunnel-listener: the tunnel server's connection slot and proxy route

This project models the core of `createTunnelServer` in `src/main.ts`. That is a
reverse HTTP tunnel: one peer holds a WebSocket open to `/accept`, and every
HTTP call to `/proxy…` is turned into an `http_request` frame on that socket.
The peer's next message becomes the HTTP response, or the server answers 504
after 30 seconds.

The model has four modules:

- `Json` (json.dfy) covers parsed JSON values and what the server does with
  them in JavaScript: truthiness for `x || d`, and property reads. Reading a
  property of `null` throws. `JSON.parse` keeps the last of two repeated
  keys (`Lookup`).
- `Frames` (frames.dfy) is the pure part of the `/proxy` handler:
  - the forwarded path, `req.params[0] || '/'`;
  - the `requestData` frame;
  - `responseHandler` as a function from the parsed message to a reaction:
    relay, answer 500, or write nothing.
- `Server` (server.dfy) holds the class `TunnelServer`. Its fields are:
  - the `activeConnection` slot;
  - the `readyState` of every accepted socket;
  - the one-shot `message` listeners armed on each socket;
  - the frames sent;
  - for every `/proxy` call, its timer and every write to its response.

  Each callback is one event method: `connection`, `close`, `error`,
  `setActiveConnection`, the route handler, an inbound message and the timer.
  Each method states the whole new state. Each keeps the bookkeeping
  invariant `Valid()`, and `AnsweredOnce()` too where the code does:
  no response is written twice, and every listener that can still fire
  belongs to an unanswered call. The lemmas beside the class prove that
  each transition of the field values keeps both.
- `Scenarios` (scenarios.dfy) holds client methods. Each runs a fixed
  sequence of events (the tests in `src/server.test.ts`, connection
  replacement, cross-talk, the finding below) and states what the caller and
  the peer observe. `OneCallInFlight` is their shared fixture: a fresh server,
  one connection, one `/proxy` call dispatched on it. Four scenarios fire the
  program's own timer, `Timeout` (`ProxyRoundTrip`, `NonReplyThenTimeout`,
  `MalformedReply`, `LateReplyAfterReplacement`).
  `LateReplyAfterReplacementFixed` fires the corrected `TimeoutOwnConnection`,
  and the others stop before any timer fires.

Three behaviours of the code that a reader might not expect; the model keeps them:

- `close` and `error` empty the slot unconditionally. There is no check that
  the slot still holds the closing socket (`Scenarios.StaleClose`).
- There is no correlation identifier. The next message on the socket goes to
  every call waiting there (`Scenarios.CrossTalk`). A first message that is
  valid JSON but not an `http_response` uses up the one-shot listener
  (`Scenarios.NonReplyThenTimeout`).
- A dropped connection does not fail a waiting call. Only the timer answers it.

Environment: JSON text is abstract. An inbound message is `Option<Json>`,
where `None` means `JSON.parse` threw. Timers have no clock: the 30-second
timeout is the event `Timeout`. `ws.send` appends to `outbox`.

## Model

| member | source | states |
|---|---|---|
| `Json.LookupFinds` | src/main.ts:83 | a key is found iff some member carries it, and what is found is the value of the last member carrying it (the object `JSON.parse` builds) |
| `Json.LookupAt` | src/main.ts:83 | the converse: the member at the last position carrying the key is the one read |
| `Frames.TargetPath` | src/main.ts:62-67 | the forwarded path is never empty; it is what follows `/proxy`, or `/` when nothing follows |
| `Frames.ForwardsTestPath` | src/main.ts:67 | `/proxy/test` is forwarded as `/test`, and `/proxy` as `/` |
| `Frames.RequestFrame` | src/main.ts:68-75 | the frame is an object whose `type` is `http_request`, and whose `method`, `path`, `headers`, `body`, `query` read back as the request's own (the path stripped) |
| `Frames.OnMessage` | src/main.ts:81-94 | answers 500 "Invalid response from tunnel" exactly when the message does not parse or is `null`; relays exactly when it is an `http_response`; otherwise writes nothing |
| `Frames.RelayedFields` | src/main.ts:84-87 | an `http_response` is relayed with the peer's status when truthy and 200 otherwise, the peer's headers when truthy and `{}` otherwise, and the peer's body unchanged |
| `Frames.PeerReplyRelayed` | src/main.ts:84-87 | a peer reply `{type: "http_response", status, headers, body}`, with a non-zero status and an object of headers, is passed unchanged to `res.status(…).set(…).send(…)` |
| `Frames.OwnFramesIgnored` | src/main.ts:53 | neither the `connected` frame nor an `http_request` frame, sent back on the channel, is taken as a reply |
| `Server.Without` | src/main.ts:100 | `removeListener` leaves exactly the other listeners, keeps them free of duplicates, and changes nothing when the listener is absent |
| `Server.ConnectKeeps` | src/main.ts:38-54 | a new socket taking the slot with no listeners keeps the bookkeeping and single-write invariants |
| `Server.LeaveOpenKeeps` | src/main.ts:42-50 | a socket leaving `OPEN`, with the slot kept or emptied, keeps both invariants |
| `Server.RejectKeeps` | src/main.ts:63-65 | a call answered 503 at once keeps both invariants |
| `Server.ArmKeeps` | src/main.ts:78-96 | arming one listener for a new, unanswered call on a socket keeps both invariants |
| `Server.FireKeeps` | src/main.ts:81-96 | firing and dropping every listener of a socket that is not closed keeps both invariants |
| `Server.ExpireWellFormed` | src/main.ts:99-104 | the timer keeps the bookkeeping whichever socket it removes the listener from |
| `Server.ExpireAnswersOnce` | src/main.ts:99-104 | the timer keeps single writes when it removes the listener from the socket it was armed on, or when that socket is closed |
| `Server.TunnelServer.constructor` | src/main.ts:20 | the slot starts empty, with no sockets, listeners, frames or calls |
| `Server.TunnelServer.GetActive` | src/main.ts:26 | returns the slot |
| `Server.TunnelServer.SetActive` | src/main.ts:22-24 | overwrites the slot unconditionally; nothing else changes |
| `Server.TunnelServer.Connect` | src/main.ts:38-54 | the new socket is `OPEN`, takes the slot whatever it held, has no listeners, and is sent `{"type":"connected"}` |
| `Server.TunnelServer.PeerClosing` | src/main.ts:63 | the peer's close frame makes the socket `CLOSING` while the slot still holds it; no handler runs |
| `Server.TunnelServer.Close` | src/main.ts:42-45 | the socket is closed and the slot emptied, whichever socket it held |
| `Server.TunnelServer.Error` | src/main.ts:47-50 | the slot is emptied, whichever socket it held; the socket is left `CLOSING` |
| `Server.TunnelServer.Dispatch` | src/main.ts:62-105 | without an `OPEN` socket in the slot: one write of 503 "No active tunnel connection", no frame, no listener, no timer. Otherwise: the request frame is sent on that socket, one listener is armed there, the timer starts, and nothing is written yet |
| `Server.TunnelServer.Deliver` | src/main.ts:81-96 | a message on a socket runs every listener armed there once and drops them all. Each call waiting there gets the same reaction; nothing else changes |
| `Server.TunnelServer.Timeout` | src/main.ts:99-104 | as written: removes the listener from the socket in the slot at that moment. Writes 504 "Tunnel response timeout" only if nothing was written. Keeps single writes when that is the socket the listener was armed on, or when the armed socket is closed |
| `Server.TunnelServer.TimeoutOwnConnection` | src/main.ts:99-104 | corrected: removes the listener from the socket it was armed on, then writes 504 only if nothing was written; single writes always kept |
| `Scenarios.NoTunnel` | src/server.test.ts:85-94 | with no peer, any `/proxy` call gets exactly one 503 and no frame is sent |
| `Scenarios.ProxyRoundTrip` | src/server.test.ts:30-83 | the peer is acknowledged, and receives the request's method under the stripped path. A reply with any non-zero status is passed unchanged to `res.status(…).set(…).send(…)`, and the later timer (as written) writes nothing |
| `Scenarios.ConnectThenClose` | src/server.test.ts:96-113 | after connect and close the slot is empty and the next call gets 503 |
| `Scenarios.Replacement` | src/main.ts:40 | after a second connection, requests go to it, and no message on the replaced one answers them |
| `Scenarios.StaleClose` | src/main.ts:42-45 | the replaced socket closing empties the slot while the newer one is open, so the next call gets 503 |
| `Scenarios.NonReplyThenTimeout` | src/main.ts:84-104 | a first message that parses but is not an `http_response` spends the one-shot listener. Whatever follows is not seen, and only the 504 of the timer as written answers |
| `Scenarios.MalformedReply` | src/main.ts:90-92 | an unparseable message is answered 500 exactly once; the timer as written adds nothing |
| `Scenarios.CrossTalk` | src/main.ts:81-96 | two calls waiting on one socket receive the same writes from the peer's single message: its reply, when it yields one |
| `Scenarios.LateReplyAfterReplacement` | src/main.ts:99-104 | with the timer as written, any late `http_response` on the replaced socket makes it two writes: 504, then the relayed reply |
| `Scenarios.LateReplyAfterReplacementFixed` | src/main.ts:99-104 | with the corrected timer, the same events leave the single 504 |

## Findings

| source | as written | input that shows it | evidently intended | confidence | as-written member | corrected member |
|---|---|---|---|---|---|---|
| src/main.ts:99-104 | the timer calls `removeListener` on `activeConnection` as it is when the timer fires, not on the socket the listener was armed on | peer A connects; `GET /proxy/test` is sent on A; peer B connects; the timer fires (504; A's listener stays); A sends an `http_response`, which writes the response a second time. Express throws "headers already sent", and the `catch` tries again | the timer removes the listener from the socket it was armed on, so a response is never written twice | not executed | `Server.TunnelServer.Timeout`, exhibited by `Scenarios.LateReplyAfterReplacement` | `Server.TunnelServer.TimeoutOwnConnection`, with `Server.ExpireAnswersOnce`, exhibited by `Scenarios.LateReplyAfterReplacementFixed` |

## Left out

- `src/index.ts`, the `GET /` hello route, Express middleware and body parsing
  (`express.json`, `express.raw` with its 10 MB limit), creation of the HTTP
  server, the `WebSocketServer` path binding, and `console` logging. None of
  them carry tunnel logic.
- JSON text: `JSON.parse` and `JSON.stringify` are not modelled. Numbers are
  integers, and the serialisation of a `Buffer` body is not modelled.
- The percent-decoding Express applies to `req.params[0]` is not modelled.
  Nor is Express's own routing of non-matching paths:
  `Server.TunnelServer.Dispatch` is only called for paths that start with
  `/proxy`.
- What Express and Node do with an unusual relayed reply is not modelled.
  Such replies include a status code Node rejects, headers that are not an
  object, and a write after the response was sent, which throws. Node
  rejects a status outside 100–999 inside the `try`, so the `catch`
  (src/main.ts:90-92) would answer 500 instead. `Reply` records what the
  handler asked to be written, and `Call.writes` counts every attempt.
- Server.TunnelServer.SetActive: accepts only sockets this server accepted. A
  foreign socket would have no `readyState` in the model.
- Server.TunnelServer.Deliver: delivers messages on any socket that is not
  yet closed, `CLOSING` ones included. This over-approximates what `ws`
  emits. With the timer as written, the model therefore admits this
  sequence: connect 0, dispatch, `Error(0)`, `Timeout` (the slot is empty, so
  no listener is removed), then a reply on 0, which gives two writes. `ws`
  stops reading a socket after an error, so this sequence is an artefact of
  the model and not a second defect of the code.
- The `activeConnection?.removeListener('message', responseHandler)` calls in
  `responseHandler` (src/main.ts:88 and :92) are not modelled, because they
  change nothing. Each request's `responseHandler` is a fresh closure, armed
  with `once` on one socket only. `once` detaches it there before calling
  it, so when it runs no socket still holds it.
- Real timers and durations: the 30-second deadline is an event with no
  clock.
- Concurrency: each callback is one atomic step. Node's single event loop
  runs them one at a time.
