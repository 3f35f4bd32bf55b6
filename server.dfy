/** The state `createTunnelServer` keeps between callbacks: the
    `activeConnection` slot, the connections the WebSocket server accepted,
    the one-shot `message` listeners armed by `/proxy` calls, the frames sent,
    and per call its timer and what has been written on its HTTP response.
    Each callback is one atomic event method. */
module Server {
  import opened Json
  import opened Frames

  /** Identity of an accepted WebSocket. */
  type ConnId = nat

  /** `ws.readyState` as far as the server can observe it. */
  datatype ReadyState = Open | Closing | Closed

  /** A frame handed to `ws.send` (before `JSON.stringify`). */
  datatype Sent = Sent(conn: ConnId, frame: Json)

  /** One `/proxy` call: the connection its listener was armed on, whether
      its 30-second timer is still pending, and every write made on its
      response (`res.headersSent` is `writes != []`). */
  datatype Call = Call(conn: Option<ConnId>, timerArmed: bool, writes: seq<Reply>)

  predicate NoDup(s: seq<nat>) {
    forall i, j :: 0 <= i < j < |s| ==> s[i] != s[j]
  }

  /** `emitter.removeListener`: the listener list without `x`. */
  function Without(s: seq<nat>, x: nat): (r: seq<nat>)
    ensures forall y :: y in r <==> y in s && y != x
    ensures NoDup(s) ==> NoDup(r)
    ensures x !in s ==> r == s
  {
    if s == [] then []
    else if s[0] == x then Without(s[1..], x)
    else
      var rest := Without(s[1..], x);
      assert NoDup(s) ==> s[0] !in s[1..];
      [s[0]] + rest
  }

  /** A call after its listener has run with `reaction`, if `hit`. */
  function Fired(call: Call, hit: bool, reaction: Reaction): (r: Call) {
    if hit && reaction.Respond? then call.(writes := call.writes + [reaction.reply]) else call
  }

  /** A call after its timer has run: 504 unless something was written. */
  function Expired(call: Call): (r: Call) {
    call.(timerArmed := false, writes := if call.writes == [] then [TimeoutReply] else call.writes)
  }

  /** Every call after the listeners `ids` ran with `reaction`. */
  function FiredAll(calls: seq<Call>, ids: seq<nat>, reaction: Reaction): (r: seq<Call>) {
    seq(|calls|, i requires 0 <= i < |calls| => Fired(calls[i], i in ids, reaction))
  }

  /** The listener lists after `removeListener` on connection `from`
      (nothing when the slot the timer reads is empty). */
  function RemovedFrom(listeners: map<ConnId, seq<nat>>, from: Option<ConnId>, id: nat): (r: map<ConnId, seq<nat>>)
    requires from.Some? ==> from.value in listeners
  {
    if from.Some? then listeners[from.value := Without(listeners[from.value], id)] else listeners
  }

  /** Bookkeeping that every event keeps: the slot and every call name an
      accepted connection, and every armed listener belongs, once, to a call
      armed on that connection. */
  ghost predicate WellFormed(active: Option<ConnId>, ready: map<ConnId, ReadyState>,
                             listeners: map<ConnId, seq<nat>>, calls: seq<Call>)
  {
    && (active.Some? ==> active.value in ready)
    && listeners.Keys == ready.Keys
    && (forall c :: c in listeners ==> NoDup(listeners[c]))
    && (forall c, k :: c in listeners && 0 <= k < |listeners[c]| ==>
          listeners[c][k] < |calls| && calls[listeners[c][k]].conn == Some(c))
    && (forall i :: 0 <= i < |calls| && calls[i].conn.Some? ==> calls[i].conn.value in ready)
    && (forall i :: 0 <= i < |calls| && calls[i].timerArmed ==> calls[i].conn.Some?)
  }

  /** No response is written twice, and a listener that can still fire (its
      connection is not closed) belongs to a call not yet answered. */
  ghost predicate AnswersOnce(ready: map<ConnId, ReadyState>, listeners: map<ConnId, seq<nat>>,
                              calls: seq<Call>)
  {
    && (forall i :: 0 <= i < |calls| ==> |calls[i].writes| <= 1)
    && (forall c, k ::
          (c in listeners && c in ready && ready[c] != Closed &&
           0 <= k < |listeners[c]| && listeners[c][k] < |calls|) ==>
          calls[listeners[c][k]].writes == [])
  }

  /** A new connection takes the slot with no listeners. */
  lemma ConnectKeeps(active: Option<ConnId>, ready: map<ConnId, ReadyState>,
                     listeners: map<ConnId, seq<nat>>, calls: seq<Call>, c: ConnId)
    requires WellFormed(active, ready, listeners, calls) && c !in ready
    ensures WellFormed(Some(c), ready[c := Open], listeners[c := []], calls)
    ensures AnswersOnce(ready, listeners, calls) ==>
            AnswersOnce(ready[c := Open], listeners[c := []], calls)
  {
  }

  /** A connection leaves `OPEN` (to `st`), and the slot is kept or emptied. */
  lemma LeaveOpenKeeps(active: Option<ConnId>, ready: map<ConnId, ReadyState>,
                       listeners: map<ConnId, seq<nat>>, calls: seq<Call>,
                       c: ConnId, st: ReadyState, active': Option<ConnId>)
    requires WellFormed(active, ready, listeners, calls)
    requires c in ready && ready[c] != Closed && st != Open
    requires active' == None || active' == active
    ensures WellFormed(active', ready[c := st], listeners, calls)
    ensures AnswersOnce(ready, listeners, calls) ==> AnswersOnce(ready[c := st], listeners, calls)
  {
  }

  /** A `/proxy` call without a usable connection is answered 503 at once. */
  lemma RejectKeeps(active: Option<ConnId>, ready: map<ConnId, ReadyState>,
                    listeners: map<ConnId, seq<nat>>, calls: seq<Call>)
    requires WellFormed(active, ready, listeners, calls)
    ensures WellFormed(active, ready, listeners, calls + [Call(None, false, [NoTunnelReply])])
    ensures AnswersOnce(ready, listeners, calls) ==>
            AnswersOnce(ready, listeners, calls + [Call(None, false, [NoTunnelReply])])
  {
  }

  /** A `/proxy` call on connection `c` arms one listener there, unanswered. */
  lemma ArmKeeps(active: Option<ConnId>, ready: map<ConnId, ReadyState>,
                 listeners: map<ConnId, seq<nat>>, calls: seq<Call>, c: ConnId)
    requires WellFormed(active, ready, listeners, calls) && c in ready
    ensures WellFormed(active, ready, listeners[c := listeners[c] + [|calls|]],
                       calls + [Call(Some(c), true, [])])
    ensures AnswersOnce(ready, listeners, calls) ==>
            AnswersOnce(ready, listeners[c := listeners[c] + [|calls|]],
                        calls + [Call(Some(c), true, [])])
  {
  }

  /** A message on `c` fires every listener armed there, and drops them. */
  lemma FireKeeps(active: Option<ConnId>, ready: map<ConnId, ReadyState>,
                  listeners: map<ConnId, seq<nat>>, calls: seq<Call>, c: ConnId, reaction: Reaction)
    requires WellFormed(active, ready, listeners, calls) && c in ready && ready[c] != Closed
    ensures WellFormed(active, ready, listeners[c := []], FiredAll(calls, listeners[c], reaction))
    ensures AnswersOnce(ready, listeners, calls) ==>
            AnswersOnce(ready, listeners[c := []], FiredAll(calls, listeners[c], reaction))
  {
  }

  /** The timer of call `id` fires after `removeListener` on `from`: the
      bookkeeping survives wherever the listener is removed from. */
  lemma ExpireWellFormed(active: Option<ConnId>, ready: map<ConnId, ReadyState>,
                         listeners: map<ConnId, seq<nat>>, calls: seq<Call>, id: nat, from: Option<ConnId>)
    requires WellFormed(active, ready, listeners, calls)
    requires id < |calls| && calls[id].timerArmed
    requires from.Some? ==> from.value in listeners
    ensures WellFormed(active, ready, RemovedFrom(listeners, from, id), calls[id := Expired(calls[id])])
  {
    if from.Some? {
      var f := from.value;
      var rest := Without(listeners[f], id);
      forall k | 0 <= k < |rest|
        ensures rest[k] in listeners[f]
      {
        assert rest[k] in rest;
      }
    }
  }

  /** No second write survives the timer of call `id` when the listener is
      removed from the connection it was armed on, or when that connection has
      closed and can deliver nothing. */
  lemma ExpireAnswersOnce(active: Option<ConnId>, ready: map<ConnId, ReadyState>,
                          listeners: map<ConnId, seq<nat>>, calls: seq<Call>, id: nat, from: Option<ConnId>)
    requires WellFormed(active, ready, listeners, calls)
    requires id < |calls| && calls[id].timerArmed
    requires from.Some? ==> from.value in listeners
    requires AnswersOnce(ready, listeners, calls)
    requires from == calls[id].conn || ready[calls[id].conn.value] == Closed
    ensures AnswersOnce(ready, RemovedFrom(listeners, from, id), calls[id := Expired(calls[id])])
  {
    var listeners' := RemovedFrom(listeners, from, id);
    var calls' := calls[id := Expired(calls[id])];
    forall c, k | c in listeners' && c in ready && ready[c] != Closed &&
                  0 <= k < |listeners'[c]| && listeners'[c][k] < |calls'|
      ensures calls'[listeners'[c][k]].writes == []
    {
      var i := listeners'[c][k];
      assert i in listeners'[c];
      assert i in listeners[c];
      var k' :| 0 <= k' < |listeners[c]| && listeners[c][k'] == i;
      assert calls[i].writes == [];
    }
  }

  class TunnelServer {
    var active: Option<ConnId>
    var ready: map<ConnId, ReadyState>
    var listeners: map<ConnId, seq<nat>>
    var outbox: seq<Sent>
    var calls: seq<Call>

    ghost predicate Valid()
      reads this
    {
      WellFormed(active, ready, listeners, calls)
    }

    /** No response is ever written twice. */
    ghost predicate AnsweredOnce()
      reads this
    {
      AnswersOnce(ready, listeners, calls)
    }

    /** The slot holds a connection whose `readyState` is `OPEN`. */
    predicate Usable()
      reads this
    {
      active.Some? && active.value in ready && ready[active.value] == Open
    }

    constructor ()
      ensures Valid() && AnsweredOnce()
      ensures active == None && ready == map[] && listeners == map[]
      ensures outbox == [] && calls == []
    {
      active := None;
      ready := map[];
      listeners := map[];
      outbox := [];
      calls := [];
    }

    /** `getActiveConnection`. */
    method GetActive() returns (c: Option<ConnId>)
      ensures c == active
    {
      c := active;
    }

    /** `setActiveConnection`: overwrites the slot unconditionally. */
    method SetActive(c: Option<ConnId>)
      requires Valid()
      requires c.Some? ==> c.value in ready
      modifies this`active
      ensures Valid() && (old(AnsweredOnce()) ==> AnsweredOnce())
      ensures active == c
    {
      active := c;
    }

    /** The `connection` event: the new socket takes the slot, whatever it
        held, and is sent `{"type":"connected"}`. */
    method Connect(c: ConnId)
      requires Valid() && c !in ready
      modifies this
      ensures Valid() && (old(AnsweredOnce()) ==> AnsweredOnce())
      ensures active == Some(c)
      ensures ready == old(ready)[c := Open] && listeners == old(listeners)[c := []]
      ensures outbox == old(outbox) + [Sent(c, ConnectedFrame)]
      ensures calls == old(calls)
    {
      ConnectKeeps(active, ready, listeners, calls, c);
      active := Some(c);
      ready := ready[c := Open];
      listeners := listeners[c := []];
      outbox := outbox + [Sent(c, ConnectedFrame)];
    }

    /** The socket receives the peer's close frame: `readyState` becomes
        `CLOSING` until the `close` event; no handler of the server runs. */
    method PeerClosing(c: ConnId)
      requires Valid() && c in ready && ready[c] == Open
      modifies this`ready
      ensures Valid() && (old(AnsweredOnce()) ==> AnsweredOnce())
      ensures ready == old(ready)[c := Closing]
    {
      LeaveOpenKeeps(active, ready, listeners, calls, c, Closing, active);
      ready := ready[c := Closing];
    }

    /** The `close` handler of socket `c`: empties the slot even when a newer
        connection holds it. */
    method Close(c: ConnId)
      requires Valid() && c in ready && ready[c] != Closed
      modifies this`active, this`ready
      ensures Valid() && (old(AnsweredOnce()) ==> AnsweredOnce())
      ensures active == None
      ensures ready == old(ready)[c := Closed]
    {
      LeaveOpenKeeps(active, ready, listeners, calls, c, Closed, None);
      active := None;
      ready := ready[c := Closed];
    }

    /** The `error` handler of socket `c`: empties the slot even when a newer
        connection holds it; the socket is left `CLOSING`. */
    method Error(c: ConnId)
      requires Valid() && c in ready && ready[c] != Closed
      modifies this`active, this`ready
      ensures Valid() && (old(AnsweredOnce()) ==> AnsweredOnce())
      ensures active == None
      ensures ready == old(ready)[c := Closing]
    {
      LeaveOpenKeeps(active, ready, listeners, calls, c, Closing, None);
      active := None;
      ready := ready[c := Closing];
    }

    /** The `/proxy` route handler. Without an open connection in the slot it
        writes 503 and does nothing else; otherwise it sends the request
        frame on that connection, arms a one-shot listener there and starts
        the timer, writing nothing yet. */
    method Dispatch(req: Request) returns (id: nat)
      requires Valid() && IsProxyRoute(req.path)
      modifies this`listeners, this`outbox, this`calls
      ensures Valid() && (old(AnsweredOnce()) ==> AnsweredOnce())
      ensures id == |old(calls)| && |calls| == id + 1 && calls[..id] == old(calls)
      ensures !old(Usable()) ==>
        && calls[id] == Call(None, false, [NoTunnelReply])
        && listeners == old(listeners) && outbox == old(outbox)
      ensures old(Usable()) ==>
        var c := active.value;
        && calls[id] == Call(Some(c), true, [])
        && listeners == old(listeners)[c := old(listeners)[c] + [id]]
        && outbox == old(outbox) + [Sent(c, RequestFrame(req))]
    {
      id := |calls|;
      if !Usable() {
        RejectKeeps(active, ready, listeners, calls);
        calls := calls + [Call(None, false, [NoTunnelReply])];
        return;
      }
      var c := active.value;
      ArmKeeps(active, ready, listeners, calls, c);
      outbox := outbox + [Sent(c, RequestFrame(req))];
      listeners := listeners[c := listeners[c] + [id]];
      calls := calls + [Call(Some(c), true, [])];
    }

    /** A message arrives on socket `c` (`JSON.parse` gave `parsed`). Every
        listener armed on `c` runs once, in the order armed, and is dropped;
        each runs `responseHandler` on the same message, so every call
        waiting on `c` gets the same reaction. */
    method Deliver(c: ConnId, parsed: Option<Json>)
      requires Valid() && c in ready && ready[c] != Closed
      modifies this`listeners, this`calls
      ensures Valid() && (old(AnsweredOnce()) ==> AnsweredOnce())
      ensures listeners == old(listeners)[c := []]
      ensures calls == FiredAll(old(calls), old(listeners)[c], OnMessage(parsed))
    {
      var ids := listeners[c];
      var reaction := OnMessage(parsed);
      FireKeeps(active, ready, listeners, calls, c, reaction);
      listeners := listeners[c := []];
      var k := 0;
      while k < |ids|
        invariant 0 <= k <= |ids|
        invariant listeners == old(listeners)[c := []]
        invariant |calls| == |old(calls)|
        invariant forall i :: 0 <= i < |calls| ==>
          calls[i] == Fired(old(calls)[i], i in ids[..k], reaction)
      {
        var id := ids[k];
        assert ids[..k + 1] == ids[..k] + [id];
        assert id !in ids[..k];
        if reaction.Respond? {
          calls := calls[id := calls[id].(writes := calls[id].writes + [reaction.reply])];
        }
        k := k + 1;
      }
      assert ids[..k] == ids;
      assert calls == FiredAll(old(calls), ids, reaction);
    }

    /** The timer callback as written: it removes the listener from whatever
        connection holds the slot when it fires, then writes 504 unless the
        response was already sent. Answering at most once is kept when
        the listener was armed on that connection, or on one already closed. */
    method Timeout(id: nat)
      requires Valid() && id < |calls| && calls[id].timerArmed
      modifies this`listeners, this`calls
      ensures Valid()
      ensures old(AnsweredOnce()) &&
              (old(active) == old(calls[id].conn) || ready[old(calls[id].conn).value] == Closed)
              ==> AnsweredOnce()
      ensures listeners == RemovedFrom(old(listeners), active, id)
      ensures calls == old(calls)[id := Expired(old(calls)[id])]
    {
      ExpireWellFormed(active, ready, listeners, calls, id, active);
      if AnsweredOnce() && (active == calls[id].conn || ready[calls[id].conn.value] == Closed) {
        ExpireAnswersOnce(active, ready, listeners, calls, id, active);
      }
      if active.Some? {
        var c := active.value;
        listeners := listeners[c := Without(listeners[c], id)];
      }
      calls := calls[id := Expired(calls[id])];
    }

    /** The timer callback with the listener removed from the connection it
        was armed on: every call then stays answered at most once. */
    method TimeoutOwnConnection(id: nat)
      requires Valid() && id < |calls| && calls[id].timerArmed
      modifies this`listeners, this`calls
      ensures Valid() && (old(AnsweredOnce()) ==> AnsweredOnce())
      ensures id !in listeners[old(calls[id].conn).value]
      ensures listeners == RemovedFrom(old(listeners), old(calls[id].conn), id)
      ensures calls == old(calls)[id := Expired(old(calls)[id])]
    {
      var c := calls[id].conn.value;
      ExpireWellFormed(active, ready, listeners, calls, id, Some(c));
      if AnsweredOnce() {
        ExpireAnswersOnce(active, ready, listeners, calls, id, Some(c));
      }
      listeners := listeners[c := Without(listeners[c], id)];
      calls := calls[id := Expired(calls[id])];
    }
  }
}
