/** Every request is answered once, every promise settles once, and no response is ever unexpected. */
module RpcProof {
  import opened Wrappers
  import opened RpcSpec

  // ---- the invariant ---------------------------------------------------------------------------

  /** Requests taken are requests answered plus requests being worked on, as long as nothing is lost. */
  predicate Balanced(c: Connection, id: RequestId) {
    var accounted := Underway(c.handlers, id) + Times(c.answered, id);
    accounted <= Times(c.received, id) && (!c.Lost() ==> accounted == Times(c.received, id))
  }

  /** The active map holds exactly the handlers that have not returned. */
  predicate Active(handlers: seq<Handler>, active: map<RequestId, nat>, disconnected: bool) {
    && (forall id {:trigger active[id]} :: id in active ==>
          active[id] < |handlers| && handlers[active[id]].id == id && handlers[active[id]].work != Done)
    && (forall k {:trigger handlers[k]} :: 0 <= k < |handlers| && handlers[k].work != Done && !disconnected ==>
          handlers[k].id in active && active[handlers[k].id] == k)
  }

  /** The request was made on this connection and could be encoded. */
  predicate WentOut(p: Pending, n: ConnectionId) {
    p.connection == n && p.promise != Rejected(NotEncoded)
  }

  /** Each number went out at most once, on the connection its request was made on. */
  predicate SentOnce(c: Connection, n: ConnectionId, requests: seq<Pending>, id: RequestId) {
    Times(c.received, id) + Asked(c.upstream, id) <= Bit(id < |requests| && WentOut(requests[id], n))
  }

  ghost predicate ConnectionInv(c: Connection, n: ConnectionId, requests: seq<Pending>) {
    && Active(c.handlers, c.activeRequests, c.disconnected)
    && (forall id {:trigger Balanced(c, id)} :: Balanced(c, id))
    && (forall id {:trigger SentOnce(c, n, requests, id)} :: SentOnce(c, n, requests, id))
  }

  ghost predicate AllConnections(connections: seq<Connection>, requests: seq<Pending>) {
    forall n {:trigger connections[n]} :: 0 <= n < |connections| ==> ConnectionInv(connections[n], n, requests)
  }

  predicate ClientInv(c: Client) {
    && (forall id :: id in c.pending ==> id < |c.requests|)
    && (forall id {:trigger c.requests[id]} :: 0 <= id < |c.requests| && c.requests[id].promise == Unsettled ==>
          id in c.pending)
    && (c.current.None? ==> c.pending == {})
    && !c.unmatched
  }

  /** What is in flight is what is pending. */
  predicate Owed(c: Connection, pending: set<RequestId>, id: RequestId) {
    InFlight(c, id) <= Bit(id in pending) && (!c.Lost() ==> InFlight(c, id) == Bit(id in pending))
  }

  ghost predicate AllOwed(c: Connection, pending: set<RequestId>) {
    forall id {:trigger Owed(c, pending, id)} :: Owed(c, pending, id)
  }

  ghost predicate Inv(s: System) {
    && ClientInv(s.client)
    && AllConnections(s.connections, s.client.requests)
    && (s.client.current.Some? ==> Connected(s) && AllOwed(s.connections[s.client.current.value], s.client.pending))
  }

  // ---- counting --------------------------------------------------------------------------------

  lemma {:induction false} AskedAppend(upstream: seq<Upstream>, m: Upstream, id: RequestId)
    ensures Asked(upstream + [m], id) == Asked(upstream, id) + Bit(m.Request? && m.id == id)
    decreases |upstream|
  {
    if upstream != [] {
      AskedAppend(upstream[1..], m, id);
      assert (upstream + [m])[1..] == upstream[1..] + [m];
    }
  }

  lemma {:induction false} RepliesAppend(downstream: seq<Downstream>, m: Downstream, id: RequestId)
    ensures Replies(downstream + [m], id) == Replies(downstream, id) + Bit(m.Response? && m.id == id)
    decreases |downstream|
  {
    if downstream != [] {
      RepliesAppend(downstream[1..], m, id);
      assert (downstream + [m])[1..] == downstream[1..] + [m];
    }
  }

  lemma {:induction false} TimesAppend(ids: seq<RequestId>, last: RequestId, id: RequestId)
    ensures Times(ids + [last], id) == Times(ids, id) + Bit(last == id)
    decreases |ids|
  {
    if ids != [] {
      TimesAppend(ids[1..], last, id);
      assert (ids + [last])[1..] == ids[1..] + [last];
    }
  }

  lemma {:induction false} UnderwayAppend(handlers: seq<Handler>, h: Handler, id: RequestId)
    ensures Underway(handlers + [h], id) == Underway(handlers, id) + Bit(h.work == Working && h.id == id)
    decreases |handlers|
  {
    if handlers != [] {
      UnderwayAppend(handlers[1..], h, id);
      assert (handlers + [h])[1..] == handlers[1..] + [h];
    }
  }

  lemma {:induction false} UnderwayUpdate(handlers: seq<Handler>, k: nat, h: Handler, id: RequestId)
    requires k < |handlers|
    ensures Underway(handlers[k := h], id) + Bit(handlers[k].work == Working && handlers[k].id == id)
         == Underway(handlers, id) + Bit(h.work == Working && h.id == id)
    decreases |handlers|
  {
    if k == 0 {
      assert handlers[k := h][1..] == handlers[1..];
    } else {
      UnderwayUpdate(handlers[1..], k - 1, h, id);
      assert handlers[k := h][1..] == handlers[1..][k - 1 := h];
    }
  }

  // ---- the server's end ------------------------------------------------------------------------

  /** From `c` to `t` nothing about this number was invented, and nothing forgotten unless a connection
      was lost. */
  predicate Moved(c: Connection, t: Connection, id: RequestId) {
    && (Balanced(c, id) ==> Balanced(t, id))
    && Times(t.received, id) + Asked(t.upstream, id) <= Times(c.received, id) + Asked(c.upstream, id)
    && InFlight(t, id) <= InFlight(c, id)
    && (!t.Lost() ==> !c.Lost() && InFlight(t, id) == InFlight(c, id))
  }

  lemma RespondCounts(c: Connection, last: RequestId, outcome: Outcome, id: RequestId)
    ensures var t := Respond(c, last, outcome);
            && t == c.(downstream := t.downstream, answered := t.answered)
            && Times(t.answered, id) == Times(c.answered, id) + Bit(!c.Lost() && last == id)
            && Replies(t.downstream, id) == Replies(c.downstream, id) + Bit(!c.Lost() && last == id)
  {
    TimesAppend(c.answered, last, id);
    RepliesAppend(c.downstream, Response(last, outcome), id);
  }

  lemma RefuseMoves(c: Connection, m: Upstream, failure: Failure, id: RequestId)
    requires c.upstream != [] && c.upstream[0] == m && m.Request?
    ensures var taken := c.(upstream := c.upstream[1..], received := c.received + [m.id]);
            Moved(c, Refuse(taken, m.id, failure), id)
  {
    var taken := c.(upstream := c.upstream[1..], received := c.received + [m.id]);
    TimesAppend(c.received, m.id, id);
    RespondCounts(taken, m.id, Failed(failure), id);
    UnderwayAppend(c.handlers, Handler(m.id, Done, false, Some(Failed(failure))), id);
    hide Underway, Times, Replies;
  }

  lemma RequestMoves(c: Connection, id: RequestId)
    requires c.upstream != [] && c.upstream[0].Request?
    ensures Moved(c, TakeUpstream(c), id)
  {
    var m := c.upstream[0];
    if m.id in c.activeRequests {
      RefuseMoves(c, m, AlreadyActive, id);
      hide Refuse, Moved;
    } else if !m.valid {
      RefuseMoves(c, m, InvalidCall, id);
      hide Refuse, Moved;
    } else {
      TimesAppend(c.received, m.id, id);
      UnderwayAppend(c.handlers, Handler(m.id, Working, false, None), id);
      hide Underway, Times, Replies;
    }
  }

  lemma CancelMoves(c: Connection, id: RequestId)
    requires c.upstream != [] && c.upstream[0].Cancel?
    ensures Moved(c, TakeUpstream(c), id)
  {
    var target := c.upstream[0].id;
    if target in c.activeRequests && c.activeRequests[target] < |c.handlers| {
      var k := c.activeRequests[target];
      UnderwayUpdate(c.handlers, k, c.handlers[k].(cancelled := true), id);
    }
    hide Underway, Times, Replies;
  }

  lemma FinishMoves(c: Connection, k: nat, result: CallResult, id: RequestId)
    requires k < |c.handlers| && c.handlers[k].work == Working
    ensures Moved(c, FinishWork(c, k, result), id)
  {
    var h := c.handlers[k];
    RespondCounts(c, h.id, Conclusion(h, result), id);
    UnderwayUpdate(c.handlers, k, h.(work := Responding, outcome := Some(Conclusion(h, result))), id);
    hide Underway, Times, Replies, Respond, Asked, Conclusion;
  }

  lemma {:induction false} SameUnderway(before: seq<Handler>, after: seq<Handler>, id: RequestId)
    requires |after| == |before|
    requires forall k {:trigger after[k]} :: 0 <= k < |before| ==> after[k].id == before[k].id && after[k].work == before[k].work
    ensures Underway(after, id) == Underway(before, id)
    decreases |before|
  {
    if before != [] {
      SameUnderway(before[1..], after[1..], id);
    }
  }

  lemma DisconnectMoves(c: Connection, id: RequestId)
    ensures Moved(c, DisconnectServer(c), id)
    ensures Underway(DisconnectServer(c).handlers, id) == Underway(c.handlers, id)
  {
    SameUnderway(c.handlers, DisconnectServer(c).handlers, id);
    hide Underway, Times, Replies, Asked;
  }

  lemma ReturnMoves(c: Connection, k: nat, ok: bool, id: RequestId)
    requires k < |c.handlers| && c.handlers[k].work == Responding
    ensures Moved(c, ReturnWork(c, k, ok), id)
  {
    var closed := if ok then c else DisconnectServer(c);
    DisconnectMoves(c, id);
    UnderwayUpdate(closed.handlers, k, closed.handlers[k].(work := Done), id);
    hide Underway, Times, Replies, Asked;
  }

  lemma TakeKeepsActive(c: Connection)
    requires Active(c.handlers, c.activeRequests, c.disconnected) && c.upstream != [] && !c.disconnected
    ensures var t := TakeUpstream(c); Active(t.handlers, t.activeRequests, t.disconnected)
  {
  }

  lemma WorkKeepsActive(c: Connection, k: nat, ok: bool, result: CallResult)
    requires Active(c.handlers, c.activeRequests, c.disconnected) && k < |c.handlers|
    ensures c.handlers[k].work == Working ==>
              var t := FinishWork(c, k, result); Active(t.handlers, t.activeRequests, t.disconnected)
    ensures c.handlers[k].work == Responding ==>
              var t := ReturnWork(c, k, ok); Active(t.handlers, t.activeRequests, t.disconnected)
  {
  }

  // ---- every event keeps the invariant ---------------------------------------------------------

  lemma InitialInv()
    ensures Inv(Initial())
  {
  }

  lemma MovedKeepsConnection(c: Connection, t: Connection, n: ConnectionId, requests: seq<Pending>)
    requires ConnectionInv(c, n, requests) && forall id {:trigger Moved(c, t, id)} :: Moved(c, t, id)
    requires Active(t.handlers, t.activeRequests, t.disconnected)
    ensures ConnectionInv(t, n, requests)
    ensures forall pending :: AllOwed(c, pending) ==> AllOwed(t, pending)
  {
    forall id ensures Balanced(t, id) && SentOnce(t, n, requests, id) {
      assert Moved(c, t, id) && Balanced(c, id) && SentOnce(c, n, requests, id);
    }
    forall pending | AllOwed(c, pending) ensures AllOwed(t, pending) {
      forall id ensures Owed(t, pending, id) {
        assert Moved(c, t, id) && Owed(c, pending, id);
      }
    }
  }

  /** One connection moves on while the client stays as it is. */
  lemma ConnectionStepKeepsInv(s: System, n: ConnectionId, t: Connection)
    requires Inv(s) && n < |s.connections| && forall id {:trigger Moved(s.connections[n], t, id)} :: Moved(s.connections[n], t, id)
    requires Active(t.handlers, t.activeRequests, t.disconnected)
    ensures Inv(Update(s, n, t))
  {
    MovedKeepsConnection(s.connections[n], t, n, s.client.requests);
    hide ConnectionInv, AllOwed, ClientInv, Moved, Active;
  }

  lemma InvGivesActive(s: System, n: ConnectionId)
    requires Inv(s) && n < |s.connections|
    ensures Active(s.connections[n].handlers, s.connections[n].activeRequests, s.connections[n].disconnected)
  {
    assert ConnectionInv(s.connections[n], n, s.client.requests);
  }

  lemma ServerKeepsInv(s: System, e: Event)
    requires Inv(s) && Enabled(s, e)
    requires e.EnvelopeArrives? || e.WorkFinishes? || e.WorkReturns?
    ensures Inv(Next(s, e))
  {
    hide Inv, TakeUpstream, FinishWork, ReturnWork, Active, Moved;
    var n := e.connection;
    var c := s.connections[n];
    InvGivesActive(s, n);
    match e {
      case EnvelopeArrives(_) =>
        TakeKeepsActive(c);
        forall id ensures Moved(c, TakeUpstream(c), id) {
          if c.upstream[0].Request? { RequestMoves(c, id); } else { CancelMoves(c, id); }
        }
        ConnectionStepKeepsInv(s, n, TakeUpstream(c));
      case WorkFinishes(_, k, result) =>
        WorkKeepsActive(c, k, true, result);
        forall id ensures Moved(c, FinishWork(c, k, result), id) { FinishMoves(c, k, result, id); }
        ConnectionStepKeepsInv(s, n, FinishWork(c, k, result));
      case WorkReturns(_, k, ok) =>
        WorkKeepsActive(c, k, ok, Threw(0));
        forall id ensures Moved(c, ReturnWork(c, k, ok), id) { ReturnMoves(c, k, ok, id); }
        ConnectionStepKeepsInv(s, n, ReturnWork(c, k, ok));
    }
  }

  lemma TransportKeepsInv(s: System, e: Event)
    requires Inv(s) && Enabled(s, e)
    requires e.OtherSent? || e.ServerDisconnects? || e.Breaks?
    ensures Inv(Next(s, e))
  {
    var n := e.connection;
    var c := s.connections[n];
    var t := Next(s, e).connections[n];
    InvGivesActive(s, n);
    forall id ensures Moved(c, t, id) {
      if e.ServerDisconnects? {
        DisconnectMoves(c, id);
      } else {
        RepliesAppend(c.downstream, Other, id);
      }
    }
    hide Inv, Moved;
    ConnectionStepKeepsInv(s, n, t);
  }

  /** More requests, or other promises, do not disturb what went out. */
  lemma RequestsKeepConnections(connections: seq<Connection>, before: seq<Pending>, after: seq<Pending>)
    requires AllConnections(connections, before) && |before| <= |after|
    requires forall id {:trigger after[id]} :: 0 <= id < |before| ==>
               after[id].connection == before[id].connection
               && (after[id].promise == Rejected(NotEncoded) ==> before[id].promise == Rejected(NotEncoded))
    ensures AllConnections(connections, after)
  {
    forall n | 0 <= n < |connections|
      ensures ConnectionInv(connections[n], n, after)
    {
      assert ConnectionInv(connections[n], n, before);
      forall id ensures SentOnce(connections[n], n, after, id) {
        assert SentOnce(connections[n], n, before, id);
      }
    }
  }

  lemma DisconnectKeepsInv(s: System, dispose: bool)
    requires Inv(s)
    ensures Inv(Next(s, ClientDisconnects(dispose)))
  {
    RequestsKeepConnections(s.connections, s.client.requests, DisconnectClient(s.client).requests);
    hide AllConnections, AllOwed;
  }

  lemma ConnectKeepsInv(s: System)
    requires Inv(s) && Enabled(s, Connects)
    ensures Inv(Next(s, Connects))
  {
    assert ConnectionInv(NewConnection(), |s.connections|, s.client.requests);
    assert AllOwed(NewConnection(), {});
    hide ConnectionInv, AllOwed;
  }

  /** The client puts a message on the wire. */
  lemma SendUpKeepsConnection(c: Connection, m: Upstream, n: ConnectionId, before: seq<Pending>, after: seq<Pending>,
                              pending: set<RequestId>)
    requires ConnectionInv(c, n, before) && ConnectionInv(c, n, after) && AllOwed(c, pending)
    requires m.Request? ==> m.id == |before| == |after| - 1 && WentOut(after[m.id], n) && m.id !in pending
    ensures ConnectionInv(SendUp(c, m), n, after)
    ensures AllOwed(SendUp(c, m), if m.Request? then pending + {m.id} else pending)
  {
    var t := SendUp(c, m);
    var pending' := if m.Request? then pending + {m.id} else pending;
    forall id ensures Balanced(t, id) && SentOnce(t, n, after, id) && Owed(t, pending', id) {
      AskedAppend(c.upstream, m, id);
      assert Balanced(c, id) && SentOnce(c, n, before, id) && SentOnce(c, n, after, id) && Owed(c, pending, id);
    }
  }

  lemma RequestKeepsInv(s: System, encodes: bool, valid: bool)
    requires Inv(s) && Enabled(s, Requests(encodes, valid))
    ensures Inv(Next(s, Requests(encodes, valid)))
  {
    var t := Next(s, Requests(encodes, valid));
    var n, id := s.client.current.value, |s.client.requests|;
    assert ClientInv(t.client);
    RequestsKeepConnections(s.connections, s.client.requests, t.client.requests);
    if encodes {
      SendUpKeepsConnection(s.connections[n], Request(id, valid), n, s.client.requests, t.client.requests,
                            s.client.pending);
    }
    hide ConnectionInv, AllOwed, ClientInv;
  }

  lemma AbortKeepsInv(s: System, id: RequestId)
    requires Inv(s) && Enabled(s, Aborts(id))
    ensures Inv(Next(s, Aborts(id)))
  {
    var t := Next(s, Aborts(id));
    var n := s.client.current.value;
    assert ClientInv(t.client);
    RequestsKeepConnections(s.connections, s.client.requests, t.client.requests);
    SendUpKeepsConnection(s.connections[n], Cancel(id), n, s.client.requests, t.client.requests, s.client.pending);
    hide ConnectionInv, AllOwed, ClientInv;
  }

  lemma ResponseKeepsClientInv(c: Client, id: RequestId, outcome: Outcome, good: bool)
    requires ClientInv(c) && id in c.pending && c.current.Some?
    ensures var t := TakeResponse(c, id, outcome, good);
            && ClientInv(t) && |t.requests| == |c.requests|
            && (forall i {:trigger t.requests[i]} :: 0 <= i < |c.requests| ==>
                  t.requests[i].connection == c.requests[i].connection
                  && (t.requests[i].promise == Rejected(NotEncoded) ==> c.requests[i].promise == Rejected(NotEncoded)))
            && (t.current.Some? ==> t.current == c.current && t.pending == c.pending - {id})
  {
  }

  /** Taking a message off the channel. */
  lemma TakeDownKeepsConnection(c: Connection, n: ConnectionId, requests: seq<Pending>, pending: set<RequestId>)
    requires ConnectionInv(c, n, requests) && AllOwed(c, pending) && c.downstream != []
    ensures var m := c.downstream[0];
            var t := c.(downstream := c.downstream[1..]);
            && ConnectionInv(t, n, requests)
            && (m.Response? ==> m.id in pending)
            && AllOwed(t, if m.Response? then pending - {m.id} else pending)
  {
    var m := c.downstream[0];
    var t := c.(downstream := c.downstream[1..]);
    var pending' := if m.Response? then pending - {m.id} else pending;
    if m.Response? {
      assert Owed(c, pending, m.id);
    }
    forall id ensures Balanced(t, id) && SentOnce(t, n, requests, id) && Owed(t, pending', id) {
      assert Balanced(c, id) && SentOnce(c, n, requests, id) && Owed(c, pending, id);
    }
  }

  /** A response that arrives was pending, and is so no longer. */
  lemma MessageKeepsInv(s: System, good: bool)
    requires Inv(s) && Enabled(s, MessageArrives(good))
    ensures Inv(Next(s, MessageArrives(good)))
  {
    var n := s.client.current.value;
    var c := s.connections[n];
    var m := c.downstream[0];
    var t := Next(s, MessageArrives(good));
    TakeDownKeepsConnection(c, n, s.client.requests, s.client.pending);
    hide ConnectionInv, AllOwed, ClientInv;
    assert AllConnections(t.connections, s.client.requests);
    if m.Response? {
      ResponseKeepsClientInv(s.client, m.id, m.outcome, good);
      hide TakeResponse;
      RequestsKeepConnections(t.connections, s.client.requests, t.client.requests);
    }
    hide AllConnections;
  }

  lemma Preserved(s: System, e: Event)
    requires Inv(s) && Enabled(s, e)
    ensures Inv(Next(s, e))
  {
    hide Inv, Enabled, Next;
    match e {
      case Connects => ConnectKeepsInv(s);
      case Requests(encodes, valid) => RequestKeepsInv(s, encodes, valid);
      case Aborts(id) => AbortKeepsInv(s, id);
      case MessageArrives(good) => MessageKeepsInv(s, good);
      case ClientDisconnects(dispose) => DisconnectKeepsInv(s, dispose);
      case EnvelopeArrives(_) => ServerKeepsInv(s, e);
      case WorkFinishes(_, _, _) => ServerKeepsInv(s, e);
      case WorkReturns(_, _, _) => ServerKeepsInv(s, e);
      case OtherSent(_) => TransportKeepsInv(s, e);
      case ServerDisconnects(_) => TransportKeepsInv(s, e);
      case Breaks(_) => TransportKeepsInv(s, e);
    }
  }

  lemma {:induction false} ExecutionKeepsInv(s: System, events: seq<Event>, t: System)
    requires Inv(s) && Execute(s, events) == Some(t)
    ensures Inv(t)
    decreases |events|
  {
    hide Inv, Next, Enabled;
    if events != [] {
      Preserved(s, events[0]);
      ExecutionKeepsInv(Next(s, events[0]), events[1..], t);
    }
  }

  lemma ReachedKeepsInv(events: seq<Event>, s: System)
    requires Reaches(events, s)
    ensures Inv(s)
  {
    InitialInv();
    hide Inv;
    ExecutionKeepsInv(Initial(), events, s);
  }
}
