/** Which calls are executed, and which of them are cancelled. */
module RpcCancellation {
  import opened Wrappers
  import opened RpcSpec
  import opened RpcProof
  import opened RpcTheorems
  import opened RpcOutcomes

  // ---- which calls are executed ----------------------------------------------------------------

  predicate SaysValid(m: Upstream, requests: seq<Pending>) {
    m.Request? ==> m.id < |requests| && m.valid == requests[m.id].valid
  }

  /** Refused are the calls that cannot be parsed, and no others. */
  predicate RefusedRightly(h: Handler, requests: seq<Pending>) {
    && h.id < |requests|
    && (h.outcome == Some(Failed(InvalidCall)) <==> !requests[h.id].valid)
    && h.outcome != Some(Failed(AlreadyActive))
  }

  predicate ServesValid(c: Connection, requests: seq<Pending>) {
    && (forall i {:trigger c.upstream[i]} :: 0 <= i < |c.upstream| ==> SaysValid(c.upstream[i], requests))
    && (forall k {:trigger c.handlers[k]} :: 0 <= k < |c.handlers| ==> RefusedRightly(c.handlers[k], requests))
  }

  predicate AllServeValid(connections: seq<Connection>, requests: seq<Pending>) {
    forall n {:trigger connections[n]} :: 0 <= n < |connections| ==> ServesValid(connections[n], requests)
  }

  /** A request that arrives is not active already. */
  lemma ArrivesInactive(c: Connection, n: ConnectionId, requests: seq<Pending>)
    requires ConnectionInv(c, n, requests) && HandlersSound(c.handlers, c.received) && c.upstream != [] && c.upstream[0].Request?
    ensures c.upstream[0].id !in c.activeRequests
  {
    var id := c.upstream[0].id;
    assert id in c.activeRequests ==> c.received[c.activeRequests[id]] == id;
    assert SentOnce(c, n, requests, id);
    TimesIn(c.received, id);
  }

  lemma TakeServesValid(c: Connection, n: ConnectionId, requests: seq<Pending>)
    requires ServesValid(c, requests) && ConnectionInv(c, n, requests) && Truthful(c) && c.upstream != []
    ensures ServesValid(TakeUpstream(c), requests)
  {
    assert SaysValid(c.upstream[0], requests);
    if c.upstream[0].Request? {
      ArrivesInactive(c, n, requests);
    }
    hide ConnectionInv, Truthful;
  }

  lemma WorkServesValid(c: Connection, k: nat, result: CallResult, ok: bool, requests: seq<Pending>)
    requires ServesValid(c, requests) && Truthful(c) && k < |c.handlers|
    ensures c.handlers[k].work == Working ==> ServesValid(FinishWork(c, k, result), requests)
    ensures ServesValid(ReturnWork(c, k, ok), requests) && ServesValid(DisconnectServer(c), requests)
  {
    assert RefusedRightly(c.handlers[k], requests);
    hide Backed;
  }

  lemma ServerStepServesValid(s: System, e: Event)
    requires Inv(s) && AllTruthful(s.connections) && AllServeValid(s.connections, s.client.requests) && Enabled(s, e)
    requires e.EnvelopeArrives? || e.WorkFinishes? || e.WorkReturns?
    ensures AllServeValid(Next(s, e).connections, s.client.requests)
  {
    var n := e.connection;
    var c := s.connections[n];
    assert ConnectionInv(c, n, s.client.requests) && Truthful(c);
    match e {
      case EnvelopeArrives(_) => TakeServesValid(c, n, s.client.requests);
      case WorkFinishes(_, k, result) => WorkServesValid(c, k, result, true, s.client.requests);
      case WorkReturns(_, k, ok) => WorkServesValid(c, k, Threw(0), ok, s.client.requests);
    }
    hide Inv, ConnectionInv, Truthful, ServesValid, TakeUpstream, FinishWork, ReturnWork;
  }

  /** Requests keep whether their calls are valid. */
  predicate SameCalls(before: seq<Pending>, after: seq<Pending>) {
    && |before| <= |after|
    && (forall id {:trigger after[id]} :: 0 <= id < |before| ==> after[id].valid == before[id].valid)
  }

  lemma SameCallsServeValid(connections: seq<Connection>, before: seq<Pending>, after: seq<Pending>)
    requires AllServeValid(connections, before) && SameCalls(before, after)
    ensures AllServeValid(connections, after)
  {
    forall n | 0 <= n < |connections| ensures ServesValid(connections[n], after) {
      assert ServesValid(connections[n], before);
      forall k | 0 <= k < |connections[n].handlers| ensures RefusedRightly(connections[n].handlers[k], after) {
        assert RefusedRightly(connections[n].handlers[k], before);
      }
      forall i | 0 <= i < |connections[n].upstream| ensures SaysValid(connections[n].upstream[i], after) {
        assert SaysValid(connections[n].upstream[i], before);
      }
    }
  }

  lemma TransportServesValid(c: Connection, requests: seq<Pending>, m: Upstream)
    requires ServesValid(c, requests)
    ensures SaysValid(m, requests) ==> ServesValid(SendUp(c, m), requests)
    ensures ServesValid(DisconnectServer(c), requests) && ServesValid(c.(broken := true), requests)
    ensures forall downstream :: ServesValid(c.(downstream := downstream), requests)
  {
  }

  lemma StepSameCalls(s: System, e: Event)
    requires Enabled(s, e)
    ensures SameCalls(s.client.requests, Next(s, e).client.requests)
  {
    hide TakeUpstream, FinishWork, ReturnWork, DisconnectServer, SendUp;
  }

  lemma StepServesValid(s: System, e: Event)
    requires Inv(s) && AllTruthful(s.connections) && AllServeValid(s.connections, s.client.requests) && Enabled(s, e)
    ensures AllServeValid(Next(s, e).connections, Next(s, e).client.requests)
  {
    StepSameCalls(s, e);
    var after := Next(s, e).client.requests;
    SameCallsServeValid(s.connections, s.client.requests, after);
    if e.EnvelopeArrives? || e.WorkFinishes? || e.WorkReturns? {
      ServerStepServesValid(s, e);
      hide Next;
    } else if e.Requests? || e.Aborts? || e.MessageArrives? {
      var c := s.connections[s.client.current.value];
      var m := if e.Requests? then Request(|s.client.requests|, e.valid) else Cancel(0);
      TransportServesValid(c, after, m);
      if e.Aborts? { TransportServesValid(c, after, Cancel(e.id)); }
      hide ServesValid, SendUp, TakeResponse;
    } else if e.OtherSent? || e.ServerDisconnects? || e.Breaks? {
      TransportServesValid(s.connections[e.connection], after, Cancel(0));
      hide ServesValid, DisconnectServer;
    } else {
      assert ServesValid(NewConnection(), after);
      hide ServesValid, DisconnectClient;
    }
    hide Inv, AllTruthful;
  }

  lemma {:induction false} RunServesValid(s: System, events: seq<Event>, t: System)
    requires Inv(s) && AllTruthful(s.connections) && AllServeValid(s.connections, s.client.requests)
    requires Execute(s, events) == Some(t)
    ensures AllServeValid(t.connections, t.client.requests)
    decreases |events|
  {
    hide Inv, Enabled, Next, AllTruthful, AllServeValid;
    if events != [] {
      Preserved(s, events[0]);
      StepStaysTruthful(s, events[0]);
      StepServesValid(s, events[0]);
      RunServesValid(Next(s, events[0]), events[1..], t);
    }
  }

  /** Of the calls that reach the server those that cannot be parsed are refused, and every other one is
      handed to its target: none is taken for a duplicate. */
  lemma ExecutedIffValid(events: seq<Event>, s: System, n: ConnectionId, k: nat)
    requires Reaches(events, s) && n < |s.connections| && k < |s.connections[n].handlers|
    ensures var h := s.connections[n].handlers[k];
            && h.id < |s.client.requests| && h.outcome != Some(Failed(AlreadyActive))
            && (h.outcome == Some(Failed(InvalidCall)) <==> !s.client.requests[h.id].valid)
  {
    InitialInv();
    hide Inv;
    RunServesValid(Initial(), events, s);
    assert ServesValid(s.connections[n], s.client.requests);
    assert RefusedRightly(s.connections[n].handlers[k], s.client.requests);
  }

  /** A request that can be encoded goes out, and waits; any other is rejected on the spot. */
  lemma RequestGoesOut(events: seq<Event>, s: System, encodes: bool, valid: bool)
    requires Reaches(events, s) && Enabled(s, Requests(encodes, valid))
    ensures var t, n, id := Next(s, Requests(encodes, valid)), s.client.current.value, |s.client.requests|;
            && |t.client.requests| == id + 1 && t.client.requests[id].connection == n
            && (t.client.requests[id].promise == Unsettled <==> encodes)
            && (encodes && !s.connections[n].Lost() ==> Asked(t.connections[n].upstream, id) == 1)
            && (!encodes ==> t.connections == s.connections && t.client.pending == s.client.pending)
  {
    ReachedKeepsInv(events, s);
    var n, id := s.client.current.value, |s.client.requests|;
    assert ConnectionInv(s.connections[n], n, s.client.requests);
    assert SentOnce(s.connections[n], n, s.client.requests, id);
    AskedAppend(s.connections[n].upstream, Request(id, valid), id);
    hide ConnectionInv, AllConnections, AllOwed, SentOnce, Inv, Asked;
  }

  // ---- aborted requests ------------------------------------------------------------------------

  predicate CancelComes(upstream: seq<Upstream>, id: RequestId, i: nat)
    requires i < |upstream|
  {
    upstream[i].Request? && upstream[i].id == id ==> Cancel(id) in upstream[i + 1..]
  }

  predicate CancelledOrComing(h: Handler, upstream: seq<Upstream>, id: RequestId) {
    h.id == id && h.work == Working ==> h.cancelled || Cancel(id) in upstream
  }

  /** The cancel follows its request, and is there until the handler's signal is aborted. */
  predicate Follows(c: Connection, id: RequestId) {
    && (forall i {:trigger CancelComes(c.upstream, id, i)} :: 0 <= i < |c.upstream| ==> CancelComes(c.upstream, id, i))
    && (forall k {:trigger c.handlers[k]} :: 0 <= k < |c.handlers| ==> CancelledOrComing(c.handlers[k], c.upstream, id))
  }

  /** Only aborted requests are cancelled, unless the connection goes. */
  predicate Justified(c: Connection, n: ConnectionId, requests: seq<Pending>) {
    && (forall i {:trigger c.upstream[i]} :: 0 <= i < |c.upstream| && c.upstream[i].Cancel? ==>
          c.upstream[i].id < |requests| && requests[c.upstream[i].id].aborted)
    && (forall k {:trigger c.handlers[k]} :: 0 <= k < |c.handlers| && c.handlers[k].cancelled ==>
          c.disconnected || (c.handlers[k].id < |requests| && requests[c.handlers[k].id].aborted))
  }

  predicate AllAborted(c: Connection) {
    forall k {:trigger c.handlers[k]} :: 0 <= k < |c.handlers| && c.handlers[k].work == Working ==> c.handlers[k].cancelled
  }

  predicate CancelInv(c: Connection, n: ConnectionId, requests: seq<Pending>) {
    && Justified(c, n, requests)
    && (c.disconnected ==> AllAborted(c))
    && (forall id {:trigger Follows(c, id)} :: 0 <= id < |requests| && requests[id].aborted && requests[id].connection == n && !c.Lost() ==>
          Follows(c, id))
  }

  predicate AllCancelInv(connections: seq<Connection>, requests: seq<Pending>) {
    forall n {:trigger connections[n]} :: 0 <= n < |connections| ==> CancelInv(connections[n], n, requests)
  }

  lemma TakeFollows(c: Connection, id: RequestId)
    requires Follows(c, id) && Active(c.handlers, c.activeRequests, c.disconnected) && c.upstream != [] && !c.disconnected
    ensures Follows(TakeUpstream(c), id)
  {
    var t := TakeUpstream(c);
    assert t.upstream == c.upstream[1..];
    assert CancelComes(c.upstream, id, 0);
    forall i | 0 <= i < |t.upstream| ensures CancelComes(t.upstream, id, i) {
      assert CancelComes(c.upstream, id, i + 1);
      assert t.upstream[i + 1..] == c.upstream[i + 2..];
    }
    forall k | 0 <= k < |t.handlers| ensures CancelledOrComing(t.handlers[k], t.upstream, id) {
      if k < |c.handlers| {
        assert CancelledOrComing(c.handlers[k], c.upstream, id);
        assert c.upstream == [c.upstream[0]] + t.upstream;
      }
    }
  }

  lemma TakeKeepsCancelInv(c: Connection, n: ConnectionId, requests: seq<Pending>)
    requires CancelInv(c, n, requests) && Active(c.handlers, c.activeRequests, c.disconnected) && c.upstream != [] && !c.disconnected
    ensures CancelInv(TakeUpstream(c), n, requests)
  {
    var t := TakeUpstream(c);
    assert t.disconnected == c.disconnected && t.broken == c.broken;
    forall id | 0 <= id < |requests| && requests[id].aborted && requests[id].connection == n && !t.Lost()
      ensures Follows(t, id)
    {
      assert Follows(c, id);
      TakeFollows(c, id);
    }
    assert Justified(t, n, requests) by {
      hide Follows;
    }
    hide Follows, Justified, TakeUpstream;
  }

  /** Handlers go on, or the connection goes, with nothing new on the wire. */
  lemma HandlersKeepCancelInv(c: Connection, t: Connection, n: ConnectionId, requests: seq<Pending>)
    requires CancelInv(c, n, requests) && t.upstream == c.upstream && |t.handlers| == |c.handlers|
    requires c.disconnected ==> t.disconnected
    requires c.broken ==> t.broken
    requires forall k {:trigger t.handlers[k]} :: 0 <= k < |c.handlers| ==>
               && t.handlers[k].id == c.handlers[k].id && (t.handlers[k].work == Working ==> c.handlers[k].work == Working)
               && (c.handlers[k].cancelled ==> t.handlers[k].cancelled)
               && (t.handlers[k].cancelled && !t.disconnected ==> c.handlers[k].cancelled)
    requires t.disconnected ==> AllAborted(t)
    ensures CancelInv(t, n, requests)
  {
    forall id | 0 <= id < |requests| && requests[id].aborted && requests[id].connection == n && !t.Lost()
      ensures Follows(t, id)
    {
      assert Follows(c, id);
      forall k | 0 <= k < |t.handlers| ensures CancelledOrComing(t.handlers[k], t.upstream, id) {
        assert CancelledOrComing(c.handlers[k], c.upstream, id);
      }
    }
    hide Follows, CancelComes;
  }

  lemma DisconnectAborts(c: Connection, n: ConnectionId, requests: seq<Pending>)
    requires CancelInv(c, n, requests) && Active(c.handlers, c.activeRequests, c.disconnected)
    ensures AllAborted(DisconnectServer(c)) && CancelInv(DisconnectServer(c), n, requests)
  {
    HandlersKeepCancelInv(c, DisconnectServer(c), n, requests);
  }

  lemma WorkKeepsCancelInv(c: Connection, k: nat, result: CallResult, ok: bool, n: ConnectionId, requests: seq<Pending>)
    requires CancelInv(c, n, requests) && Active(c.handlers, c.activeRequests, c.disconnected) && k < |c.handlers|
    ensures CancelInv(FinishWork(c, k, result), n, requests) && CancelInv(ReturnWork(c, k, ok), n, requests)
  {
    HandlersKeepCancelInv(c, FinishWork(c, k, result), n, requests);
    DisconnectAborts(c, n, requests);
    var closed := if ok then c else DisconnectServer(c);
    HandlersKeepCancelInv(closed, ReturnWork(c, k, ok), n, requests);
  }

  lemma SendFollows(c: Connection, m: Upstream, id: RequestId)
    requires m == Cancel(id) || (m != Cancel(id) && Follows(c, id) && !(m.Request? && m.id == id))
    ensures !c.Lost() ==> Follows(SendUp(c, m), id)
  {
    var t := SendUp(c, m);
    if !c.Lost() {
      forall i | 0 <= i < |t.upstream| ensures CancelComes(t.upstream, id, i) {
        if i < |c.upstream| {
          assert t.upstream[i + 1..] == c.upstream[i + 1..] + [m];
          assert m != Cancel(id) ==> CancelComes(c.upstream, id, i);
        }
      }
      forall k | 0 <= k < |t.handlers| ensures CancelledOrComing(t.handlers[k], t.upstream, id) {
        assert m != Cancel(id) ==> CancelledOrComing(c.handlers[k], c.upstream, id);
      }
    }
  }

  /** The client sends on this connection. */
  lemma SendKeepsCancelInv(c: Connection, m: Upstream, n: ConnectionId, before: seq<Pending>, after: seq<Pending>)
    requires CancelInv(c, n, before) && |before| <= |after|
    requires m.Cancel? ==> m.id < |after| && after[m.id].aborted
    requires m.Request? ==> m.id == |before| < |after| && !after[m.id].aborted
    requires forall id {:trigger after[id]} :: 0 <= id < |before| ==>
               after[id].connection == before[id].connection
               && after[id].aborted == (before[id].aborted || m == Cancel(id))
    requires forall id {:trigger after[id]} :: |before| <= id < |after| ==> !after[id].aborted
    ensures CancelInv(SendUp(c, m), n, after)
  {
    var t := SendUp(c, m);
    forall id | 0 <= id < |after| && after[id].aborted && after[id].connection == n && !t.Lost()
      ensures Follows(t, id)
    {
      assert m != Cancel(id) ==> Follows(c, id);
      SendFollows(c, m, id);
    }
    assert Justified(t, n, after) by {
      hide Follows;
    }
    hide Follows, Justified;
  }

  lemma OthersKeepCancelInv(c: Connection, n: ConnectionId, before: seq<Pending>, after: seq<Pending>)
    requires CancelInv(c, n, before) && |before| <= |after|
    requires forall id {:trigger after[id]} :: 0 <= id < |before| ==>
               after[id].connection == before[id].connection && (before[id].aborted ==> after[id].aborted)
    requires forall id {:trigger after[id]} :: 0 <= id < |after| && after[id].aborted && after[id].connection == n ==>
               id < |before| && before[id].aborted
    ensures CancelInv(c, n, after)
  {
    hide Follows;
  }

  lemma ServerStepKeepsCancelInv(s: System, e: Event)
    requires Inv(s) && AllCancelInv(s.connections, s.client.requests) && Enabled(s, e)
    requires e.EnvelopeArrives? || e.WorkFinishes? || e.WorkReturns? || e.ServerDisconnects?
    ensures AllCancelInv(Next(s, e).connections, s.client.requests)
  {
    var n := e.connection;
    var c := s.connections[n];
    InvGivesActive(s, n);
    match e {
      case EnvelopeArrives(_) => TakeKeepsCancelInv(c, n, s.client.requests);
      case WorkFinishes(_, k, result) => WorkKeepsCancelInv(c, k, result, true, n, s.client.requests);
      case WorkReturns(_, k, ok) => WorkKeepsCancelInv(c, k, Threw(0), ok, n, s.client.requests);
      case ServerDisconnects(_) => DisconnectAborts(c, n, s.client.requests);
    }
    hide Inv, Active, CancelInv, TakeUpstream, FinishWork, ReturnWork, DisconnectServer;
  }

  lemma QuietKeepsCancelInv(s: System, e: Event)
    requires AllCancelInv(s.connections, s.client.requests) && Enabled(s, e)
    requires e.OtherSent? || e.Breaks? || e.Connects?
    ensures AllCancelInv(Next(s, e).connections, s.client.requests)
  {
    if e.Connects? {
      assert CancelInv(NewConnection(), |s.connections|, s.client.requests);
    } else {
      HandlersKeepCancelInv(s.connections[e.connection], Next(s, e).connections[e.connection], e.connection, s.client.requests);
    }
    hide CancelInv;
  }

  lemma SendStepKeepsCancelInv(s: System, e: Event)
    requires AllFated(s.client, s.connections) && AllCancelInv(s.connections, s.client.requests) && Enabled(s, e)
    requires e.Requests? || e.Aborts?
    ensures AllCancelInv(Next(s, e).connections, Next(s, e).client.requests)
  {
    var n, after := s.client.current.value, Next(s, e).client.requests;
    var m := if e.Requests? then Request(|s.client.requests|, e.valid) else Cancel(e.id);
    assert e.Aborts? ==> Fate(s.client.requests[e.id], e.id, true, s.client.current, s.connections);
    forall i | 0 <= i < |s.connections|
      ensures i != n || (e.Requests? && !e.encodes) ==> CancelInv(s.connections[i], i, after)
    {
      if i != n || (e.Requests? && !e.encodes) {
        OthersKeepCancelInv(s.connections[i], i, s.client.requests, after);
      }
    }
    SendKeepsCancelInv(s.connections[n], m, n, s.client.requests, after);
    hide CancelInv, SendUp, AllFated, Fate;
  }

  lemma ClientStepKeepsCancelInv(s: System, e: Event)
    requires AllCancelInv(s.connections, s.client.requests) && Enabled(s, e) && (e.MessageArrives? || e.ClientDisconnects?)
    ensures AllCancelInv(Next(s, e).connections, Next(s, e).client.requests)
  {
    var after := Next(s, e).client.requests;
    forall i | 0 <= i < |s.connections| ensures CancelInv(s.connections[i], i, after) {
      OthersKeepCancelInv(s.connections[i], i, s.client.requests, after);
    }
    if e.MessageArrives? {
      var n := s.client.current.value;
      HandlersKeepCancelInv(s.connections[n], Next(s, e).connections[n], n, after);
    }
    hide CancelInv, TakeResponse, DisconnectClient;
  }

  lemma StepKeepsCancelInv(s: System, e: Event)
    requires Inv(s) && AllFated(s.client, s.connections) && AllCancelInv(s.connections, s.client.requests) && Enabled(s, e)
    ensures AllCancelInv(Next(s, e).connections, Next(s, e).client.requests)
  {
    if e.Requests? || e.Aborts? {
      SendStepKeepsCancelInv(s, e);
    } else if e.MessageArrives? || e.ClientDisconnects? {
      ClientStepKeepsCancelInv(s, e);
    } else if e.OtherSent? || e.Breaks? || e.Connects? {
      QuietKeepsCancelInv(s, e);
    } else {
      ServerStepKeepsCancelInv(s, e);
    }
    hide Inv, AllFated, AllCancelInv, Enabled;
  }

  lemma {:induction false} RunKeepsCancelInv(s: System, events: seq<Event>, t: System)
    requires Inv(s) && AllTruthful(s.connections) && AllFated(s.client, s.connections)
    requires AllCancelInv(s.connections, s.client.requests) && Execute(s, events) == Some(t)
    ensures AllCancelInv(t.connections, t.client.requests)
    decreases |events|
  {
    hide Inv, Enabled, Next, AllTruthful, AllFated, AllCancelInv;
    if events != [] {
      Preserved(s, events[0]);
      StepStaysTruthful(s, events[0]);
      StepFates(s, events[0]);
      StepKeepsCancelInv(s, events[0]);
      RunKeepsCancelInv(Next(s, events[0]), events[1..], t);
    }
  }

  /** The call of an aborted request has its signal aborted as well, unless the cancel is still on its way
      or was lost with the connection; and no other call has, unless the server has dropped the connection. */
  lemma AbortReachesTheCall(events: seq<Event>, s: System, n: ConnectionId, k: nat)
    requires Reaches(events, s) && n < |s.connections| && k < |s.connections[n].handlers|
    requires s.connections[n].handlers[k].work == Working
    ensures var c, h := s.connections[n], s.connections[n].handlers[k];
            && h.id < |s.client.requests|
            && (s.client.requests[h.id].aborted ==> h.cancelled || Cancel(h.id) in c.upstream || c.broken)
            && (h.cancelled ==> s.client.requests[h.id].aborted || c.disconnected)
            && (c.disconnected ==> h.cancelled)
  {
    InitialInv();
    ReachedFates(events, s);
    var c, h := s.connections[n], s.connections[n].handlers[k];
    assert ConnectionInv(c, n, s.client.requests) && Truthful(c);
    OneHandler(c, n, s.client.requests, k, k);
    hide Inv, ConnectionInv, Truthful;
    RunKeepsCancelInv(Initial(), events, s);
    assert CancelInv(c, n, s.client.requests);
    if s.client.requests[h.id].aborted && !c.Lost() {
      assert Follows(c, h.id);
      assert CancelledOrComing(h, c.upstream, h.id);
    }
    hide AllTruthful, AllFated;
  }
}
