/** What a request's promise comes to is what its handler came to. */
module RpcOutcomes {
  import opened Wrappers
  import opened RpcSpec
  import opened RpcProof
  import opened RpcTheorems

  // ---- the handlers of a connection ------------------------------------------------------------

  /** A handler of this request has finished with this outcome. */
  predicate Finished(handlers: seq<Handler>, id: RequestId, outcome: Outcome) {
    exists k {:trigger handlers[k]} :: 0 <= k < |handlers| && handlers[k].id == id && handlers[k].outcome == Some(outcome)
  }

  /** Every envelope taken has its handler, which has an outcome as soon as it is not working any more. */
  predicate HandlersSound(handlers: seq<Handler>, received: seq<RequestId>) {
    && |handlers| == |received|
    && (forall k {:trigger handlers[k]} :: 0 <= k < |handlers| ==>
          handlers[k].id == received[k] && (handlers[k].outcome.None? <==> handlers[k].work == Working))
  }

  /** Every response on its way says what a handler of its request came to. */
  predicate Backed(downstream: seq<Downstream>, handlers: seq<Handler>) {
    forall i {:trigger downstream[i]} :: 0 <= i < |downstream| && downstream[i].Response? ==>
      Finished(handlers, downstream[i].id, downstream[i].outcome)
  }

  /** Handlers keep their requests and their outcomes. */
  predicate Grown(before: seq<Handler>, after: seq<Handler>) {
    && |before| <= |after|
    && (forall k {:trigger after[k]} :: 0 <= k < |before| ==>
          after[k].id == before[k].id && (before[k].outcome.Some? ==> after[k].outcome == before[k].outcome))
  }

  predicate Truthful(c: Connection) {
    HandlersSound(c.handlers, c.received) && Backed(c.downstream, c.handlers)
  }

  lemma GrownFinished(before: seq<Handler>, after: seq<Handler>, id: RequestId, outcome: Outcome)
    requires Grown(before, after) && Finished(before, id, outcome)
    ensures Finished(after, id, outcome)
  {
    var k :| 0 <= k < |before| && before[k].id == id && before[k].outcome == Some(outcome);
    assert after[k].id == id;
  }

  lemma GrownBacked(downstream: seq<Downstream>, before: seq<Handler>, after: seq<Handler>)
    requires Grown(before, after) && Backed(downstream, before)
    ensures Backed(downstream, after)
  {
    forall i | 0 <= i < |downstream| && downstream[i].Response?
      ensures Finished(after, downstream[i].id, downstream[i].outcome)
    {
      GrownFinished(before, after, downstream[i].id, downstream[i].outcome);
    }
  }

  lemma RespondBacked(c: Connection, id: RequestId, outcome: Outcome, handlers: seq<Handler>)
    requires Backed(c.downstream, handlers) && Finished(handlers, id, outcome)
    ensures Backed(Respond(c, id, outcome).downstream, handlers)
  {
  }

  lemma TakeStaysTruthful(c: Connection)
    requires Truthful(c) && c.upstream != []
    ensures Truthful(TakeUpstream(c)) && Grown(c.handlers, TakeUpstream(c).handlers)
  {
    var t := TakeUpstream(c);
    GrownBacked(c.downstream, c.handlers, t.handlers);
    var m := c.upstream[0];
    if m.Request? && |t.handlers| > |c.handlers| {
      var h := t.handlers[|c.handlers|];
      if h.outcome.Some? {
        assert Finished(t.handlers, m.id, h.outcome.value);
        RespondBacked(c, m.id, h.outcome.value, t.handlers);
      }
    }
    hide Finished;
  }

  lemma FinishStaysTruthful(c: Connection, k: nat, result: CallResult)
    requires Truthful(c) && k < |c.handlers| && c.handlers[k].work == Working
    ensures Truthful(FinishWork(c, k, result)) && Grown(c.handlers, FinishWork(c, k, result).handlers)
  {
    var t := FinishWork(c, k, result);
    var outcome := Conclusion(c.handlers[k], result);
    assert t.handlers[k].outcome == Some(outcome);
    GrownBacked(c.downstream, c.handlers, t.handlers);
    RespondBacked(c, c.handlers[k].id, outcome, t.handlers);
    hide Backed, Conclusion;
  }

  lemma DisconnectStaysTruthful(c: Connection)
    requires Truthful(c)
    ensures Truthful(DisconnectServer(c)) && Grown(c.handlers, DisconnectServer(c).handlers)
  {
    GrownBacked(c.downstream, c.handlers, DisconnectServer(c).handlers);
    hide Backed;
  }

  lemma ReturnStaysTruthful(c: Connection, k: nat, ok: bool)
    requires Truthful(c) && k < |c.handlers| && c.handlers[k].work == Responding
    ensures Truthful(ReturnWork(c, k, ok)) && Grown(c.handlers, ReturnWork(c, k, ok).handlers)
  {
    GrownBacked(c.downstream, c.handlers, ReturnWork(c, k, ok).handlers);
    hide Backed;
  }

  ghost predicate AllTruthful(connections: seq<Connection>) {
    forall n {:trigger connections[n]} :: 0 <= n < |connections| ==> Truthful(connections[n])
  }

  predicate AllGrown(before: seq<Connection>, after: seq<Connection>) {
    && |before| <= |after|
    && (forall n {:trigger after[n]} :: 0 <= n < |before| ==> Grown(before[n].handlers, after[n].handlers))
  }

  lemma ServerStaysTruthful(s: System, e: Event)
    requires AllTruthful(s.connections) && Enabled(s, e)
    requires e.EnvelopeArrives? || e.WorkFinishes? || e.WorkReturns? || e.ServerDisconnects?
    ensures AllTruthful(Next(s, e).connections) && AllGrown(s.connections, Next(s, e).connections)
  {
    var c := s.connections[e.connection];
    match e {
      case EnvelopeArrives(_) => TakeStaysTruthful(c);
      case WorkFinishes(_, k, result) => FinishStaysTruthful(c, k, result);
      case WorkReturns(_, k, ok) => ReturnStaysTruthful(c, k, ok);
      case ServerDisconnects(_) => DisconnectStaysTruthful(c);
    }
    hide Truthful, TakeUpstream, FinishWork, ReturnWork, DisconnectServer;
  }

  lemma StepStaysTruthful(s: System, e: Event)
    requires AllTruthful(s.connections) && Enabled(s, e)
    ensures AllTruthful(Next(s, e).connections) && AllGrown(s.connections, Next(s, e).connections)
  {
    if e.EnvelopeArrives? || e.WorkFinishes? || e.WorkReturns? || e.ServerDisconnects? {
      ServerStaysTruthful(s, e);
      hide Next;
    }
    hide Finished, TakeResponse;
  }

  // ---- the fate of a request -------------------------------------------------------------------

  /** What a request's promise says agrees with what has happened to it. */
  predicate Fate(p: Pending, id: RequestId, waiting: bool, current: Option<ConnectionId>, connections: seq<Connection>) {
    && p.connection < |connections|
    && (waiting ==> current == Some(p.connection) && (p.promise == Unsettled || p.aborted))
    && (p.aborted <==> p.promise == Rejected(Aborted))
    && match p.promise
       case Unsettled => waiting
       case Resolved(value) => Finished(connections[p.connection].handlers, id, Succeeded(value))
       case Rejected(ByServer(failure)) => Finished(connections[p.connection].handlers, id, Failed(failure))
       case Rejected(BadResult) => current != Some(p.connection)
       case Rejected(Disconnected) => current != Some(p.connection)
       case Rejected(Aborted) => true
       case Rejected(NotEncoded) => !waiting
  }

  predicate AllFated(c: Client, connections: seq<Connection>) {
    forall id {:trigger c.requests[id]} :: 0 <= id < |c.requests| ==>
      Fate(c.requests[id], id, id in c.pending, c.current, connections)
  }

  lemma GrownFate(p: Pending, id: RequestId, waiting: bool, current: Option<ConnectionId>,
                  before: seq<Connection>, after: seq<Connection>)
    requires Fate(p, id, waiting, current, before) && AllGrown(before, after)
    ensures Fate(p, id, waiting, current, after)
  {
    match p.promise {
      case Resolved(v) =>
        GrownFinished(before[p.connection].handlers, after[p.connection].handlers, id, Succeeded(v));
      case Rejected(ByServer(f)) =>
        GrownFinished(before[p.connection].handlers, after[p.connection].handlers, id, Failed(f));
      case _ =>
    }
  }

  lemma GrownFated(c: Client, before: seq<Connection>, after: seq<Connection>)
    requires AllFated(c, before) && AllGrown(before, after)
    ensures AllFated(c, after)
  {
    forall id | 0 <= id < |c.requests| ensures Fate(c.requests[id], id, id in c.pending, c.current, after) {
      GrownFate(c.requests[id], id, id in c.pending, c.current, before, after);
    }
  }

  lemma AnswerFates(c: Client, id: RequestId, outcome: Outcome, good: bool, n: ConnectionId, connections: seq<Connection>)
    requires ClientInv(c) && AllFated(c, connections) && id in c.pending && n < |connections| && c.current == Some(n)
    requires Finished(connections[n].handlers, id, outcome)
    ensures AllFated(TakeResponse(c, id, outcome, good), connections)
  {
    var t := TakeResponse(c, id, outcome, good);
    forall i | 0 <= i < |t.requests| ensures Fate(t.requests[i], i, i in t.pending, t.current, connections) {
      assert Fate(c.requests[i], i, i in c.pending, c.current, connections);
    }
    hide Finished;
  }

  lemma DisconnectFates(c: Client, connections: seq<Connection>)
    requires AllFated(c, connections)
    ensures AllFated(DisconnectClient(c), connections)
  {
    var t := DisconnectClient(c);
    forall i | 0 <= i < |t.requests| ensures Fate(t.requests[i], i, i in t.pending, t.current, connections) {
      assert Fate(c.requests[i], i, i in c.pending, c.current, connections);
    }
    hide Finished;
  }

  lemma ConnectFates(c: Client, connections: seq<Connection>)
    requires ClientInv(c) && AllFated(c, connections) && c.current.None?
    ensures AllFated(c.(current := Some(|connections|)), connections + [NewConnection()])
  {
    var all := connections + [NewConnection()];
    forall i | 0 <= i < |c.requests| ensures Fate(c.requests[i], i, i in c.pending, Some(|connections|), all) {
      assert Fate(c.requests[i], i, i in c.pending, c.current, connections);
      assert all[c.requests[i].connection] == connections[c.requests[i].connection];
    }
    hide Finished;
  }

  lemma ClientStepFates(s: System, e: Event)
    requires Inv(s) && AllFated(s.client, s.connections) && Enabled(s, e) && (e.Requests? || e.Aborts?)
    ensures AllFated(Next(s, e).client, s.connections)
  {
    var c, t := s.client, Next(s, e).client;
    forall i | 0 <= i < |t.requests| ensures Fate(t.requests[i], i, i in t.pending, t.current, s.connections) {
      assert i < |c.requests| ==> Fate(c.requests[i], i, i in c.pending, c.current, s.connections);
    }
    hide Finished, AllConnections, AllOwed;
  }

  lemma ArrivalFates(s: System, good: bool)
    requires Inv(s) && AllTruthful(s.connections) && AllFated(s.client, s.connections) && Enabled(s, MessageArrives(good))
    ensures AllFated(Next(s, MessageArrives(good)).client, s.connections)
  {
    var n := s.client.current.value;
    var c := s.connections[n];
    var m := c.downstream[0];
    assert Truthful(c) && ConnectionInv(c, n, s.client.requests);
    if m.Response? {
      TakeDownKeepsConnection(c, n, s.client.requests, s.client.pending);
      AnswerFates(s.client, m.id, m.outcome, good, n, s.connections);
    }
    hide Finished, AllConnections, AllOwed, ConnectionInv, AllFated, TakeResponse, Truthful, ClientInv;
  }

  lemma StepFates(s: System, e: Event)
    requires Inv(s) && AllTruthful(s.connections) && AllFated(s.client, s.connections) && Enabled(s, e)
    ensures AllFated(Next(s, e).client, Next(s, e).connections)
  {
    StepStaysTruthful(s, e);
    var t := Next(s, e);
    assert ClientInv(s.client);
    hide Inv, ClientInv, AllTruthful, AllFated, AllGrown;
    if e.Connects? {
      ConnectFates(s.client, s.connections);
    } else if e.Requests? || e.Aborts? {
      ClientStepFates(s, e);
      hide Next;
      GrownFated(t.client, s.connections, t.connections);
    } else if e.MessageArrives? {
      ArrivalFates(s, e.good);
      hide Next;
      GrownFated(t.client, s.connections, t.connections);
    } else if e.ClientDisconnects? {
      DisconnectFates(s.client, s.connections);
      FatedIgnoresDisposed(DisconnectClient(s.client), s.connections, s.client.disposed || e.dispose);
    } else {
      assert t.client == s.client;
      hide Next;
      GrownFated(s.client, s.connections, t.connections);
    }
  }

  lemma FatedIgnoresDisposed(c: Client, connections: seq<Connection>, disposed: bool)
    requires AllFated(c, connections)
    ensures AllFated(c.(disposed := disposed), connections)
  {
    var t := c.(disposed := disposed);
    forall i | 0 <= i < |t.requests| ensures Fate(t.requests[i], i, i in t.pending, t.current, connections) {
      assert Fate(c.requests[i], i, i in c.pending, c.current, connections);
    }
  }

  lemma {:induction false} RunFates(s: System, events: seq<Event>, t: System)
    requires Inv(s) && AllTruthful(s.connections) && AllFated(s.client, s.connections) && Execute(s, events) == Some(t)
    ensures AllTruthful(t.connections) && AllFated(t.client, t.connections)
    ensures AllGrown(s.connections, t.connections)
    decreases |events|
  {
    hide Inv, Enabled, Next, AllTruthful, AllFated;
    if events == [] {
      return;
    }
    var u := Next(s, events[0]);
    Preserved(s, events[0]);
    StepStaysTruthful(s, events[0]);
    StepFates(s, events[0]);
    RunFates(u, events[1..], t);
    GrownCompose(s.connections, u.connections, t.connections);
  }

  lemma GrownCompose(a: seq<Connection>, b: seq<Connection>, c: seq<Connection>)
    requires AllGrown(a, b) && AllGrown(b, c)
    ensures AllGrown(a, c)
  {
    forall n | 0 <= n < |a| ensures Grown(a[n].handlers, c[n].handlers) {
      assert Grown(a[n].handlers, b[n].handlers) && Grown(b[n].handlers, c[n].handlers);
    }
  }

  lemma ReachedFates(events: seq<Event>, s: System)
    requires Reaches(events, s)
    ensures Inv(s) && AllTruthful(s.connections) && AllFated(s.client, s.connections)
  {
    InitialInv();
    hide Inv;
    RunFates(Initial(), events, s);
    ReachedKeepsInv(events, s);
  }

  // ---- from the call to the promise ------------------------------------------------------------

  /** Where a handler's outcome comes from. */
  lemma StepOutcome(s: System, e: Event, n: ConnectionId, k: nat)
    requires AllTruthful(s.connections) && Enabled(s, e) && n < |Next(s, e).connections|
    requires k < |Next(s, e).connections[n].handlers| && Next(s, e).connections[n].handlers[k].outcome.Some?
    requires n < |s.connections| && k < |s.connections[n].handlers| ==> s.connections[n].handlers[k].outcome.None?
    ensures n < |s.connections|
    ensures var outcome := Next(s, e).connections[n].handlers[k].outcome.value;
            || (&& k < |s.connections[n].handlers| && s.connections[n].handlers[k].work == Working
                && e.WorkFinishes? && e == WorkFinishes(n, k, e.result)
                && outcome == Conclusion(s.connections[n].handlers[k], e.result))
            || (e == EnvelopeArrives(n) && (outcome == Failed(AlreadyActive) || outcome == Failed(InvalidCall)))
  {
    hide Truthful, Finished, Backed, TakeResponse, Conclusion;
    assert n < |s.connections| ==> Truthful(s.connections[n]);
  }

  /** The call of a handler that came to a value returned that value. */
  lemma {:induction false} SucceededByItsCall(s: System, events: seq<Event>, t: System, n: ConnectionId, k: nat, value: nat)
    requires AllTruthful(s.connections) && Execute(s, events) == Some(t)
    requires n < |t.connections| && k < |t.connections[n].handlers|
    requires t.connections[n].handlers[k].outcome == Some(Succeeded(value))
    requires n < |s.connections| && k < |s.connections[n].handlers| ==> s.connections[n].handlers[k].outcome.None?
    ensures WorkFinishes(n, k, Returned(value)) in events
    decreases |events|
  {
    hide Enabled, Next, AllTruthful;
    if events == [] {
      return;
    }
    var e, u := events[0], Next(s, events[0]);
    StepStaysTruthful(s, e);
    if n < |u.connections| && k < |u.connections[n].handlers| && u.connections[n].handlers[k].outcome.Some? {
      StepOutcome(s, e, n, k);
      RunGrows(u, events[1..], t);
      assert Grown(u.connections[n].handlers, t.connections[n].handlers);
      assert t.connections[n].handlers[k].outcome == u.connections[n].handlers[k].outcome;
      assert e == WorkFinishes(n, k, Returned(value));
    } else {
      SucceededByItsCall(u, events[1..], t, n, k, value);
    }
  }

  lemma {:induction false} RunGrows(s: System, events: seq<Event>, t: System)
    requires AllTruthful(s.connections) && Execute(s, events) == Some(t)
    ensures AllGrown(s.connections, t.connections)
    decreases |events|
  {
    hide Enabled, Next, AllTruthful;
    if events != [] {
      StepStaysTruthful(s, events[0]);
      RunGrows(Next(s, events[0]), events[1..], t);
      GrownCompose(s.connections, Next(s, events[0]).connections, t.connections);
    }
  }

  /** A promise resolves with a value only if a handler of that very request, on the connection it was
      made on, had its call return that value. */
  lemma ResolvedByItsHandler(events: seq<Event>, s: System, id: RequestId) returns (k: nat)
    requires Reaches(events, s) && id < |s.client.requests| && s.client.requests[id].promise.Resolved?
    ensures var n := s.client.requests[id].connection;
            && n < |s.connections| && k < |s.connections[n].handlers| && s.connections[n].handlers[k].id == id
            && WorkFinishes(n, k, Returned(s.client.requests[id].promise.value)) in events
  {
    ReachedFates(events, s);
    var p := s.client.requests[id];
    assert Fate(p, id, id in s.client.pending, s.client.current, s.connections);
    var handlers := s.connections[p.connection].handlers;
    k :| 0 <= k < |handlers| && handlers[k].id == id && handlers[k].outcome == Some(Succeeded(p.promise.value));
    hide Inv, AllFated, Fate;
    SucceededByItsCall(Initial(), events, s, p.connection, k, p.promise.value);
  }

  /** What a handler's call comes to stays what its response says, and a call that throws after its signal
      was aborted is answered as cancelled. */
  lemma FinishedForGood(before: seq<Event>, s: System, n: ConnectionId, k: nat, result: CallResult,
                        after: seq<Event>, t: System)
    requires Reaches(before, s) && Enabled(s, WorkFinishes(n, k, result))
    requires Execute(Next(s, WorkFinishes(n, k, result)), after) == Some(t)
    ensures n < |t.connections| && k < |t.connections[n].handlers|
    ensures t.connections[n].handlers[k].outcome ==
              Some(match result
                   case Returned(value) => Succeeded(value)
                   case Threw(error) => Failed(if s.connections[n].handlers[k].cancelled then Cancelled else CallFailed(error)))
  {
    var e := WorkFinishes(n, k, result);
    ReachedFates(before, s);
    StepStaysTruthful(s, e);
    var u := Next(s, e);
    assert u.connections[n].handlers[k].outcome == Some(Conclusion(s.connections[n].handlers[k], result));
    hide Inv, AllTruthful, Next, Enabled, AllFated;
    RunGrows(u, after, t);
    assert Grown(u.connections[n].handlers, t.connections[n].handlers);
  }

  /** A response settles its promise as it says, unless the request was aborted before. */
  lemma ResponseSettles(events: seq<Event>, s: System, good: bool)
    requires Reaches(events, s) && Enabled(s, MessageArrives(good))
    requires s.connections[s.client.current.value].downstream[0].Response?
    ensures var m := s.connections[s.client.current.value].downstream[0];
            var t := Next(s, MessageArrives(good)).client;
            && m.id in s.client.pending && m.id < |s.client.requests| == |t.requests| && m.id !in t.pending
            && (s.client.requests[m.id].promise == Unsettled ==>
                  t.requests[m.id].promise == match m.outcome
                                              case Failed(failure) => Rejected(ByServer(failure))
                                              case Succeeded(value) => if good then Resolved(value) else Rejected(BadResult))
  {
    ReachedKeepsInv(events, s);
    var n := s.client.current.value;
    assert ConnectionInv(s.connections[n], n, s.client.requests);
    TakeDownKeepsConnection(s.connections[n], n, s.client.requests, s.client.pending);
    hide ConnectionInv, AllConnections, AllOwed;
  }

  /** What the promise of a request says is what has happened to it. */
  lemma PromisesTellTheTruth(events: seq<Event>, s: System, id: RequestId)
    requires Reaches(events, s) && id < |s.client.requests|
    ensures Fate(s.client.requests[id], id, id in s.client.pending, s.client.current, s.connections)
  {
    ReachedFates(events, s);
    hide Inv, Fate;
  }

  lemma {:induction false} TimesUnique(ids: seq<RequestId>, id: RequestId, i: nat, j: nat)
    requires i < |ids| && j < |ids| && ids[i] == ids[j] == id && Times(ids, id) <= 1
    ensures i == j
    decreases |ids|
  {
    assert i > 0 ==> ids[1..][i - 1] == id;
    assert j > 0 ==> ids[1..][j - 1] == id;
    TimesIn(ids[1..], id);
    if i > 0 && j > 0 {
      TimesUnique(ids[1..], id, i - 1, j - 1);
    }
  }

  lemma {:induction false} NoneUnderway(handlers: seq<Handler>, id: RequestId)
    requires forall k {:trigger handlers[k]} :: 0 <= k < |handlers| && handlers[k].id == id ==> handlers[k].work != Working
    ensures Underway(handlers, id) == 0
    decreases |handlers|
  {
    if handlers != [] {
      NoneUnderway(handlers[1..], id);
    }
  }

  /** A request has one handler at most. */
  lemma OneHandler(c: Connection, n: ConnectionId, requests: seq<Pending>, i: nat, j: nat)
    requires ConnectionInv(c, n, requests) && HandlersSound(c.handlers, c.received)
    requires i < |c.handlers| && j < |c.handlers| && c.handlers[i].id == c.handlers[j].id
    ensures i == j && Asked(c.upstream, c.handlers[i].id) == 0
    ensures c.handlers[i].id < |requests| && WentOut(requests[c.handlers[i].id], n)
  {
    var id := c.handlers[i].id;
    assert SentOnce(c, n, requests, id);
    TimesIn(c.received, id);
    assert c.received[i] == id;
    TimesUnique(c.received, id, i, j);
  }

  /** An answer comes home: once the handler of a request on a sound connection has finished and its response
      is not on its way any more, the promise is what the handler came to, unless the request was aborted. */
  lemma AnswerComesHome(events: seq<Event>, s: System, k: nat)
    requires Reaches(events, s) && Connected(s) && !s.connections[s.client.current.value].Lost()
    requires k < |s.connections[s.client.current.value].handlers|
    requires s.connections[s.client.current.value].handlers[k].outcome.Some?
    requires Replies(s.connections[s.client.current.value].downstream, s.connections[s.client.current.value].handlers[k].id) == 0
    ensures var h := s.connections[s.client.current.value].handlers[k];
            && h.id < |s.client.requests|
            && (!s.client.requests[h.id].aborted ==>
                  s.client.requests[h.id].promise == match h.outcome.value
                                                     case Failed(failure) => Rejected(ByServer(failure))
                                                     case Succeeded(value) => Resolved(value))
  {
    var n := s.client.current.value;
    var c := s.connections[n];
    var h := c.handlers[k];
    ReachedFates(events, s);
    assert ConnectionInv(c, n, s.client.requests) && Truthful(c) && Owed(c, s.client.pending, h.id);
    OneHandler(c, n, s.client.requests, k, k);
    forall j | 0 <= j < |c.handlers| && c.handlers[j].id == h.id ensures c.handlers[j].work != Working {
      OneHandler(c, n, s.client.requests, k, j);
    }
    NoneUnderway(c.handlers, h.id);
    var p := s.client.requests[h.id];
    assert Fate(p, h.id, h.id in s.client.pending, s.client.current, s.connections);
    hide Inv, AllTruthful, AllFated, ConnectionInv;
    FinishedHow(c, n, s.client.requests, k, p.promise);
  }

  lemma FinishedHow(c: Connection, n: ConnectionId, requests: seq<Pending>, k: nat, promise: Promise)
    requires ConnectionInv(c, n, requests) && Truthful(c) && k < |c.handlers| && c.handlers[k].outcome.Some?
    ensures promise.Resolved? && Finished(c.handlers, c.handlers[k].id, Succeeded(promise.value)) ==>
              c.handlers[k].outcome.value == Succeeded(promise.value)
    ensures promise.Rejected? && promise.reason.ByServer? && Finished(c.handlers, c.handlers[k].id, Failed(promise.reason.failure)) ==>
              c.handlers[k].outcome.value == Failed(promise.reason.failure)
  {
    forall j | 0 <= j < |c.handlers| && c.handlers[j].id == c.handlers[k].id ensures j == k {
      OneHandler(c, n, requests, k, j);
    }
    hide ConnectionInv, Backed;
  }
}
