/** What callers of the RPC layer can rely on. */
module RpcTheorems {
  import opened Wrappers
  import opened RpcSpec
  import opened RpcProof

  /** No run, with whatever aborts and cancels, gets a response the client cannot match. */
  lemma NoUnmatchedResponse(events: seq<Event>, s: System)
    requires Reaches(events, s)
    ensures !s.client.unmatched
  {
    ReachedKeepsInv(events, s);
  }

  /** By the time the client is disconnected every request promise has settled. */
  lemma SettledByDisconnect(events: seq<Event>, s: System, id: RequestId)
    requires Reaches(events, s) && s.client.current.None? && id < |s.client.requests|
    ensures s.client.requests[id].promise != Unsettled
  {
    ReachedKeepsInv(events, s);
  }

  lemma StepKeepsOutcome(s: System, e: Event, id: RequestId)
    requires Enabled(s, e) && id < |s.client.requests| && s.client.requests[id].promise != Unsettled
    ensures id < |Next(s, e).client.requests|
    ensures Next(s, e).client.requests[id].promise == s.client.requests[id].promise
  {
    hide TakeUpstream, FinishWork, ReturnWork, SendUp;
  }

  /** A promise settles at most once: later responses, aborts and disconnects leave the outcome alone. */
  lemma {:induction false} OutcomeIsFinal(s: System, events: seq<Event>, t: System, id: RequestId)
    requires Execute(s, events) == Some(t)
    requires id < |s.client.requests| && s.client.requests[id].promise != Unsettled
    ensures id < |t.client.requests| && t.client.requests[id].promise == s.client.requests[id].promise
    decreases |events|
  {
    hide Next, Enabled;
    if events != [] {
      StepKeepsOutcome(s, events[0], id);
      OutcomeIsFinal(Next(s, events[0]), events[1..], t, id);
    }
  }

  /** As long as its connection is not lost a pending request is in exactly one place: on its way to
      the server, being worked on, or answered and on its way back. Nothing else is in flight. */
  lemma PendingIsInFlight(events: seq<Event>, s: System, id: RequestId)
    requires Reaches(events, s) && Connected(s)
    ensures InFlight(s.connections[s.client.current.value], id) <= Bit(id in s.client.pending)
    ensures !s.connections[s.client.current.value].Lost() ==>
              InFlight(s.connections[s.client.current.value], id) == Bit(id in s.client.pending)
  {
    ReachedKeepsInv(events, s);
    assert Owed(s.connections[s.client.current.value], s.client.pending, id);
  }

  /** On every connection, current or not, each request gets at most one response; and exactly one once
      the server is done with it, unless the connection is lost. */
  lemma AnsweredOnce(events: seq<Event>, s: System, n: ConnectionId, id: RequestId)
    requires Reaches(events, s) && n < |s.connections|
    ensures Times(s.connections[n].answered, id) <= Times(s.connections[n].received, id) <= 1
    ensures !s.connections[n].Lost() && id in s.connections[n].received && Underway(s.connections[n].handlers, id) == 0 ==>
              Times(s.connections[n].answered, id) == 1
  {
    ReachedKeepsInv(events, s);
    var c := s.connections[n];
    assert ConnectionInv(c, n, s.client.requests);
    assert Balanced(c, id) && SentOnce(c, n, s.client.requests, id);
    TimesIn(c.received, id);
  }

  lemma {:induction false} TimesIn(ids: seq<RequestId>, id: RequestId)
    ensures id in ids <==> Times(ids, id) > 0
    decreases |ids|
  {
    if ids != [] {
      TimesIn(ids[1..], id);
      assert id in ids <==> ids[0] == id || id in ids[1..];
    }
  }

  // ---- the server against any client -----------------------------------------------------------

  /** What can happen at the server's end of a connection, whoever is at the other. */
  datatype Step = Arrives(envelope: Upstream) | Finishes(handler: nat, result: CallResult) | Returns(handler: nat, ok: bool)

  function Serve(c: Connection, steps: seq<Step>): Option<Connection>
    decreases |steps|
  {
    if steps == [] then Some(c)
    else
      match steps[0]
      case Arrives(m) =>
        if c.disconnected then None else Serve(TakeUpstream(c.(upstream := [m])), steps[1..])
      case Finishes(k, result) =>
        if k < |c.handlers| && c.handlers[k].work == Working then Serve(FinishWork(c, k, result), steps[1..]) else None
      case Returns(k, ok) =>
        if k < |c.handlers| && c.handlers[k].work == Responding then Serve(ReturnWork(c, k, ok), steps[1..]) else None
  }

  /** Even a client that reuses the number of an active request gets one response per envelope. */
  lemma {:induction false} OneResponsePerEnvelope(c: Connection, steps: seq<Step>, t: Connection, id: RequestId)
    requires Balanced(c, id) && Serve(c, steps) == Some(t)
    ensures Times(t.answered, id) + Underway(t.handlers, id) <= Times(t.received, id)
    ensures !t.Lost() ==> Times(t.answered, id) + Underway(t.handlers, id) == Times(t.received, id)
    decreases |steps|
  {
    hide TakeUpstream, FinishWork, ReturnWork, Underway, Times;
    if steps != [] {
      match steps[0] {
        case Arrives(m) =>
          var taken := c.(upstream := [m]);
          assert Balanced(taken, id);
          if m.Request? { RequestMoves(taken, id); } else { CancelMoves(taken, id); }
          OneResponsePerEnvelope(TakeUpstream(taken), steps[1..], t, id);
        case Finishes(k, result) =>
          FinishMoves(c, k, result, id);
          OneResponsePerEnvelope(FinishWork(c, k, result), steps[1..], t, id);
        case Returns(k, ok) =>
          ReturnMoves(c, k, ok, id);
          OneResponsePerEnvelope(ReturnWork(c, k, ok), steps[1..], t, id);
      }
    }
  }
}
