/** What follows once a client has been disposed of or a connection has gone. */
module RpcEndings {
  import opened Wrappers
  import opened RpcSpec

  lemma StepDisposes(s: System, e: Event)
    requires Enabled(s, e)
    ensures Next(s, e).client.disposed <==> s.client.disposed || e == ClientDisconnects(true)
  {
    hide TakeUpstream, FinishWork, ReturnWork, DisconnectServer, SendUp;
  }

  lemma {:induction false} Disposes(s: System, events: seq<Event>, t: System)
    requires Execute(s, events) == Some(t)
    ensures t.client.disposed <==> s.client.disposed || ClientDisconnects(true) in events
    decreases |events|
  {
    hide Enabled, Next;
    if events != [] {
      StepDisposes(s, events[0]);
      Disposes(Next(s, events[0]), events[1..], t);
      assert events == [events[0]] + events[1..];
    }
  }

  /** A client that has been disposed of makes no connection and no request any more, and no other client is
      kept from it. */
  lemma DisposedIff(events: seq<Event>, s: System)
    requires Reaches(events, s)
    ensures s.client.current.None? ==> (Enabled(s, Connects) <==> ClientDisconnects(true) !in events)
    ensures ClientDisconnects(true) in events ==>
              !Enabled(s, Connects) && forall encodes, valid :: !Enabled(s, Requests(encodes, valid))
  {
    Disposes(Initial(), events, s);
  }

  predicate Gone(s: System, n: ConnectionId) {
    n < |s.connections| && s.connections[n].Lost()
  }

  lemma StepSendsNothing(s: System, e: Event, n: ConnectionId)
    requires Gone(s, n) && Enabled(s, e)
    ensures Gone(Next(s, e), n)
    ensures Next(s, e).connections[n].downstream == s.connections[n].downstream
            || (s.connections[n].downstream != [] && Next(s, e).connections[n].downstream == s.connections[n].downstream[1..])
  {
    hide TakeResponse, SettleRequest, DisconnectClient;
  }

  /** Once a connection is gone nothing is sent to its client any more: what is on it is the rest of what was. */
  lemma {:induction false} GoneSendsNothing(s: System, events: seq<Event>, t: System, n: ConnectionId) returns (taken: nat)
    requires Gone(s, n) && Execute(s, events) == Some(t)
    ensures Gone(t, n) && taken <= |s.connections[n].downstream|
    ensures t.connections[n].downstream == s.connections[n].downstream[taken..]
    decreases |events|
  {
    taken := 0;
    if events != [] {
      StepSendsNothing(s, events[0], n);
      assert n < |s.connections| && n < |Next(s, events[0]).connections|;
      hide Enabled, Next;
      taken := GoneSendsNothing(Next(s, events[0]), events[1..], t, n);
      if Next(s, events[0]).connections[n].downstream != s.connections[n].downstream {
        taken := taken + 1;
      }
    }
  }

  lemma DisconnectedSendsNothing(before: seq<Event>, s: System, e: Event, n: ConnectionId, after: seq<Event>, t: System)
    returns (taken: nat)
    requires Reaches(before, s) && Enabled(s, e) && (e == ServerDisconnects(n) || e == Breaks(n))
    requires Execute(Next(s, e), after) == Some(t)
    ensures n < |s.connections| && n < |t.connections| && taken <= |s.connections[n].downstream|
    ensures t.connections[n].downstream == s.connections[n].downstream[taken..]
  {
    taken := GoneSendsNothing(Next(s, e), after, t, n);
  }
}
