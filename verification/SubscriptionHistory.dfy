/** What ends a subscription, and that nothing else does. */
module SubscriptionHistory {
  import opened Wrappers
  import opened SubscriptionSpec
  import opened SubscriptionProof
  import opened SubscriptionTheorems

  // ---- the client's side of it -----------------------------------------------------------------

  /** The caller gives up, the connection goes, or the provider refuses. */
  predicate Thwarts(e: Event) {
    e.Aborted? || e.ClientDisconnects? || (e.Invoked? && !e.ok)
  }

  /** The subscription is being asked for or has been got. */
  predicate OnItsWay(s: System) {
    && s.client.connected && s.client.promise != Rejected && s.client.phase != Failed
    && (s.client.phase == Awaiting || s.client.phase == Subscribed ==> s.client.registered)
    && (s.client.phase != Awaiting ==> s.client.promise == Resolved)
    && (s.client.promise == Unsettled <==> s.client.awaited)
    && s.server.gate != Refused && None !in Answers(s.channel.messages)
  }

  lemma NoneAppended(messages: seq<Message>, m: Message)
    requires None !in Answers(messages) && (m.Answer? ==> m.snapshot.Some?)
    ensures None !in Answers(messages + [m])
  {
    UpdatesAppend(messages, m);
  }

  lemma SendingStaysOnItsWay(s: System, e: Event)
    requires Inv(s) && OnItsWay(s) && Enabled(s, e) && !Thwarts(e)
    requires e.Published? || e.Invoked? || e.SendSettles? || e.OtherSent?
    ensures OnItsWay(Next(s, e))
  {
    match e {
      case Published(u) =>
        if s.server.encoder.Some? { NoneAppended(s.channel.messages, Changed(s.server.encoder.value, u)); }
      case Invoked(_) => NoneAppended(s.channel.messages, Answer(Some(0)));
      case SendSettles =>
        if s.server.encoder.Some? && s.server.pending != [] {
          NoneAppended(s.channel.messages, Changed(s.server.encoder.value, s.server.pending[0]));
        }
      case OtherSent => NoneAppended(s.channel.messages, Other);
    }
    hide Inv, Answers;
  }

  lemma ArrivalStaysOnItsWay(s: System)
    requires Inv(s) && OnItsWay(s) && Enabled(s, MessageArrives)
    ensures OnItsWay(Next(s, MessageArrives))
  {
    var m := s.channel.messages[0];
    Preserved(s, MessageArrives);
    assert Answers(s.channel.messages) == (if m.Answer? then [m.snapshot] else []) + Answers(s.channel.messages[1..]);
    if m.Answer? {
      assert Answers(s.channel.messages)[0] == m.snapshot;
      ArrivalKeepsWire(s.server, s.channel, s.client.awaited, s.taken);
      AnswerReceived(s.client, m.snapshot);
      hide Receive;
    }
    hide Answers, WireInv, FlowInv, Updates, Decodable;
  }

  lemma StepStaysOnItsWay(s: System, e: Event)
    requires Inv(s) && OnItsWay(s) && Enabled(s, e) && !Thwarts(e)
    ensures OnItsWay(Next(s, e))
  {
    if e.Published? || e.Invoked? || e.SendSettles? || e.OtherSent? {
      SendingStaysOnItsWay(s, e);
      hide Inv, OnItsWay, Next;
    } else if e.MessageArrives? {
      ArrivalStaysOnItsWay(s);
      hide Inv, OnItsWay, Next;
    } else {
      hide Inv, Answers;
    }
  }

  lemma {:induction false} StaysOnItsWay(s: System, events: seq<Event>, t: System)
    requires Inv(s) && OnItsWay(s) && Execute(s, events) == Some(t)
    requires forall i :: 0 <= i < |events| ==> !Thwarts(events[i])
    ensures OnItsWay(t)
    decreases |events|
  {
    hide Inv, Enabled, Next, OnItsWay;
    if events != [] {
      assert !Thwarts(events[0]);
      Preserved(s, events[0]);
      StepStaysOnItsWay(s, events[0]);
      StaysOnItsWay(Next(s, events[0]), events[1..], t);
    }
  }

  lemma InitiallyOnItsWay()
    ensures Inv(Initial()) && OnItsWay(Initial())
  {
    InitialInv();
  }

  /** A subscription fails only if its caller gave up, the connection went, or the provider refused. */
  lemma FailedForAReason(events: seq<Event>, s: System) returns (i: nat)
    requires Reaches(events, s) && (s.client.phase == Failed || s.client.promise == Rejected || !s.client.connected)
    ensures i < |events| && Thwarts(events[i])
  {
    if forall i :: 0 <= i < |events| ==> !Thwarts(events[i]) {
      InitiallyOnItsWay();
      hide Inv;
      StaysOnItsWay(Initial(), events, s);
      assert false;
    }
    i :| 0 <= i < |events| && Thwarts(events[i]);
  }

  // ---- the server's side of it -----------------------------------------------------------------

  /** The server stops sending updates. */
  predicate Silences(e: Event) {
    e.UnsubscribeArrives? || e.ServerDisconnects? || e.ChannelBreaks?
  }

  /** The gate says what has happened, and the encoder is there as soon as the answer is. */
  predicate Serving(server: Server, channel: Channel) {
    && !channel.broken && !server.disconnected
    && (server.gate == Responding || server.gate == Draining || server.gate == Passing <==> server.encoder.Some?)
  }

  lemma StepStaysServing(s: System, e: Event)
    requires Serving(s.server, s.channel) && Enabled(s, e) && !Silences(e)
    ensures Serving(Next(s, e).server, Next(s, e).channel)
  {
    hide Receive, Continue, Start, Disconnected;
  }

  lemma {:induction false} StaysServing(s: System, events: seq<Event>, t: System)
    requires Serving(s.server, s.channel) && Execute(s, events) == Some(t)
    requires forall i :: 0 <= i < |events| ==> !Silences(events[i])
    ensures Serving(t.server, t.channel)
    decreases |events|
  {
    hide Enabled, Next, Serving;
    if events != [] {
      assert !Silences(events[0]);
      StepStaysServing(s, events[0]);
      StaysServing(Next(s, events[0]), events[1..], t);
    }
  }

  /** The server stops putting updates on the wire only if the client unsubscribed or the connection went. */
  lemma CutForAReason(events: seq<Event>, s: System) returns (i: nat)
    requires Reaches(events, s) && Cut(s.server, s.channel)
    ensures i < |events| && Silences(events[i])
  {
    if forall i :: 0 <= i < |events| ==> !Silences(events[i]) {
      StaysServing(Initial(), events, s);
      assert false;
    }
    i :| 0 <= i < |events| && Silences(events[i]);
  }

  predicate Replied(gate: Gate) {
    gate == Responding || gate == Draining || gate == Passing || gate == Refused
  }

  lemma StepGate(s: System, e: Event)
    requires Enabled(s, e)
    ensures Replied(Next(s, e).server.gate) <==> Replied(s.server.gate) || e.Invoked?
    ensures Next(s, e).server.gate == Refused <==> s.server.gate == Refused || e == Invoked(false)
    ensures Next(s, e).server.gate == Idle <==> s.server.gate == Idle && e != RequestArrives
  {
    hide Receive, Continue, Start, Disconnected;
  }

  /** The server has answered if the provider has come back, and refused if it came back with an error. */
  lemma {:induction false} GateIff(s: System, events: seq<Event>, t: System)
    requires Execute(s, events) == Some(t) && !Replied(s.server.gate)
    ensures Replied(t.server.gate) <==> Invoked(true) in events || Invoked(false) in events
    ensures t.server.gate == Refused <==> Invoked(false) in events
    decreases |events|
  {
    hide Enabled, Next;
    if events != [] {
      StepGate(s, events[0]);
      if Replied(Next(s, events[0]).server.gate) {
        StaysReplied(Next(s, events[0]), events[1..], t);
      } else {
        GateIff(Next(s, events[0]), events[1..], t);
      }
      assert events == [events[0]] + events[1..];
    }
  }

  lemma {:induction false} StaysReplied(s: System, events: seq<Event>, t: System)
    requires Execute(s, events) == Some(t) && Replied(s.server.gate)
    ensures Replied(t.server.gate) && (t.server.gate == Refused <==> s.server.gate == Refused)
    ensures Invoked(true) !in events && Invoked(false) !in events
    decreases |events|
  {
    if events != [] {
      OnlyOnce(s, events[0]);
      hide Enabled, Next;
      StepGate(s, events[0]);
      StaysReplied(Next(s, events[0]), events[1..], t);
      assert events == [events[0]] + events[1..];
    }
  }

  lemma OnlyOnce(s: System, e: Event)
    requires Enabled(s, e) && Replied(s.server.gate)
    ensures !e.Invoked?
  {
  }

  // ---- what was published ----------------------------------------------------------------------

  function PublishedIn(events: seq<Event>): seq<Update>
    decreases |events|
  {
    if events == [] then []
    else (if events[0].Published? then [events[0].update] else []) + PublishedIn(events[1..])
  }

  function ListenerCalls(events: seq<Event>): nat
    decreases |events|
  {
    if events == [] then 0 else (if events[0].ListenerRuns? then 1 else 0) + ListenerCalls(events[1..])
  }

  lemma StepRecords(s: System, e: Event)
    requires Enabled(s, e)
    ensures Next(s, e).published == s.published + PublishedIn([e])
    ensures |Next(s, e).client.delivered| == |s.client.delivered| + ListenerCalls([e])
    ensures s.client.delivered <= Next(s, e).client.delivered
  {
    hide Decodable, Updates, Send, SendUpdate;
    assert [e][1..] == [];
  }

  /** The books record what the provider published and how often the listener was called. */
  lemma {:induction false} RunRecords(s: System, events: seq<Event>, t: System)
    requires Execute(s, events) == Some(t)
    ensures t.published == s.published + PublishedIn(events)
    ensures |t.client.delivered| == |s.client.delivered| + ListenerCalls(events)
    ensures s.client.delivered <= t.client.delivered
    decreases |events|
  {
    hide Enabled, Next;
    if events != [] {
      StepRecords(s, events[0]);
      RunRecords(Next(s, events[0]), events[1..], t);
      assert [events[0]][1..] == [];
    }
  }

  // ---- undisturbed subscriptions ---------------------------------------------------------------

  /** The subscription ends, one way or another. */
  predicate Ends(e: Event) {
    Thwarts(e) || Silences(e) || e.DisposeCalled?
  }

  lemma ReceiveKeepsPhase(c: Client, m: Message)
    ensures Receive(c, m).phase == c.phase && Receive(c, m).ready == c.ready
  {
    hide Decodable, Updates;
  }

  lemma StepStaysOpen(s: System, e: Event)
    requires Enabled(s, e) && !e.DisposeCalled? && s.client.phase != Disposing && s.client.phase != Disposed
    ensures Next(s, e).client.phase != Disposing && Next(s, e).client.phase != Disposed
  {
    if e.MessageArrives? {
      ReceiveKeepsPhase(s.client, s.channel.messages[0]);
    }
    hide Receive, Publish, Answered, Drain, Send;
  }

  lemma {:induction false} StaysOpen(s: System, events: seq<Event>, t: System)
    requires Inv(s) && OnItsWay(s) && Execute(s, events) == Some(t)
    requires s.client.phase != Disposing && s.client.phase != Disposed
    requires forall i :: 0 <= i < |events| ==> !Ends(events[i])
    ensures OnItsWay(t) && t.client.phase != Disposing && t.client.phase != Disposed
    decreases |events|
  {
    hide Inv, Enabled, Next, OnItsWay;
    if events != [] {
      assert !Ends(events[0]);
      Preserved(s, events[0]);
      StepStaysOnItsWay(s, events[0]);
      StepStaysOpen(s, events[0]);
      StaysOpen(Next(s, events[0]), events[1..], t);
    }
  }

  /** As long as nothing ends the subscription, everything the provider has published since the request
      came is accounted for, in order. */
  lemma UndisturbedLosesNothing(events: seq<Event>, s: System)
    requires Reaches(events, s) && forall i :: 0 <= i < |events| ==> !Ends(events[i])
    ensures Intact(s) && OnItsWay(s) && (s.client.phase == Awaiting || s.client.phase == Subscribed)
    ensures PublishedIn(events) == s.client.delivered + s.client.tail + s.client.queued
                                   + Updates(s.channel.messages) + s.server.pending
  {
    InitiallyOnItsWay();
    StaysOpen(Initial(), events, s);
    StaysServing(Initial(), events, s);
    RunRecords(Initial(), events, s);
    assert [] + PublishedIn(events) == PublishedIn(events);
    NothingIsLost(events, s);
    hide Inv, Updates, Answers;
  }

  /** Nothing can happen by itself: what remains is up to provider and subscriber. */
  predicate Quiet(s: System) {
    && !Enabled(s, SendSettles) && !Enabled(s, MessageArrives) && !Enabled(s, RequestSettles)
    && !Enabled(s, ListenerRuns) && !Enabled(s, ListenerReturns)
  }

  /** An undisturbed subscription whose provider has answered comes to be: when everything is quiet it is
      subscribed, `start` makes it ready, and once it is ready and everything is quiet the listener has
      been called with exactly what was published. */
  lemma UndisturbedIsDelivered(events: seq<Event>, s: System)
    requires Reaches(events, s) && forall i :: 0 <= i < |events| ==> !Ends(events[i])
    requires Invoked(true) in events && Quiet(s)
    ensures s.client.phase == Subscribed && Next(s, Started).client.ready
    ensures s.client.ready ==> s.client.delivered == PublishedIn(events)
    ensures !s.client.ready ==> s.client.queued == PublishedIn(events)
  {
    UndisturbedLosesNothing(events, s);
    GateIff(Initial(), events, s);
    forall i | 0 <= i < |events| ensures events[i] != Invoked(false) {
      assert !Ends(events[i]);
    }
    ReachedKeepsInv(events, s);
    hide OnItsWay, Intact, Ends;
    QuietIsSubscribed(s);
    assert Updates(s.channel.messages) == [];
    hide Inv;
  }

  lemma AnswerHasCome(server: Server, channel: Channel, awaited: bool, taken: nat)
    requires WireInv(server, channel, awaited, taken) && channel.messages == [] && !Cut(server, channel)
    requires Replied(server.gate) && server.gate != Refused
    ensures !awaited
  {
    assert Answers([]) == [];
  }

  lemma QuietIsSubscribed(s: System)
    requires Inv(s) && OnItsWay(s) && Intact(s) && (s.client.phase == Awaiting || s.client.phase == Subscribed)
    requires Replied(s.server.gate) && Quiet(s)
    ensures s.channel.messages == [] && s.server.pending == [] && s.client.tail == []
    ensures s.client.phase == Subscribed && Next(s, Started).client.ready
    ensures s.client.ready ==> s.client.queued == []
    ensures !s.client.ready ==> s.client.delivered == []
  {
    AnswerHasCome(s.server, s.channel, s.client.awaited, s.taken);
    hide WireInv, FlowInv, Answers;
  }

  lemma StepStaysReady(s: System, e: Event)
    requires Enabled(s, e) && s.client.ready
    ensures Next(s, e).client.ready
  {
    if e.MessageArrives? {
      ReceiveKeepsPhase(s.client, s.channel.messages[0]);
    }
    hide Receive, Publish, Answered, Drain, Send;
  }

  /** Once started a subscription stays started. */
  lemma {:induction false} StaysReady(s: System, events: seq<Event>, t: System)
    requires Execute(s, events) == Some(t) && s.client.ready
    ensures t.client.ready
    decreases |events|
  {
    hide Enabled, Next;
    if events != [] {
      StepStaysReady(s, events[0]);
      StaysReady(Next(s, events[0]), events[1..], t);
    }
  }

  // ---- after the end ---------------------------------------------------------------------------

  /** A listener that is not registered any more accepts nothing new. */
  lemma StepHearsNothing(s: System, e: Event)
    requires Inv(s) && Enabled(s, e) && !s.client.registered
    ensures !Next(s, e).client.registered
    ensures Accepted(Next(s, e).client) <= Accepted(s.client)
    ensures s.client.phase == Disposing || s.client.phase == Disposed ==>
              && Next(s, e).client.phase == (if e == DisposeFinishes then Disposed else s.client.phase)
              && Next(s, e).client.delivered + Next(s, e).client.tail == s.client.delivered + s.client.tail
  {
    var c := s.client;
    if e.ListenerRuns? {
      assert c.tail == [c.tail[0]] + c.tail[1..];
      assert c.delivered + [c.tail[0]] + c.tail[1..] == c.delivered + c.tail;
    } else if e.MessageArrives? {
      UnregisteredArrival(s);
    } else if e.Started? {
      StartKeepsClient(c, s.taken, s.server.gate == Refused);
    }
    hide Inv, Receive;
  }

  lemma UnregisteredArrival(s: System)
    requires Inv(s) && Enabled(s, MessageArrives) && !s.client.registered
    ensures var t := Next(s, MessageArrives).client;
            t == s.client.(awaited := t.awaited, promise := t.promise, decoder := t.decoder, connected := t.connected)
  {
    var m := s.channel.messages[0];
    ArrivalKeepsWire(s.server, s.channel, s.client.awaited, s.taken);
    if m.Answer? {
      AnswerReceived(s.client, m.snapshot);
      hide Receive;
    }
    hide WireInv, FlowInv, Updates;
  }

  lemma {:induction false} UnregisteredHearsNothing(s: System, events: seq<Event>, t: System)
    requires Inv(s) && Execute(s, events) == Some(t) && !s.client.registered
    ensures !t.client.registered && Accepted(t.client) <= Accepted(s.client)
    ensures s.client.phase == Disposing || s.client.phase == Disposed ==>
              t.client.delivered + t.client.tail == s.client.delivered + s.client.tail
    decreases |events|
  {
    hide Inv, Enabled, Next, Accepted;
    if events != [] {
      Preserved(s, events[0]);
      StepHearsNothing(s, events[0]);
      UnregisteredHearsNothing(Next(s, events[0]), events[1..], t);
    }
  }

  /** Once `dispose` has been called the listener gets only what was on its delivery chain by then. */
  lemma DisposedHearsNothingNew(before: seq<Event>, s: System, unsubscribe: bool, after: seq<Event>, t: System)
    requires Reaches(before, s) && Enabled(s, DisposeCalled(unsubscribe))
    requires Execute(Next(s, DisposeCalled(unsubscribe)), after) == Some(t)
    ensures t.client.delivered + t.client.tail == s.client.delivered + s.client.tail
  {
    ReachedKeepsInv(before, s);
    Preserved(s, DisposeCalled(unsubscribe));
    UnregisteredHearsNothing(Next(s, DisposeCalled(unsubscribe)), after, t);
    hide Inv;
  }

  /** Once the connection is gone it gets nothing that had not been accepted by then. */
  lemma DisconnectedHearsNothingNew(before: seq<Event>, s: System, after: seq<Event>, t: System)
    requires Reaches(before, s) && Execute(Next(s, ClientDisconnects), after) == Some(t)
    ensures t.client.delivered <= Accepted(t.client) <= Accepted(s.client)
  {
    ReachedKeepsInv(before, s);
    Preserved(s, ClientDisconnects);
    UnregisteredHearsNothing(Next(s, ClientDisconnects), after, t);
    hide Inv;
  }
}
