/** What follows once a subscription has been ended from either side. */
module SubscriptionEndings {
  import opened Wrappers
  import opened SubscriptionSpec
  import opened SubscriptionProof
  import opened SubscriptionHistory

  // ---- nothing goes out any more ---------------------------------------------------------------

  /** How many updates have been put on the wire. */
  function Sent(s: System): nat {
    s.taken + |Updates(s.channel.messages)|
  }

  /** The provider has come back with a snapshot. */
  predicate Granted(gate: Gate) {
    Replied(gate) && gate != Refused
  }

  /** Only a request that was granted is answered, resolved, or unsubscribed from. */
  predicate GrantedFirst(s: System) {
    && (s.unsubscribed || s.client.promise == Resolved ==> Granted(s.server.gate))
    && (s.client.phase != Awaiting && s.client.phase != Failed ==> s.client.promise == Resolved)
    && (s.client.phase != Awaiting ==> s.client.promise != Unsettled)
    && forall k {:trigger s.channel.messages[k]} :: 0 <= k < |s.channel.messages| ==>
         s.channel.messages[k].Answer? && s.channel.messages[k].snapshot.Some? ==> Granted(s.server.gate)
  }

  lemma HydrateSettles(c: Client, snapshot: nat)
    ensures Hydrate(c, snapshot).promise == Settle(c.promise, Hydrate(c, snapshot).promise)
    ensures Hydrate(c, snapshot).promise != Unsettled
  {
    hide Decodable, Updates;
  }

  lemma ReceiveResolves(c: Client, m: Message)
    ensures Receive(c, m).promise == Settle(c.promise, Receive(c, m).promise)
    ensures Receive(c, m).promise == Resolved ==> c.promise == Resolved || (m.Answer? && m.snapshot.Some?)
  {
    hide Hydrate;
    if m.Answer? && m.snapshot.Some? {
      HydrateSettles(c.(awaited := false), m.snapshot.value);
    }
  }

  lemma StepGrantsFirst(s: System, e: Event)
    requires GrantedFirst(s) && Enabled(s, e)
    ensures GrantedFirst(Next(s, e))
  {
    if e.MessageArrives? {
      ReceiveResolves(s.client, s.channel.messages[0]);
      ReceiveKeepsPhase(s.client, s.channel.messages[0]);
      assert s.channel.messages[0].Answer? && s.channel.messages[0].snapshot.Some? ==> Granted(s.server.gate);
      assert forall k :: 0 <= k < |s.channel.messages| - 1 ==> s.channel.messages[1..][k] == s.channel.messages[k + 1];
    }
    hide Receive;
  }

  lemma {:induction false} GrantsFirst(s: System, events: seq<Event>, t: System)
    requires GrantedFirst(s) && Execute(s, events) == Some(t)
    ensures GrantedFirst(t)
    decreases |events|
  {
    hide GrantedFirst, Enabled, Next;
    if events != [] {
      StepGrantsFirst(s, events[0]);
      GrantsFirst(Next(s, events[0]), events[1..], t);
    }
  }

  lemma SilencingCuts(s: System, e: Event)
    requires GrantedFirst(s) && Enabled(s, e) && Silences(e)
    ensures Cut(Next(s, e).server, Next(s, e).channel) && Sent(Next(s, e)) == Sent(s)
  {
    hide Updates;
  }

  lemma StepStaysCut(s: System, e: Event)
    requires Cut(s.server, s.channel) && Enabled(s, e)
    ensures Cut(Next(s, e).server, Next(s, e).channel) && Sent(Next(s, e)) == Sent(s)
  {
    if e.MessageArrives? {
      var m := s.channel.messages[0];
      assert Updates(s.channel.messages) == (if m.Changed? then [m.update] else []) + Updates(s.channel.messages[1..]);
    } else if e.OtherSent? {
      UpdatesAppend(s.channel.messages, Other);
    } else if e.Invoked? {
      UpdatesAppend(s.channel.messages, Answer(if e.ok then Some(0) else None));
    }
    hide Receive, Continue, Start, Disconnected, Updates;
  }

  lemma {:induction false} StaysCut(s: System, events: seq<Event>, t: System)
    requires Cut(s.server, s.channel) && Execute(s, events) == Some(t)
    ensures Cut(t.server, t.channel) && Sent(t) == Sent(s)
    decreases |events|
  {
    hide Cut, Sent, Enabled, Next;
    if events != [] {
      StepStaysCut(s, events[0]);
      StaysCut(Next(s, events[0]), events[1..], t);
    }
  }

  /** Once the client has unsubscribed, or the connection is gone, not one more update is put on the wire. */
  lemma SilencedSendsNothing(before: seq<Event>, s: System, e: Event, after: seq<Event>, t: System)
    requires Reaches(before, s) && Enabled(s, e) && Silences(e) && Execute(Next(s, e), after) == Some(t)
    ensures Cut(t.server, t.channel) && Sent(t) == Sent(s)
  {
    GrantsFirst(Initial(), before, s);
    SilencingCuts(s, e);
    StaysCut(Next(s, e), after, t);
  }

  lemma {:induction false} SilencedIsCut(s: System, events: seq<Event>, t: System, i: nat)
    requires GrantedFirst(s) && Execute(s, events) == Some(t) && i < |events| && Silences(events[i])
    ensures Cut(t.server, t.channel)
    decreases |events|
  {
    hide GrantedFirst, Cut, Sent, Enabled, Next;
    if i == 0 {
      SilencingCuts(s, events[0]);
      StaysCut(Next(s, events[0]), events[1..], t);
    } else {
      StepGrantsFirst(s, events[0]);
      SilencedIsCut(Next(s, events[0]), events[1..], t, i - 1);
    }
  }

  /** The server puts updates on the wire exactly until the client unsubscribes or the connection goes. */
  lemma CutIff(events: seq<Event>, s: System)
    requires Reaches(events, s)
    ensures Cut(s.server, s.channel) <==> exists i :: 0 <= i < |events| && Silences(events[i])
  {
    hide Cut, Silences;
    if Cut(s.server, s.channel) {
      var i := CutForAReason(events, s);
    }
    if exists i :: 0 <= i < |events| && Silences(events[i]) {
      var i :| 0 <= i < |events| && Silences(events[i]);
      SilencedIsCut(Initial(), events, s, i);
    }
  }

  predicate Gone(s: System) {
    s.server.disconnected || s.channel.broken
  }

  lemma StepSendsNothing(s: System, e: Event)
    requires Gone(s) && Enabled(s, e)
    ensures Gone(Next(s, e))
    ensures Next(s, e).channel.messages == if e.MessageArrives? then s.channel.messages[1..] else s.channel.messages
  {
    hide Receive, Continue, Start, Disconnected;
  }

  /** And when the connection is gone nothing at all is: what is on the channel is the rest of what was. */
  lemma {:induction false} GoneSendsNothing(s: System, events: seq<Event>, t: System) returns (taken: nat)
    requires Gone(s) && Execute(s, events) == Some(t)
    ensures Gone(t) && taken <= |s.channel.messages| && t.channel.messages == s.channel.messages[taken..]
    decreases |events|
  {
    hide Gone, Enabled, Next;
    taken := 0;
    if events != [] {
      StepSendsNothing(s, events[0]);
      MessagesAreThere(s, events[0]);
      taken := GoneSendsNothing(Next(s, events[0]), events[1..], t);
      if events[0].MessageArrives? {
        taken := taken + 1;
      }
    }
  }

  lemma MessagesAreThere(s: System, e: Event)
    requires Enabled(s, e)
    ensures e.MessageArrives? ==> s.channel.messages != []
  {
  }

  lemma DisconnectedSendsNothing(before: seq<Event>, s: System, e: Event, after: seq<Event>, t: System) returns (taken: nat)
    requires Reaches(before, s) && (e.ServerDisconnects? || e.ChannelBreaks?) && Execute(Next(s, e), after) == Some(t)
    ensures taken <= |s.channel.messages| && t.channel.messages == s.channel.messages[taken..]
  {
    taken := GoneSendsNothing(Next(s, e), after, t);
  }

  // ---- giving up -------------------------------------------------------------------------------

  /** The request was given up before it was answered. */
  predicate GivenUp(c: Client) {
    c.promise == Rejected && (c.phase == Awaiting || c.phase == Failed)
  }

  lemma StepStaysGivenUp(s: System, e: Event)
    requires GivenUp(s.client) && Enabled(s, e)
    ensures GivenUp(Next(s, e).client)
  {
    if e.MessageArrives? {
      ReceiveResolves(s.client, s.channel.messages[0]);
      ReceiveKeepsPhase(s.client, s.channel.messages[0]);
    }
    hide Receive, Publish, Answered, Drain, Send;
  }

  lemma {:induction false} StaysGivenUp(s: System, events: seq<Event>, t: System)
    requires GivenUp(s.client) && Execute(s, events) == Some(t)
    ensures GivenUp(t.client)
    decreases |events|
  {
    hide GivenUp, Enabled, Next;
    if events != [] {
      StepStaysGivenUp(s, events[0]);
      StaysGivenUp(Next(s, events[0]), events[1..], t);
    }
  }

  /** A subscription whose caller gives up, or whose connection goes, before it was answered never comes to be,
      whatever answer comes later; and as soon as it goes on it has failed and is not registered. */
  lemma GivenUpNeverSubscribes(before: seq<Event>, s: System, e: Event, after: seq<Event>, t: System)
    requires Reaches(before, s) && s.client.promise == Unsettled && (e.Aborted? || e.ClientDisconnects?)
    requires Execute(Next(s, e), after) == Some(t)
    ensures t.client.promise == Rejected && (t.client.phase == Awaiting || t.client.phase == Failed)
    ensures Enabled(t, RequestSettles) ==>
              Next(t, RequestSettles).client.phase == Failed && !Next(t, RequestSettles).client.registered
  {
    GrantsFirst(Initial(), before, s);
    StaysGivenUp(Next(s, e), after, t);
  }

  // ---- unsubscribing ---------------------------------------------------------------------------

  lemma StepAsks(s: System, e: Event)
    requires Enabled(s, e)
    ensures Next(s, e).unsubscribed <==> s.unsubscribed || (e == DisposeCalled(true) && s.client.connected)
  {
    hide Receive, Publish, Answered, Drain, Send, Continue, Start, Disconnected;
  }

  lemma {:induction false} StaysAsked(s: System, events: seq<Event>, t: System)
    requires Execute(s, events) == Some(t)
    ensures s.unsubscribed ==> t.unsubscribed
    ensures t.unsubscribed && !s.unsubscribed ==> DisposeCalled(true) in events
    decreases |events|
  {
    hide Enabled, Next;
    if events != [] {
      StepAsks(s, events[0]);
      StaysAsked(Next(s, events[0]), events[1..], t);
      assert events == [events[0]] + events[1..];
    }
  }

  /** Disposing of a subscription tells the server, if the connection is there and the caller wants it: from
      then on, and only then, the unsubscribe can arrive. */
  lemma DisposeTellsTheServer(before: seq<Event>, s: System, unsubscribe: bool, after: seq<Event>, t: System)
    requires Reaches(before, s) && Enabled(s, DisposeCalled(unsubscribe))
    requires Execute(Next(s, DisposeCalled(unsubscribe)), after) == Some(t)
    ensures unsubscribe && s.client.connected ==> Enabled(t, UnsubscribeArrives)
    ensures Enabled(s, UnsubscribeArrives) ==> DisposeCalled(true) in before
  {
    StepAsks(s, DisposeCalled(unsubscribe));
    StaysAsked(Next(s, DisposeCalled(unsubscribe)), after, t);
    StaysAsked(Initial(), before, s);
  }
}
