/** Over every run: what a listener gets is a prefix of what was published, nothing is lost while the
    subscription is intact, and the decoder never sees a message out of step. */
module SubscriptionProof {
  import opened Wrappers
  import opened SubscriptionSpec

  // ---- the invariant ---------------------------------------------------------------------------

  /** The channel holds, in this order, the answer if it is still awaited and then consecutive steps. */
  predicate Expected(messages: seq<Message>, awaited: bool, step: nat)
    decreases |messages|
  {
    messages == []
    || match messages[0]
       case Other => Expected(messages[1..], awaited, step)
       case Answer(snapshot) => awaited && OptionIs(snapshot, 0) && Expected(messages[1..], false, step)
       case Changed(k, _) => !awaited && k == step && Expected(messages[1..], false, step + 1)
  }

  predicate OptionIs(o: Option<nat>, n: nat) {
    o.Some? ==> o.value == n
  }

  /** The answers on the channel, if the client still awaits one. */
  function Answers(messages: seq<Message>): seq<Option<nat>>
    decreases |messages|
  {
    if messages == [] then []
    else (if messages[0].Answer? then [messages[0].snapshot] else []) + Answers(messages[1..])
  }

  /** What the channel holds agrees with how far the server is. */
  predicate WireInv(server: Server, channel: Channel, awaited: bool, taken: nat) {
    && Expected(channel.messages, awaited, taken + 1)
    && (awaited ==> taken == 0)
    && (match server.gate
        case Idle => awaited && Answers(channel.messages) == [] && Updates(channel.messages) == []
        case Invoking => awaited && Answers(channel.messages) == [] && Updates(channel.messages) == []
        case Refused =>
          && taken == 0 && Updates(channel.messages) == []
          && (awaited ==> Answers(channel.messages) == [None] || Cut(server, channel))
        case _ => awaited ==> Answers(channel.messages) == [Some(0)] || Cut(server, channel))
    && (server.gate != Refused ==> None !in Answers(channel.messages))
    && (server.gate == Refused ==> Some(0) !in Answers(channel.messages))
    && (server.encoder.Some? && !channel.broken && !server.disconnected ==>
          server.encoder.value == taken + 1 + |Updates(channel.messages)|)
  }

  predicate ServerInv(server: Server) {
    && (server.gate == Idle || server.gate == Invoking || server.gate == Refused ==> server.encoder.None?)
    && (server.gate == Passing ==> server.pending == [])
  }

  predicate FlowInv(accepted: seq<Update>, wire: seq<Update>, pending: seq<Update>, published: seq<Update>, cut: bool) {
    if cut then accepted + wire <= published else accepted + wire + pending == published
  }

  predicate ClientInv(c: Client, taken: nat, refused: bool) {
    && !c.broke && c.queuedWire == []
    && (c.decoder.None? ==> Accepted(c) == [] && c.phase != Subscribed)
    && (!c.ready ==> c.delivered == [] && c.tail == [] && !c.running)
    && (c.ready ==> c.queued == [] && c.decoder.Some?)
    && (c.connected && c.registered && c.decoder.Some? ==> c.decoder.value == taken + 1)
    && (c.awaited ==> c.decoder.None?)
    && (c.connected && !c.awaited && c.decoder.None? ==> refused && c.promise == Rejected)
    && (c.promise == Resolved ==> c.decoder.Some?)
    && (c.registered ==> c.connected)
    && (c.phase == Disposing || c.phase == Disposed || c.phase == Failed ==> !c.registered)
  }

  predicate Inv(s: System) {
    && ServerInv(s.server)
    && ClientInv(s.client, s.taken, s.server.gate == Refused)
    && Accepted(s.client) <= s.published
    && (s.client.connected ==> WireInv(s.server, s.channel, s.client.awaited, s.taken))
    && (s.client.connected && s.client.registered ==>
          FlowInv(Accepted(s.client), Updates(s.channel.messages), s.server.pending, s.published,
                  Cut(s.server, s.channel)))
  }

  // ---- the channel -----------------------------------------------------------------------------

  lemma {:induction false} UpdatesAppend(messages: seq<Message>, m: Message)
    ensures Updates(messages + [m]) == Updates(messages) + if m.Changed? then [m.update] else []
    ensures Answers(messages + [m]) == Answers(messages) + if m.Answer? then [m.snapshot] else []
    decreases |messages|
  {
    if messages != [] {
      UpdatesAppend(messages[1..], m);
      assert (messages + [m])[1..] == messages[1..] + [m];
    }
  }

  lemma {:induction false} ExpectedAppend(messages: seq<Message>, awaited: bool, step: nat, m: Message)
    requires Expected(messages, awaited, step)
    requires m.Answer? ==> awaited && Answers(messages) == [] && OptionIs(m.snapshot, 0)
    requires m.Changed? ==> (!awaited || Answers(messages) != []) && m.step == step + |Updates(messages)|
    ensures Expected(messages + [m], awaited, step)
    decreases |messages|
  {
    if messages != [] {
      var rest := messages[1..];
      assert (messages + [m])[1..] == rest + [m];
      match messages[0]
      case Other => ExpectedAppend(rest, awaited, step, m);
      case Answer(_) => ExpectedAppend(rest, false, step, m);
      case Changed(_, _) => ExpectedAppend(rest, false, step + 1, m);
    }
  }

  // ---- every event keeps the invariant ---------------------------------------------------------

  lemma InitialInv()
    ensures Inv(Initial())
  {
  }

  /** Sending the next update keeps the wire in step and only moves the update along. */
  lemma SendKeepsWire(server: Server, channel: Channel, awaited: bool, taken: nat, u: Update)
    requires WireInv(server, channel, awaited, taken) && (server.gate == Draining || server.gate == Passing)
    ensures var (server', channel') := SendUpdate(server, channel, u);
            && WireInv(server', channel', awaited, taken)
            && server' == server.(encoder := server'.encoder) && Cut(server', channel') == Cut(server, channel)
            && Updates(channel'.messages) == Updates(channel.messages) + if Cut(server, channel) then [] else [u]
  {
    if server.encoder.Some? {
      UpdatesAppend(channel.messages, Changed(server.encoder.value, u));
      if !Cut(server, channel) {
        ExpectedAppend(channel.messages, awaited, taken + 1, Changed(server.encoder.value, u));
      }
    }
  }

  lemma MovedAlong(accepted: seq<Update>, wire: seq<Update>, u: Update, pending: seq<Update>, published: seq<Update>)
    requires FlowInv(accepted, wire, [u] + pending, published, false)
    ensures FlowInv(accepted, wire + [u], pending, published, false)
  {
    assert accepted + (wire + [u]) + pending == accepted + wire + ([u] + pending);
  }

  lemma PublishedGrows(accepted: seq<Update>, wire: seq<Update>, pending: seq<Update>, published: seq<Update>,
                       cut: bool, u: Update)
    requires FlowInv(accepted, wire, pending, published, cut)
    ensures FlowInv(accepted, wire, pending + [u], published + [u], cut)
  {
    assert accepted + wire + (pending + [u]) == accepted + wire + pending + [u];
  }

  lemma PendingIsNoMatter(server: Server, channel: Channel, awaited: bool, taken: nat, pending: seq<Update>)
    ensures WireInv(server.(pending := pending), channel, awaited, taken) <==> WireInv(server, channel, awaited, taken)
    ensures Cut(server.(pending := pending), channel) == Cut(server, channel)
  {
    hide Expected, Answers, Updates;
  }

  lemma HeldBackKeepsInv(s: System, u: Update)
    requires Inv(s) && Enabled(s, Published(u)) && s.server.gate != Passing
    ensures Inv(Next(s, Published(u)))
  {
    PendingIsNoMatter(s.server, s.channel, s.client.awaited, s.taken, s.server.pending + [u]);
    hide WireInv, ClientInv, FlowInv, Accepted, Updates, Cut;
    if s.client.connected && s.client.registered {
      PublishedGrows(Accepted(s.client), Updates(s.channel.messages), s.server.pending, s.published, Cut(s.server, s.channel), u);
    }
  }

  lemma PassedOnKeepsInv(s: System, u: Update)
    requires Inv(s) && Enabled(s, Published(u)) && s.server.gate == Passing
    ensures Inv(Next(s, Published(u)))
  {
    SendingKeepsServer(s.server, s.channel, u);
    hide WireInv, ClientInv, FlowInv, Accepted, Updates, Cut, SendUpdate;
    if s.client.connected {
      SendKeepsWire(s.server, s.channel, s.client.awaited, s.taken, u);
      if s.client.registered {
        var cut := Cut(s.server, s.channel);
        PublishedGrows(Accepted(s.client), Updates(s.channel.messages), [], s.published, cut, u);
        assert [] + [u] == [u] && [u][1..] == [];
        DrainKeepsFlow(Accepted(s.client), Updates(s.channel.messages), [u], s.published + [u], cut);
      }
    }
  }

  lemma PublishKeepsInv(s: System, u: Update)
    requires Inv(s) && Enabled(s, Published(u))
    ensures Inv(Next(s, Published(u)))
  {
    hide Inv, Next;
    if s.server.gate == Passing {
      PassedOnKeepsInv(s, u);
    } else {
      HeldBackKeepsInv(s, u);
    }
  }

  lemma AnswerKeepsInv(s: System, ok: bool)
    requires Inv(s) && Enabled(s, Invoked(ok))
    ensures Inv(Next(s, Invoked(ok)))
  {
    var m := Answer(if ok then Some(0) else None);
    UpdatesAppend(s.channel.messages, m);
    if s.client.connected {
      ExpectedAppend(s.channel.messages, s.client.awaited, s.taken + 1, m);
    }
  }

  lemma GateMoves(server: Server, channel: Channel, awaited: bool, taken: nat, gate: Gate, pending: seq<Update>)
    requires WireInv(server, channel, awaited, taken) && (server.gate == Responding || server.gate == Draining)
    requires gate == Draining || gate == Passing
    ensures WireInv(server.(gate := gate, pending := pending), channel, awaited, taken)
    ensures Cut(server.(gate := gate, pending := pending), channel) == Cut(server, channel)
  {
    hide Expected, Answers, Updates;
  }

  lemma DrainKeepsFlow(accepted: seq<Update>, wire: seq<Update>, pending: seq<Update>, published: seq<Update>, cut: bool)
    requires FlowInv(accepted, wire, pending, published, cut) && pending != []
    ensures FlowInv(accepted, wire + if cut then [] else [pending[0]], pending[1..], published, cut)
  {
    if cut {
      assert wire + [] == wire;
    } else {
      assert [pending[0]] + pending[1..] == pending;
      MovedAlong(accepted, wire, pending[0], pending[1..], published);
    }
  }

  lemma CutIgnoresPending(server: Server, channel: Channel)
    requires server.gate == Responding || server.gate == Draining
    ensures Cut(server.(gate := Passing), channel) == Cut(server, channel)
  {
  }

  lemma GateOpensKeepsInv(s: System)
    requires Inv(s) && Enabled(s, SendSettles) && s.server.pending == []
    ensures Inv(Next(s, SendSettles))
  {
    CutIgnoresPending(s.server, s.channel);
    hide WireInv, ClientInv, FlowInv, Accepted, Updates, Cut;
    if s.client.connected {
      GateMoves(s.server, s.channel, s.client.awaited, s.taken, Passing, []);
    }
  }

  lemma DrainKeepsInv(s: System)
    requires Inv(s) && Enabled(s, SendSettles)
    ensures Inv(Next(s, SendSettles))
  {
    if s.server.pending == [] {
      GateOpensKeepsInv(s);
    } else {
      var u, rest := s.server.pending[0], s.server.pending[1..];
      var server := s.server.(gate := Draining, pending := rest);
      SendingKeepsServer(server, s.channel, u);
      hide WireInv, ClientInv, FlowInv, Accepted, Updates, Cut, SendUpdate;
      if s.client.connected {
        GateMoves(s.server, s.channel, s.client.awaited, s.taken, Draining, rest);
        SendKeepsWire(server, s.channel, s.client.awaited, s.taken, u);
        if s.client.registered {
          DrainKeepsFlow(Accepted(s.client), Updates(s.channel.messages), s.server.pending, s.published, Cut(s.server, s.channel));
        }
      }
    }
  }

  lemma SendingKeepsServer(server: Server, channel: Channel, u: Update)
    ensures SendUpdate(server, channel, u).0 == server.(encoder := SendUpdate(server, channel, u).0.encoder)
  {
  }

  lemma OtherKeepsWire(server: Server, channel: Channel, awaited: bool, taken: nat)
    requires WireInv(server, channel, awaited, taken)
    ensures var channel' := Send(channel, server.disconnected, Other);
            && WireInv(server, channel', awaited, taken) && Updates(channel'.messages) == Updates(channel.messages)
            && channel'.broken == channel.broken
  {
    UpdatesAppend(channel.messages, Other);
    ExpectedAppend(channel.messages, awaited, taken + 1, Other);
  }

  lemma OtherKeepsInv(s: System)
    requires Inv(s)
    ensures Inv(Next(s, OtherSent))
  {
    SameCut(s.server, s.channel, Send(s.channel, s.server.disconnected, Other));
    hide WireInv, ServerInv, ClientInv, FlowInv, Accepted, Updates, Cut;
    if s.client.connected {
      OtherKeepsWire(s.server, s.channel, s.client.awaited, s.taken);
    }
  }

  lemma ArrivalKeepsWire(server: Server, channel: Channel, awaited: bool, taken: nat)
    requires WireInv(server, channel, awaited, taken) && channel.messages != []
    ensures var m := channel.messages[0];
            var channel' := channel.(messages := channel.messages[1..]);
            && WireInv(server, channel', awaited && !m.Answer?, if m.Changed? then taken + 1 else taken)
            && Updates(channel.messages) == (if m.Changed? then [m.update] else []) + Updates(channel'.messages)
            && (m.Answer? ==> awaited && OptionIs(m.snapshot, 0) && (m.snapshot.None? <==> server.gate == Refused))
            && (m.Changed? ==> !awaited && m.step == taken + 1 && server.gate != Refused)
  {
    var m := channel.messages[0];
    assert Answers(channel.messages)
        == (if m.Answer? then [m.snapshot] else []) + Answers(channel.messages[1..]);
    if m.Answer? {
      assert Answers(channel.messages)[0] == m.snapshot;
    }
  }

  /** What the awaited answer does to the client: no update has come before it, as the channel is in order. */
  lemma AnswerReceived(c: Client, snapshot: Option<nat>)
    requires c.awaited && c.queuedWire == [] && OptionIs(snapshot, 0)
    ensures Receive(c, Answer(snapshot))
         == if snapshot.None? then c.(awaited := false, promise := Settle(c.promise, Rejected))
            else c.(awaited := false, decoder := Some(1), promise := Settle(c.promise, Resolved))
  {
    if snapshot.Some? {
      assert Updates([]) == [] && c.queued + [] == c.queued;
    }
  }

  lemma AnswerKeepsClient(c: Client, snapshot: Option<nat>, refused: bool)
    requires ClientInv(c, 0, refused) && c.awaited && OptionIs(snapshot, 0) && (snapshot.None? <==> refused)
    ensures ClientInv(Receive(c, Answer(snapshot)), 0, refused)
    ensures Accepted(Receive(c, Answer(snapshot))) == Accepted(c) && !Receive(c, Answer(snapshot)).awaited
    ensures Receive(c, Answer(snapshot)).connected == c.connected && Receive(c, Answer(snapshot)).registered == c.registered
  {
    AnswerReceived(c, snapshot);
    hide Receive;
  }

  lemma AnswerArrivalKeepsInv(s: System)
    requires Inv(s) && Enabled(s, MessageArrives) && s.channel.messages[0].Answer?
    ensures Inv(Next(s, MessageArrives))
  {
    ArrivalKeepsWire(s.server, s.channel, s.client.awaited, s.taken);
    AwaitedTakesNothing(s.server, s.channel, s.taken);
    hide WireInv, ServerInv, ClientInv, FlowInv, Accepted, Receive, Cut, Updates;
    AnswerKeepsClient(s.client, s.channel.messages[0].snapshot, s.server.gate == Refused);
    SameCut(s.server, s.channel, s.channel.(messages := s.channel.messages[1..]));
    assert [] + Updates(s.channel.messages[1..]) == Updates(s.channel.messages[1..]);
  }

  lemma AwaitedTakesNothing(server: Server, channel: Channel, taken: nat)
    requires WireInv(server, channel, true, taken)
    ensures taken == 0
  {
    hide Expected, Answers, Updates, Cut;
  }

  lemma SameCut(server: Server, channel: Channel, channel': Channel)
    requires channel'.broken == channel.broken
    ensures Cut(server, channel') == Cut(server, channel)
  {
  }

  lemma OtherArrivalKeepsInv(s: System)
    requires Inv(s) && Enabled(s, MessageArrives) && s.channel.messages[0].Other?
    ensures Inv(Next(s, MessageArrives))
  {
    ArrivalKeepsWire(s.server, s.channel, s.client.awaited, s.taken);
    hide WireInv, Expected, ServerInv, ClientInv;
  }

  lemma TakenAlong(accepted: seq<Update>, u: Update, wire: seq<Update>, pending: seq<Update>, published: seq<Update>,
                   cut: bool)
    requires FlowInv(accepted, [u] + wire, pending, published, cut)
    ensures FlowInv(accepted + [u], wire, pending, published, cut) && accepted + [u] <= published
  {
    assert accepted + ([u] + wire) == accepted + [u] + wire;
  }

  lemma AcceptedGrows(c: Client, m: Message)
    requires m.Changed? && c.registered && c.decoder == Some(m.step) && (c.ready ==> c.queued == [])
    ensures Accepted(Receive(c, m)) == Accepted(c) + [m.update]
  {
  }

  lemma ChangeArrivalKeepsInv(s: System)
    requires Inv(s) && Enabled(s, MessageArrives) && s.channel.messages[0].Changed?
    ensures Inv(Next(s, MessageArrives))
  {
    var m := s.channel.messages[0];
    ArrivalKeepsWire(s.server, s.channel, s.client.awaited, s.taken);
    if s.client.registered {
      AcceptedGrows(s.client, m);
      TakenAlong(Accepted(s.client), m.update, Updates(s.channel.messages[1..]), s.server.pending, s.published,
                 Cut(s.server, s.channel));
    }
    hide WireInv, Expected, ServerInv, Accepted, Cut, FlowInv, Updates;
  }

  lemma LifecycleKeepsInv(s: System, e: Event)
    requires Inv(s) && Enabled(s, e)
    requires e.RequestArrives? || e.UnsubscribeArrives? || e.ServerDisconnects? || e.ChannelBreaks?
    ensures Inv(Next(s, e))
  {
  }

  lemma SettlingKeepsInv(s: System, e: Event)
    requires Inv(s) && Enabled(s, e)
    requires e.Aborted? || e.RequestSettles? || e.ClientDisconnects? || e.ListenerReturns?
    ensures Inv(Next(s, e))
  {
    hide WireInv, ServerInv, Cut, Updates;
  }

  lemma StartKeepsClient(c: Client, taken: nat, refused: bool)
    requires ClientInv(c, taken, refused)
    ensures ClientInv(Start(c), taken, refused) && Accepted(Start(c)) == Accepted(c)
    ensures Start(c).connected == c.connected && Start(c).registered == c.registered && Start(c).awaited == c.awaited
  {
    assert c.delivered + (c.tail + c.queued) + [] == c.delivered + c.tail + c.queued;
  }

  lemma RunKeepsClient(c: Client, taken: nat, refused: bool)
    requires ClientInv(c, taken, refused) && c.tail != []
    ensures var t := c.(delivered := c.delivered + [c.tail[0]], tail := c.tail[1..], running := true);
            ClientInv(t, taken, refused) && Accepted(t) == Accepted(c)
  {
    assert c.tail == [c.tail[0]] + c.tail[1..];
    assert c.delivered + [c.tail[0]] + c.tail[1..] == c.delivered + c.tail;
  }

  lemma ListenerKeepsInv(s: System, e: Event)
    requires Inv(s) && Enabled(s, e)
    requires e.Started? || e.ListenerRuns?
    ensures Inv(Next(s, e))
  {
    hide WireInv, ServerInv, ClientInv, FlowInv, Accepted, Cut, Updates, Start;
    if e.Started? {
      StartKeepsClient(s.client, s.taken, s.server.gate == Refused);
    } else {
      RunKeepsClient(s.client, s.taken, s.server.gate == Refused);
    }
  }

  lemma DisposingKeepsInv(s: System, e: Event)
    requires Inv(s) && Enabled(s, e)
    requires e.DisposeCalled? || e.DisposeFinishes?
    ensures Inv(Next(s, e))
  {
    hide WireInv, ServerInv, Cut, Updates;
    assert Accepted(Next(s, e).client) <= Accepted(s.client);
  }

  lemma Preserved(s: System, e: Event)
    requires Inv(s) && Enabled(s, e)
    ensures Inv(Next(s, e))
  {
    hide Inv, Enabled, Next;
    match e {
      case Published(u) => PublishKeepsInv(s, u);
      case Invoked(ok) => AnswerKeepsInv(s, ok);
      case SendSettles => DrainKeepsInv(s);
      case OtherSent => OtherKeepsInv(s);
      case MessageArrives => ArrivalKeepsInv(s);
      case RequestArrives => LifecycleKeepsInv(s, e);
      case UnsubscribeArrives => LifecycleKeepsInv(s, e);
      case ServerDisconnects => LifecycleKeepsInv(s, e);
      case ChannelBreaks => LifecycleKeepsInv(s, e);
      case Aborted => SettlingKeepsInv(s, e);
      case RequestSettles => SettlingKeepsInv(s, e);
      case ClientDisconnects => SettlingKeepsInv(s, e);
      case ListenerReturns => SettlingKeepsInv(s, e);
      case Started => ListenerKeepsInv(s, e);
      case ListenerRuns => ListenerKeepsInv(s, e);
      case DisposeCalled(_) => DisposingKeepsInv(s, e);
      case DisposeFinishes => DisposingKeepsInv(s, e);
    }
  }

  lemma ArrivalKeepsInv(s: System)
    requires Inv(s) && Enabled(s, MessageArrives)
    ensures Inv(Next(s, MessageArrives))
  {
    hide Inv, Next;
    match s.channel.messages[0] {
      case Answer(_) => AnswerArrivalKeepsInv(s);
      case Changed(_, _) => ChangeArrivalKeepsInv(s);
      case Other => OtherArrivalKeepsInv(s);
    }
  }

  lemma {:induction false} ExecutionKeepsInv(s: System, events: seq<Event>, t: System)
    requires Inv(s) && Execute(s, events) == Some(t)
    ensures Inv(t)
    decreases |events|
  {
    hide Inv, Next, Enabled;
    if events != [] {
      Preserved(s, events[0]);
      ExecutionKeepsInv(Next(s, events[0]), events[1..], t);
    }
  }

  lemma ReachedKeepsInv(events: seq<Event>, s: System)
    requires Reaches(events, s)
    ensures Inv(s)
  {
    InitialInv();
    hide Inv;
    ExecutionKeepsInv(Initial(), events, s);
  }
}
