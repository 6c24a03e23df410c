/** Updates that reach a subscription through the callback of another request: they do not wait at the
    gate of the subscribe request. */
module SubscriptionElsewhere {
  import opened Wrappers
  import opened Sequences
  import opened SubscriptionSpec
  import opened SubscriptionProof

  /** `publish` of any other request: the update goes straight to `sendServiceUpdate`. */
  function PublishElsewhere(s: System, u: Update): System {
    At(s, SendUpdate(s.server, s.channel, u)).(published := s.published + [u])
  }

  /** What a subscriber is promised: what has got to it is a prefix of what was published, and while the
      subscription is intact the rest is on the channel or held back, in order. */
  predicate Promised(s: System) {
    && Accepted(s.client) <= s.published
    && (Intact(s) ==> s.published == Accepted(s.client) + Updates(s.channel.messages) + s.server.pending)
  }

  predicate HasAnswered(s: System) {
    s.server.gate == Responding || s.server.gate == Draining || s.server.gate == Passing
  }

  /** While the subscription is intact it has been answered, and no other update is held back at its gate. */
  predicate InTurn(s: System, u: Update) {
    Intact(s) ==> HasAnswered(s) && AllAre(s.server.pending, u)
  }

  /** The wire stays in step, and the update is on it unless the subscription is cut or not answered yet. */
  lemma ElsewhereKeepsWire(s: System, u: Update)
    requires Inv(s) && s.client.connected
    ensures var t := PublishElsewhere(s, u);
            && WireInv(t.server, t.channel, t.client.awaited, t.taken) && Cut(t.server, t.channel) == Cut(s.server, s.channel)
            && Updates(t.channel.messages)
               == Updates(s.channel.messages) + if HasAnswered(s) && !Cut(s.server, s.channel) then [u] else []
  {
    if s.server.encoder.Some? {
      UpdatesAppend(s.channel.messages, Changed(s.server.encoder.value, u));
      if !Cut(s.server, s.channel) {
        ExpectedAppend(s.channel.messages, s.client.awaited, s.taken + 1, Changed(s.server.encoder.value, u));
      }
    }
  }

  /** The rest of the server and the client's intactness stay as they were. */
  lemma ElsewhereFrame(s: System, u: Update)
    ensures var t := PublishElsewhere(s, u);
            && t.server == s.server.(encoder := t.server.encoder) && (t.server.encoder.Some? <==> s.server.encoder.Some?)
            && t.client == s.client && t.published == s.published + [u] && t.taken == s.taken
            && t.channel.broken == s.channel.broken && (Intact(t) <==> Intact(s))
  {
  }

  lemma IntactFlows(s: System)
    requires Inv(s) && Intact(s)
    ensures s.published == Accepted(s.client) + Updates(s.channel.messages) + s.server.pending && s.client.connected
  {
    hide WireInv, ClientInv, Accepted, Updates;
  }

  lemma FlowIff(accepted: seq<Update>, wire: seq<Update>, pending: seq<Update>, published: seq<Update>, u: Update, sent: bool)
    requires published == accepted + wire + pending
    ensures published + [u] == accepted + (wire + if sent then [u] else []) + pending <==> sent && AllAre(pending, u)
  {
    if sent {
      OvertakesUnlessSame(accepted + wire, pending, u);
      assert accepted + (wire + [u]) + pending == accepted + wire + [u] + pending;
    } else {
      assert |accepted + (wire + []) + pending| == |published|;
    }
  }

  lemma IntactPromiseIff(s: System, u: Update)
    requires Inv(s) && Intact(s)
    ensures Promised(PublishElsewhere(s, u)) <==> HasAnswered(s) && AllAre(s.server.pending, u)
  {
    IntactFlows(s);
    ElsewhereFrame(s, u);
    IntactIsUncut(s);
    ElsewhereKeepsAccepted(s, u);
    hide Inv, Intact, Cut, WireInv, Accepted, Updates, AllAre, PublishElsewhere, HasAnswered;
    ElsewhereKeepsWire(s, u);
    FlowIff(Accepted(s.client), Updates(s.channel.messages), s.server.pending, s.published, u, HasAnswered(s));
  }

  lemma IntactIsUncut(s: System)
    requires Intact(s)
    ensures !Cut(s.server, s.channel)
  {
  }

  lemma ElsewhereKeepsAccepted(s: System, u: Update)
    requires Inv(s)
    ensures Accepted(PublishElsewhere(s, u).client) <= PublishElsewhere(s, u).published
  {
    ElsewhereFrame(s, u);
    hide WireInv, ClientInv, FlowInv, Accepted, PublishElsewhere;
  }

  /** An update of another request keeps the promise exactly if it comes in turn: unless the subscription is
      lost anyway, it has been answered and nothing else is held back. */
  lemma ElsewhereKeepsPromiseIff(s: System, u: Update)
    requires Inv(s)
    ensures Promised(PublishElsewhere(s, u)) <==> InTurn(s, u)
  {
    if Intact(s) {
      IntactPromiseIff(s, u);
    } else {
      ElsewhereFrame(s, u);
      ElsewhereKeepsAccepted(s, u);
    }
    hide Inv, Intact, HasAnswered, Accepted, Updates, PublishElsewhere;
  }

  lemma ElsewhereKeepsFlow(s: System, u: Update)
    requires Inv(s) && s.client.connected && s.client.registered && Promised(PublishElsewhere(s, u))
    ensures var t := PublishElsewhere(s, u);
            FlowInv(Accepted(t.client), Updates(t.channel.messages), t.server.pending, t.published, Cut(t.server, t.channel))
  {
    ElsewhereFrame(s, u);
    ElsewhereKeepsWire(s, u);
    hide WireInv, ClientInv, Accepted, Updates, PublishElsewhere;
  }

  /** And then it keeps all the books. */
  lemma ElsewhereKeepsInv(s: System, u: Update)
    requires Inv(s) && InTurn(s, u)
    ensures Inv(PublishElsewhere(s, u))
  {
    ElsewhereFrame(s, u);
    ElsewhereKeepsPromiseIff(s, u);
    ElsewhereKeepsAccepted(s, u);
    if s.client.connected {
      ElsewhereKeepsWire(s, u);
      if s.client.registered {
        ElsewhereKeepsFlow(s, u);
      }
    }
    hide InTurn, Promised, WireInv, FlowInv, ClientInv, Accepted, Updates, Cut, PublishElsewhere;
  }

  // ---- runs ------------------------------------------------------------------------------------

  datatype Happening = Usual(event: Event) | Elsewhere(update: Update)

  function Run(s: System, happenings: seq<Happening>): Option<System>
    decreases |happenings|
  {
    if happenings == [] then Some(s)
    else
      match happenings[0]
      case Usual(e) => if Enabled(s, e) then Run(Next(s, e), happenings[1..]) else None
      case Elsewhere(u) => Run(PublishElsewhere(s, u), happenings[1..])
  }

  /** Every update of another request comes in turn. */
  predicate AllInTurn(s: System, happenings: seq<Happening>)
    decreases |happenings|
  {
    happenings == []
    || match happenings[0]
       case Usual(e) => Enabled(s, e) ==> AllInTurn(Next(s, e), happenings[1..])
       case Elsewhere(u) => InTurn(s, u) && AllInTurn(PublishElsewhere(s, u), happenings[1..])
  }

  lemma {:induction false} RunKeepsInv(s: System, happenings: seq<Happening>, t: System)
    requires Inv(s) && Run(s, happenings) == Some(t) && AllInTurn(s, happenings)
    ensures Inv(t)
    decreases |happenings|
  {
    hide Inv, Next, Enabled, InTurn, PublishElsewhere;
    if happenings != [] {
      match happenings[0] {
        case Usual(e) =>
          Preserved(s, e);
          RunKeepsInv(Next(s, e), happenings[1..], t);
        case Elsewhere(u) =>
          ElsewhereKeepsInv(s, u);
          RunKeepsInv(PublishElsewhere(s, u), happenings[1..], t);
      }
    }
  }

  /** The promise holds in every state of the run. */
  predicate AlwaysPromised(s: System, happenings: seq<Happening>)
    decreases |happenings|
  {
    && Promised(s)
    && (happenings == []
        || match happenings[0]
           case Usual(e) => Enabled(s, e) ==> AlwaysPromised(Next(s, e), happenings[1..])
           case Elsewhere(u) => AlwaysPromised(PublishElsewhere(s, u), happenings[1..]))
  }

  lemma InvPromises(s: System)
    requires Inv(s)
    ensures Promised(s)
  {
    if Intact(s) {
      IntactFlows(s);
    }
    hide WireInv, ClientInv, FlowInv, Accepted, Updates;
  }

  /** A run keeps the promise throughout exactly if every update of another request comes in turn. */
  lemma {:induction false} AlwaysPromisedIff(s: System, happenings: seq<Happening>)
    requires Inv(s)
    ensures AlwaysPromised(s, happenings) <==> AllInTurn(s, happenings)
    decreases |happenings|
  {
    InvPromises(s);
    hide Inv, Promised, Next, Enabled, InTurn, PublishElsewhere;
    if happenings != [] {
      match happenings[0] {
        case Usual(e) =>
          if Enabled(s, e) {
            Preserved(s, e);
            AlwaysPromisedIff(Next(s, e), happenings[1..]);
          }
        case Elsewhere(u) =>
          ElsewhereKeepsPromiseIff(s, u);
          if InTurn(s, u) {
            ElsewhereKeepsInv(s, u);
            AlwaysPromisedIff(PublishElsewhere(s, u), happenings[1..]);
          } else {
            BrokenPromise(PublishElsewhere(s, u), happenings[1..]);
          }
      }
    }
  }

  lemma BrokenPromise(s: System, happenings: seq<Happening>)
    requires !Promised(s)
    ensures !AlwaysPromised(s, happenings)
  {
    hide Promised;
  }

  /** In a run whose updates through other requests all come in turn, the listener still gets a prefix of
      everything published, nothing is lost while the subscription is intact, and nothing is undecodable. */
  lemma DeliveredInTurn(happenings: seq<Happening>, s: System)
    requires Run(Initial(), happenings) == Some(s) && AllInTurn(Initial(), happenings)
    ensures s.client.delivered <= s.client.delivered + s.client.tail + s.client.queued <= s.published && !s.client.broke
    ensures Intact(s) ==> s.published == s.client.delivered + s.client.tail + s.client.queued
                                         + Updates(s.channel.messages) + s.server.pending
    ensures AlwaysPromised(Initial(), happenings)
  {
    InitialInv();
    RunKeepsInv(Initial(), happenings, s);
    AlwaysPromisedIff(Initial(), happenings);
  }

  /** The server has sent both updates, the later one first. */
  function Overtaken(early: Update, late: Update): System {
    Initial().(server := Server(Draining, [], Some(3), false),
               channel := Channel([Answer(Some(0)), Changed(1, late), Changed(2, early)], false),
               published := [early, late])
  }

  lemma ServerHalf(early: Update, late: Update, rest: seq<Happening>)
    ensures Run(Initial(), [Usual(RequestArrives), Usual(Published(early)), Usual(Invoked(true)), Elsewhere(late), Usual(SendSettles)] + rest)
         == Run(Overtaken(early, late), rest)
  {
    var h4 := [Usual(SendSettles)] + rest;
    var h3 := [Elsewhere(late)] + h4;
    var h2 := [Usual(Invoked(true))] + h3;
    var h1 := [Usual(Published(early))] + h2;
    var h0 := [Usual(RequestArrives)] + h1;
    assert h0 == [Usual(RequestArrives), Usual(Published(early)), Usual(Invoked(true)), Elsewhere(late), Usual(SendSettles)] + rest;
    assert h0[1..] == h1 && h1[1..] == h2 && h2[1..] == h3 && h3[1..] == h4 && h4[1..] == rest;
    var s1 := Next(Initial(), RequestArrives);
    var s2 := Next(s1, Published(early));
    var s3 := Next(s2, Invoked(true));
    var s4 := PublishElsewhere(s3, late);
    assert Next(s4, SendSettles) == Overtaken(early, late);
    OneStep(h4, s4, SendSettles);
    assert Run(s3, h3) == Run(s4, h4);
    OneStep(h2, s2, Invoked(true));
    OneStep(h1, s1, Published(early));
    OneStep(h0, Initial(), RequestArrives);
  }

  lemma OneStep(happenings: seq<Happening>, s: System, e: Event)
    requires happenings != [] && happenings[0] == Usual(e) && Enabled(s, e)
    ensures Run(s, happenings) == Run(Next(s, e), happenings[1..])
  {
    hide Next, Enabled;
  }

  /** One that comes out of turn is heard before an update that was published before it. */
  lemma ElsewhereOvertakes(early: Update, late: Update) returns (happenings: seq<Happening>, s: System)
    ensures Run(Initial(), happenings) == Some(s) && s.published == [early, late]
    ensures s.client.queued == [late, early] && Intact(s) && !s.client.broke
  {
    var arrive := Usual(MessageArrives);
    happenings := [Usual(RequestArrives), Usual(Published(early)), Usual(Invoked(true)), Elsewhere(late), Usual(SendSettles)]
                  + [arrive, arrive, arrive];
    ServerHalf(early, late, [arrive, arrive, arrive]);
    var s0 := Overtaken(early, late);
    var s1 := Next(s0, MessageArrives);
    assert s1.channel.messages == [Changed(1, late), Changed(2, early)] && s1.client.decoder == Some(1);
    var s2 := Next(s1, MessageArrives);
    assert s2.channel.messages == [Changed(2, early)] && s2.client.queued == [late] && s2.client.decoder == Some(2);
    s := Next(s2, MessageArrives);
    OneStep([arrive, arrive, arrive], s0, MessageArrives);
    OneStep([arrive, arrive], s1, MessageArrives);
    OneStep([arrive], s2, MessageArrives);
    assert [arrive, arrive, arrive][1..] == [arrive, arrive] && [arrive, arrive][1..] == [arrive] && [arrive][1..] == [];
  }
}
