/** Why a connection is where it is, read off the events that brought it there. */
module ServerConnectionHistory {
  import opened Wrappers
  import opened ServerConnection

  // ---- what the events say ---------------------------------------------------------------------

  function Front(h: seq<Event>): seq<Event>
    requires h != []
  {
    h[..|h| - 1]
  }

  function Last(h: seq<Event>): Event
    requires h != []
  {
    h[|h| - 1]
  }

  /** A message has come. */
  predicate Arrived(h: seq<Event>)
    decreases |h|
  {
    h != [] && (Arrived(Front(h)) || Last(h).Arrives?)
  }

  /** The event ends the connection after these: the first message is anything but a hello of a supported
      version, a later one is a hello, the services could not be attached, or somebody ends it. */
  predicate Offence(before: seq<Event>, e: Event) {
    match e
    case Arrives(m, _, _) => if Arrived(before) then m.Hello? else m != Hello(true)
    case ServicesAttached(ok, _, _) => !ok
    case UnwantedReleased => false
    case HelloSettles(_) => false
    case HandshakeObserved => false
    case _ => true
  }

  predicate Offended(h: seq<Event>)
    decreases |h|
  {
    h != [] && (Offended(Front(h)) || Offence(Front(h), Last(h)))
  }

  /** The first message was a hello, of whatever version. */
  predicate Greeted(h: seq<Event>)
    decreases |h|
  {
    h != [] && (Greeted(Front(h)) || (!Arrived(Front(h)) && Last(h).Arrives? && Last(h).message.Hello?))
  }

  /** It was of a supported version, and neither the server nor the transport was closing. */
  predicate Invited(h: seq<Event>)
    decreases |h|
  {
    h != [] && (Invited(Front(h)) || (!Arrived(Front(h)) && Last(h) == Arrives(Hello(true), false, false)))
  }

  /** The attach of the services is over. */
  predicate Answered(h: seq<Event>)
    decreases |h|
  {
    h != [] && (Answered(Front(h)) || Last(h).ServicesAttached?)
  }

  /** Services were obtained. */
  predicate Obtained(h: seq<Event>)
    decreases |h|
  {
    h != [] && (Obtained(Front(h)) || (Last(h).ServicesAttached? && Last(h).ok))
  }

  /** Services were obtained before anything had ended the connection. */
  predicate Accepted(h: seq<Event>)
    decreases |h|
  {
    h != [] && (Accepted(Front(h)) || (Last(h) == ServicesAttached(true, false, false) && !Offended(Front(h))))
  }

  /** The server's hello went out before anything had ended the connection. */
  predicate Welcomed(h: seq<Event>)
    decreases |h|
  {
    h != [] && (Welcomed(Front(h)) || (Last(h) == HelloSettles(true) && !Offended(Front(h))))
  }

  /** The handshake found the server or the transport closing, or its hello did not go out. */
  predicate Hindered(h: seq<Event>)
    decreases |h|
  {
    h != []
    && (|| Hindered(Front(h))
        || (Last(h).Arrives? && (Last(h).serverClosing || Last(h).transportClosed))
        || (Last(h).ServicesAttached? && (Last(h).serverClosing || Last(h).transportClosed))
        || Last(h) == HelloSettles(false))
  }

  /** The messages after the first, but for hellos. */
  function Messages(h: seq<Event>): seq<Message>
    decreases |h|
  {
    if h == [] then []
    else
      Messages(Front(h))
      + if Arrived(Front(h)) && Last(h).Arrives? && !Last(h).message.Hello? then [Last(h).message] else []
  }

  // ---- and what the connection makes of them ---------------------------------------------------

  predicate StageTold(h: seq<Event>, c: Connection) {
    && (Terminal(c) <==> Offended(h))
    && (c.disconnected <==> CloseReturns in h || TransportGone in h)
    && (c.stage == AwaitingHello <==> !Offended(h) && !Arrived(h))
    && (c.stage == Ready <==> !Offended(h) && Welcomed(h))
    && (c.wasReady <==> Welcomed(h))
    && (c.helloSent <==> HelloSettles(true) in h)
    && (Terminal(c) ==> c.disconnected || c.closePending > 0)
  }

  predicate HandshakeTold(h: seq<Event>, c: Connection) {
    && (c.handshake == NotBegun <==> !Greeted(h))
    && (c.handshake == Attaching <==> Invited(h) && !Answered(h))
    && (c.handshake == SendingHello <==> Accepted(h) && HelloSettles(true) !in h && HelloSettles(false) !in h)
    && (c.handshake == ReleasingUnwanted <==> Obtained(h) && !Accepted(h) && UnwantedReleased !in h)
    && ((c.handshake == Returned || c.handshake == ReleasingUnwanted) && !Offended(h) && !Welcomed(h) ==> Hindered(h))
    && (HelloSettles(true) in h || HelloSettles(false) in h ==> c.handshake == Returned)
    && (UnwantedReleased in h ==> c.handshake == Returned)
  }

  predicate ServicesTold(h: seq<Event>, c: Connection) {
    && c.attached == (if Obtained(h) then 1 else 0)
    && (c.services <==> Accepted(h) && !c.disconnected)
  }

  predicate MessagesTold(h: seq<Event>, c: Connection) {
    && c.received == Messages(h)
    && (c.dropped != [] ==> Offended(h) || Hindered(h))
  }

  predicate Orderly(h: seq<Event>) {
    && (Greeted(h) || Invited(h) ==> Arrived(h))
    && (Invited(h) ==> Greeted(h))
    && (Accepted(h) ==> Obtained(h))
    && (Obtained(h) ==> Answered(h))
    && (Answered(h) ==> Invited(h))
    && (Welcomed(h) ==> Accepted(h))
  }

  predicate Told(h: seq<Event>, c: Connection) {
    Inv(c) && Orderly(h) && StageTold(h, c) && HandshakeTold(h, c) && ServicesTold(h, c) && MessagesTold(h, c)
  }

  lemma Snoc(h: seq<Event>, e: Event)
    ensures Front(h + [e]) == h && Last(h + [e]) == e
  {
  }

  lemma MembersNext(h: seq<Event>, e: Event, x: Event)
    ensures x in h + [e] <==> x in h || x == e
  {
  }

  lemma ArrivalIsTold(h: seq<Event>, c: Connection, e: Event)
    requires Told(h, c) && Enabled(c, e) && e.Arrives?
    ensures Told(h + [e], Next(c, e))
  {
    StepKeepsInv(c, e);
    Snoc(h, e);
  }

  lemma HandshakeIsTold(h: seq<Event>, c: Connection, e: Event)
    requires Told(h, c) && Enabled(c, e) && (e.ServicesAttached? || e.UnwantedReleased? || e.HelloSettles? || e.HandshakeObserved?)
    ensures Told(h + [e], Next(c, e))
  {
    StepKeepsInv(c, e);
    Snoc(h, e);
  }

  lemma ClosingIsTold(h: seq<Event>, c: Connection, e: Event)
    requires Told(h, c) && Enabled(c, e) && (e.ProtocolFails? || e.CloseReturns? || e.TransportGone? || e.ServerCloses?)
    ensures Told(h + [e], Next(c, e))
  {
    StepKeepsInv(c, e);
    Snoc(h, e);
  }

  lemma StepIsTold(h: seq<Event>, c: Connection, e: Event)
    requires Told(h, c) && Enabled(c, e)
    ensures Told(h + [e], Next(c, e))
  {
    hide Told, Next, Enabled;
    if e.Arrives? {
      ArrivalIsTold(h, c, e);
    } else if e.ServicesAttached? || e.UnwantedReleased? || e.HelloSettles? || e.HandshakeObserved? {
      HandshakeIsTold(h, c, e);
    } else {
      ClosingIsTold(h, c, e);
    }
  }

  lemma {:induction false} RunIsTold(h: seq<Event>, c: Connection, events: seq<Event>, t: Connection)
    requires Told(h, c) && Run(c, events) == Some(t)
    ensures Told(h + events, t)
    decreases |events|
  {
    hide Told, Next, Enabled;
    if events == [] {
      assert h + events == h;
    } else {
      StepIsTold(h, c, events[0]);
      assert h + [events[0]] + events[1..] == h + events;
      RunIsTold(h + [events[0]], Next(c, events[0]), events[1..], t);
    }
  }

  lemma ReachedIsTold(events: seq<Event>, c: Connection)
    requires Run(Initial(), events) == Some(c)
    ensures Told(events, c)
  {
    assert [] + events == events;
    RunIsTold([], Initial(), events, c);
  }

  // ---- main results ----------------------------------------------------------------------------

  /** A connection ends exactly if something ended it: an offence of the client, services that cannot be
      attached, its transport, or the server. It then is disconnected or a close is still to return, and
      it is disconnected exactly once a close has returned or the transport is gone. */
  lemma EndedForAReason(events: seq<Event>, c: Connection)
    requires Run(Initial(), events) == Some(c)
    ensures Terminal(c) <==> Offended(events)
    ensures c.disconnected <==> CloseReturns in events || TransportGone in events
    ensures Terminal(c) ==> c.disconnected || Enabled(c, CloseReturns)
  {
    ReachedIsTold(events, c);
  }

  /** It becomes ready exactly when the hello goes out before anything has ended it, and stays ready until
      something does. */
  lemma ReadyIff(events: seq<Event>, c: Connection)
    requires Run(Initial(), events) == Some(c)
    ensures c.wasReady <==> Welcomed(events)
    ensures c.stage == Ready <==> Welcomed(events) && !Offended(events)
    ensures c.helloSent <==> HelloSettles(true) in events
  {
    ReachedIsTold(events, c);
  }

  /** The handshake waits for the attach once the first message has invited it, for the hello to go out once
      services were accepted, and for unwanted services to be given back; and nowhere else. */
  lemma HandshakeIff(events: seq<Event>, c: Connection)
    requires Run(Initial(), events) == Some(c)
    ensures c.handshake == NotBegun <==> !Greeted(events)
    ensures c.handshake == Attaching <==> Invited(events) && !Answered(events)
    ensures c.handshake == SendingHello <==>
              Accepted(events) && HelloSettles(true) !in events && HelloSettles(false) !in events
    ensures c.handshake == ReleasingUnwanted <==> Obtained(events) && !Accepted(events) && UnwantedReleased !in events
  {
    ReachedIsTold(events, c);
  }

  /** Services are held exactly from the moment they were accepted until the connection is disconnected; all
      others obtained have been given back. */
  lemma ServicesHeldIff(events: seq<Event>, c: Connection)
    requires Run(Initial(), events) == Some(c)
    ensures c.services <==> Accepted(events) && !c.disconnected
    ensures c.attached == (if Obtained(events) then 1 else 0)
    ensures c.released == (if Obtained(events) && !c.services then 1 else 0)
  {
    ReachedIsTold(events, c);
  }

  /** What was received are the messages that came after the first, and none is dropped unless something
      ended the connection or hindered the handshake. */
  lemma ReceivedIsWhatCame(events: seq<Event>, c: Connection)
    requires Run(Initial(), events) == Some(c)
    ensures c.received == Messages(events)
    ensures c.dropped != [] ==> Offended(events) || Hindered(events)
  {
    ReachedIsTold(events, c);
  }

  /** On a connection that nothing ends or hinders, a message that comes when it is ready is executed at
      once, and as soon as the messages that waited for the handshake have been looked at, every message
      that came has been executed: in their order, if none came between the two. */
  lemma UnhinderedIsServed(events: seq<Event>, c: Connection, m: Message)
    requires Run(Initial(), events) == Some(c) && !Offended(events) && !Hindered(events)
    ensures !Terminal(c)
    ensures HelloSettles(true) in events <==> c.stage == Ready
    ensures c.stage == Ready && !m.Hello? ==>
              Next(c, Arrives(m, false, false)).executed == c.executed + [m]
    ensures Enabled(c, HandshakeObserved) ==>
              Times(Next(c, HandshakeObserved).executed, m) == Times(Messages(events), m)
    ensures Enabled(c, HandshakeObserved) && NothingOvertakes(Initial(), events) ==>
              Next(c, HandshakeObserved).executed == Messages(events)
  {
    ReachedIsTold(events, c);
    MessagesAccountedFor(events, c, m);
    if Enabled(c, HandshakeObserved) {
      assert c.stage == Ready && c.dropped == [];
      TimesSum(c.executed, c.deferred, m);
      if NothingOvertakes(Initial(), events) {
        ExecutedInOrder(events, c);
        assert c.executed + c.dropped + c.deferred == c.executed + c.deferred;
      }
    }
  }

  /** Nothing is executed, and no services are attached, for a connection once it has ended. */
  lemma EndedDoesNothing(events: seq<Event>, c: Connection, e: Event)
    requires Run(Initial(), events) == Some(c) && Offended(events) && Enabled(c, e)
    ensures Next(c, e).executed == c.executed && Next(c, e).received == c.received
    ensures Next(c, e).services ==> c.services
  {
    ReachedIsTold(events, c);
    StepIsTold(events, c, e);
  }
}
