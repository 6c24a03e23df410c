/** One connection as the server sees it: its stage, its handshake, and the services attached for it. */
module ServerConnection {
  import opened Wrappers
  import opened Sequences

  datatype Stage = AwaitingHello | Handshaking | Ready | Closing | Closed

  function Rank(s: Stage): nat {
    match s
    case AwaitingHello => 0
    case Handshaking => 1
    case Ready => 2
    case Closing => 3
    case Closed => 4
  }

  /** Which await `finishHandshake` is in. */
  datatype Handshake = NotBegun | Attaching | ReleasingUnwanted | SendingHello | Returned

  datatype Message = Hello(supported: bool) | Request(id: nat) | Cancel(id: nat)

  /** `attached` and `released` count the service attachments obtained and given back, `services` says
      that the connection holds one; `helloSent` that the server's hello has gone out, `wasReady` that the
      stage has been ready. `deferred` are messages that wait for the handshake, `received` and `executed`
      the messages that could be dispatched and those that were, `dropped` those that came too late. */
  datatype Connection = Connection(
    stage: Stage, disconnected: bool, handshake: Handshake, services: bool, attached: nat, released: nat,
    closePending: nat, helloSent: bool, wasReady: bool,
    deferred: seq<Message>, received: seq<Message>, executed: seq<Message>, dropped: seq<Message>)

  function Initial(): Connection {
    Connection(AwaitingHello, false, NotBegun, false, 0, 0, 0, false, false, [], [], [], [])
  }

  datatype Event =
    | Arrives(message: Message, serverClosing: bool, transportClosed: bool)
    | ProtocolFails
    | CloseReturns
    | TransportGone
    | ServerCloses
    | ServicesAttached(ok: bool, serverClosing: bool, transportClosed: bool)
    | UnwantedReleased
    | HelloSettles(sent: bool)
    | HandshakeObserved

  predicate Terminal(c: Connection) {
    c.disconnected || c.stage == Closing || c.stage == Closed
  }

  /** `failProtocol` up to its await. */
  function FailProtocol(c: Connection): Connection {
    if Terminal(c) then c else c.(stage := Closing, closePending := c.closePending + 1)
  }

  /** `disconnect`: the attachment the connection holds is given back. */
  function Disconnect(c: Connection): Connection {
    if c.disconnected then c
    else c.(disconnected := true, stage := Closed, services := false,
            released := if c.services then c.released + 1 else c.released)
  }

  function Execute(c: Connection, m: Message): Connection {
    c.(executed := c.executed + [m])
  }

  /** `finishHandshake` up to its first await. */
  function BeginHandshake(c: Connection, supported: bool, serverClosing: bool, transportClosed: bool): Connection {
    var begun := c.(stage := Handshaking);
    if !supported then FailProtocol(begun).(handshake := Returned)
    else if serverClosing || transportClosed then begun.(handshake := Returned)
    else begun.(handshake := Attaching)
  }

  /** `dispatchMessage` */
  function Dispatch(c: Connection, m: Message, serverClosing: bool, transportClosed: bool): Connection {
    if c.stage == AwaitingHello then
      if m.Hello? then BeginHandshake(c, m.supported, serverClosing, transportClosed) else FailProtocol(c)
    else if m.Hello? then FailProtocol(c)
    else if c.stage == Ready then Execute(c.(received := c.received + [m]), m)
    else c.(received := c.received + [m], deferred := c.deferred + [m])
  }

  /** The attach returns while the handshake still waits for it. */
  function TakeServices(c: Connection, serverClosing: bool, transportClosed: bool): Connection {
    var obtained := c.(attached := c.attached + 1);
    if serverClosing || c.disconnected || c.stage != Handshaking || transportClosed then
      obtained.(handshake := ReleasingUnwanted, released := c.released + 1)
    else obtained.(handshake := SendingHello, services := true)
  }

  function HelloReturned(c: Connection, sent: bool): Connection {
    var returned := c.(handshake := Returned, helloSent := c.helloSent || sent);
    if sent && !c.disconnected && c.stage == Handshaking then returned.(stage := Ready, wasReady := true)
    else returned
  }

  /** The messages that waited for the handshake are dispatched, or dropped if it came to nothing. */
  function RunDeferred(c: Connection): Connection {
    if c.stage == Ready && !c.disconnected then c.(deferred := [], executed := c.executed + c.deferred)
    else c.(deferred := [], dropped := c.dropped + c.deferred)
  }

  predicate Enabled(c: Connection, e: Event) {
    match e
    case Arrives(_, _, _) => !Terminal(c)
    case CloseReturns => c.closePending > 0
    case ServerCloses => !c.disconnected
    case ServicesAttached(_, _, _) => c.handshake == Attaching
    case UnwantedReleased => c.handshake == ReleasingUnwanted
    case HelloSettles(_) => c.handshake == SendingHello
    case HandshakeObserved => c.handshake == Returned
    case _ => true
  }

  function Next(c: Connection, e: Event): Connection
    requires Enabled(c, e)
  {
    match e
    case Arrives(m, serverClosing, transportClosed) => Dispatch(c, m, serverClosing, transportClosed)
    case ProtocolFails => FailProtocol(c)
    case CloseReturns => Disconnect(c.(closePending := c.closePending - 1))
    case TransportGone => Disconnect(c)
    case ServerCloses => c.(stage := Closing, closePending := c.closePending + 1)
    case ServicesAttached(ok, serverClosing, transportClosed) =>
      if ok then TakeServices(c, serverClosing, transportClosed) else FailProtocol(c).(handshake := Returned)
    case UnwantedReleased => c.(handshake := Returned)
    case HelloSettles(sent) => HelloReturned(c, sent)
    case HandshakeObserved => RunDeferred(c)
  }

  function Run(c: Connection, events: seq<Event>): Option<Connection>
    decreases |events|
  {
    if events == [] then Some(c)
    else if Enabled(c, events[0]) then Run(Next(c, events[0]), events[1..])
    else None
  }

  // ---- what every run keeps --------------------------------------------------------------------

  predicate Inv(c: Connection) {
    && (c.disconnected <==> c.stage == Closed)
    && (c.stage == AwaitingHello ==> c.handshake == NotBegun)
    && (c.handshake == NotBegun ==> c.attached == 0 && c.stage != Handshaking && c.stage != Ready)
    && (c.handshake == Attaching ==> c.attached == 0)
    && c.attached <= 1 && c.released + (if c.services then 1 else 0) == c.attached
    && (c.services ==> !c.disconnected)
    && (c.stage == Ready ==> c.handshake == Returned && c.wasReady)
    && (c.wasReady ==> c.helloSent && Rank(c.stage) >= Rank(Ready))
    && (c.handshake == NotBegun || c.handshake == Attaching || c.handshake == SendingHello ==> !c.helloSent && !c.wasReady)
    && (c.executed != [] ==> c.wasReady)
    && (c.dropped != [] ==> c.handshake == Returned && (Rank(c.stage) > Rank(Ready) || !c.wasReady))
    && (c.deferred != [] ==> c.handshake != NotBegun)
  }

  lemma ArrivalKeepsInv(c: Connection, e: Event)
    requires Inv(c) && Enabled(c, e) && e.Arrives?
    ensures Inv(Next(c, e)) && Rank(c.stage) <= Rank(Next(c, e).stage)
  {
  }

  lemma HandshakeKeepsInv(c: Connection, e: Event)
    requires Inv(c) && Enabled(c, e) && (e.ServicesAttached? || e.UnwantedReleased? || e.HelloSettles? || e.HandshakeObserved?)
    ensures Inv(Next(c, e)) && Rank(c.stage) <= Rank(Next(c, e).stage)
  {
  }

  lemma ClosingKeepsInv(c: Connection, e: Event)
    requires Inv(c) && Enabled(c, e) && (e.ProtocolFails? || e.CloseReturns? || e.TransportGone? || e.ServerCloses?)
    ensures Inv(Next(c, e)) && Rank(c.stage) <= Rank(Next(c, e).stage)
  {
  }

  lemma StepKeepsInv(c: Connection, e: Event)
    requires Inv(c) && Enabled(c, e)
    ensures Inv(Next(c, e)) && Rank(c.stage) <= Rank(Next(c, e).stage)
  {
    hide Inv, Next, Enabled;
    if e.Arrives? {
      ArrivalKeepsInv(c, e);
    } else if e.ServicesAttached? || e.UnwantedReleased? || e.HelloSettles? || e.HandshakeObserved? {
      HandshakeKeepsInv(c, e);
    } else {
      ClosingKeepsInv(c, e);
    }
  }

  /** A connection's stage only moves forward. */
  lemma {:induction false} StageMovesForward(c: Connection, events: seq<Event>, t: Connection)
    requires Inv(c) && Run(c, events) == Some(t)
    ensures Inv(t) && Rank(c.stage) <= Rank(t.stage)
    decreases |events|
  {
    hide Inv, Next, Enabled;
    if events != [] {
      StepKeepsInv(c, events[0]);
      StageMovesForward(Next(c, events[0]), events[1..], t);
    }
  }

  lemma ReachedKeepsInv(events: seq<Event>, c: Connection)
    requires Run(Initial(), events) == Some(c)
    ensures Inv(c)
  {
    StageMovesForward(Initial(), events, c);
  }

  /** Nothing is executed unless the server's hello was sent and the connection became ready. */
  lemma NothingBeforeReady(events: seq<Event>, c: Connection)
    requires Run(Initial(), events) == Some(c) && c.executed != []
    ensures c.wasReady && c.helloSent
  {
    ReachedKeepsInv(events, c);
  }

  /** A handshake obtains at most one attachment, which is given back at most once; and exactly once by
      the time the connection is closed and the handshake is over. */
  lemma AttachmentReleasedOnce(events: seq<Event>, c: Connection)
    requires Run(Initial(), events) == Some(c)
    ensures c.released <= c.attached <= 1
    ensures c.disconnected && c.handshake != Attaching ==> c.released == c.attached
  {
    ReachedKeepsInv(events, c);
  }

  // ---- messages --------------------------------------------------------------------------------

  function Times(messages: seq<Message>, m: Message): nat
    decreases |messages|
  {
    if messages == [] then 0 else Times(messages[1..], m) + if messages[0] == m then 1 else 0
  }

  lemma {:induction false} TimesSum(a: seq<Message>, b: seq<Message>, m: Message)
    ensures Times(a + b, m) == Times(a, m) + Times(b, m)
    decreases |a|
  {
    if a == [] {
      assert a + b == b;
    } else {
      assert (a + b)[1..] == a[1..] + b;
      TimesSum(a[1..], b, m);
    }
  }

  predicate Even(received: seq<Message>, executed: seq<Message>, deferred: seq<Message>, dropped: seq<Message>, m: Message) {
    Times(received, m) == Times(executed, m) + Times(deferred, m) + Times(dropped, m)
  }

  predicate Balanced(c: Connection, m: Message) {
    Even(c.received, c.executed, c.deferred, c.dropped, m)
  }

  lemma OneMoreStaysEven(received: seq<Message>, executed: seq<Message>, deferred: seq<Message>, dropped: seq<Message>,
                         x: Message, m: Message)
    requires Even(received, executed, deferred, dropped, m)
    ensures Even(received + [x], executed + [x], deferred, dropped, m)
    ensures Even(received + [x], executed, deferred + [x], dropped, m)
  {
    hide Times;
    TimesSum(received, [x], m);
    TimesSum(executed, [x], m);
    TimesSum(deferred, [x], m);
  }

  lemma DeferredStayEven(received: seq<Message>, executed: seq<Message>, deferred: seq<Message>, dropped: seq<Message>, m: Message)
    requires Even(received, executed, deferred, dropped, m)
    ensures Even(received, executed + deferred, [], dropped, m)
    ensures Even(received, executed, [], dropped + deferred, m)
  {
    assert Times([], m) == 0;
    hide Times;
    TimesSum(executed, deferred, m);
    TimesSum(dropped, deferred, m);
  }

  lemma DispatchKeepsBalance(c: Connection, x: Message, serverClosing: bool, transportClosed: bool, m: Message)
    requires Balanced(c, m)
    ensures Balanced(Dispatch(c, x, serverClosing, transportClosed), m)
  {
    hide Even;
    OneMoreStaysEven(c.received, c.executed, c.deferred, c.dropped, x, m);
  }

  lemma RunDeferredKeepsBalance(c: Connection, m: Message)
    requires Balanced(c, m)
    ensures Balanced(RunDeferred(c), m)
  {
    hide Even;
    DeferredStayEven(c.received, c.executed, c.deferred, c.dropped, m);
  }

  lemma OtherKeepsBalance(c: Connection, e: Event, m: Message)
    requires Balanced(c, m) && Enabled(c, e) && !e.Arrives? && !e.HandshakeObserved?
    ensures Balanced(Next(c, e), m)
  {
    hide Even;
  }

  lemma StepKeepsBalance(c: Connection, e: Event, m: Message)
    requires Balanced(c, m) && Enabled(c, e)
    ensures Balanced(Next(c, e), m)
  {
    hide Balanced, Dispatch, RunDeferred;
    match e {
      case Arrives(x, serverClosing, transportClosed) => DispatchKeepsBalance(c, x, serverClosing, transportClosed, m);
      case HandshakeObserved => RunDeferredKeepsBalance(c, m);
      case _ => OtherKeepsBalance(c, e, m);
    }
  }

  lemma {:induction false} RunKeepsBalance(c: Connection, events: seq<Event>, t: Connection, m: Message)
    requires Balanced(c, m) && Run(c, events) == Some(t)
    ensures Balanced(t, m)
    decreases |events|
  {
    hide Balanced, Next, Enabled;
    if events != [] {
      StepKeepsBalance(c, events[0], m);
      RunKeepsBalance(Next(c, events[0]), events[1..], t, m);
    }
  }

  /** Every message received is executed as often as it came, waits for the handshake, or was dropped; and
      none is dropped while the connection is ready. */
  lemma MessagesAccountedFor(events: seq<Event>, c: Connection, m: Message)
    requires Run(Initial(), events) == Some(c)
    ensures Times(c.received, m) == Times(c.executed, m) + Times(c.deferred, m) + Times(c.dropped, m)
    ensures c.stage == Ready ==> c.dropped == []
  {
    ReachedKeepsInv(events, c);
    RunKeepsBalance(Initial(), events, c, m);
  }

  // ---- their order -----------------------------------------------------------------------------

  /** What was received is what was executed, then what was dropped, then what still waits. */
  predicate InOrder(c: Connection) {
    c.received == c.executed + c.dropped + c.deferred
  }

  /** The message overtakes one that waits: the connection is ready already, but messages that came during
      the handshake have not been dispatched yet. */
  predicate Overtakes(c: Connection, e: Event) {
    e.Arrives? && !e.message.Hello? && c.stage == Ready && !AllAre(c.deferred, e.message)
  }

  /** A step keeps the order exactly if no message overtakes one that waits for the handshake. */
  lemma StepKeepsOrderIff(c: Connection, e: Event)
    requires Inv(c) && Enabled(c, e) && InOrder(c)
    ensures InOrder(Next(c, e)) <==> !Overtakes(c, e)
  {
    match e {
      case Arrives(m, serverClosing, transportClosed) =>
        if c.stage == Ready && !m.Hello? {
          ReadyArrival(c, m);
        } else {
          QuietArrival(c, e);
        }
      case HandshakeObserved =>
        assert c.executed != [] && c.dropped != [] ==> c.stage != Ready;
        assert c.executed + c.dropped + (c.deferred + []) == c.executed + (c.dropped + c.deferred) + [];
      case _ => SameMessages(c, e);
    }
  }

  lemma SameMessages(c: Connection, e: Event)
    requires Enabled(c, e) && !e.Arrives? && !e.HandshakeObserved?
    ensures var t := Next(c, e);
            t.received == c.received && t.executed == c.executed && t.dropped == c.dropped && t.deferred == c.deferred
  {
  }

  lemma QuietArrival(c: Connection, e: Event)
    requires Enabled(c, e) && e.Arrives? && InOrder(c) && (c.stage != Ready || e.message.Hello?)
    ensures InOrder(Next(c, e))
  {
    assert c.executed + c.dropped + c.deferred + [e.message] == c.executed + c.dropped + (c.deferred + [e.message]);
  }

  lemma ReadyArrival(c: Connection, m: Message)
    requires c.dropped == [] && InOrder(c)
    ensures c.received + [m] == (c.executed + [m]) + c.dropped + c.deferred <==> AllAre(c.deferred, m)
  {
    assert c.received + [m] == c.executed + c.deferred + [m];
    assert (c.executed + [m]) + c.dropped + c.deferred == c.executed + [m] + c.deferred;
    OvertakesUnlessSame(c.executed, c.deferred, m);
  }

  predicate NothingOvertakes(c: Connection, events: seq<Event>)
    decreases |events|
  {
    events == []
    || (!Overtakes(c, events[0]) && (Enabled(c, events[0]) ==> NothingOvertakes(Next(c, events[0]), events[1..])))
  }

  lemma {:induction false} RunKeepsOrder(c: Connection, events: seq<Event>, t: Connection)
    requires Inv(c) && InOrder(c) && NothingOvertakes(c, events) && Run(c, events) == Some(t)
    ensures InOrder(t)
    decreases |events|
  {
    hide Inv, InOrder, Overtakes, Next, Enabled;
    if events != [] {
      StepKeepsInv(c, events[0]);
      StepKeepsOrderIff(c, events[0]);
      RunKeepsOrder(Next(c, events[0]), events[1..], t);
    }
  }

  /** If no message arrives between the moment the connection becomes ready and the moment the messages
      that waited for it are dispatched, messages are executed in the order in which they were received,
      with none left out between two that are executed. */
  lemma ExecutedInOrder(events: seq<Event>, c: Connection)
    requires Run(Initial(), events) == Some(c) && NothingOvertakes(Initial(), events)
    ensures c.executed <= c.received
    ensures c.received == c.executed + c.dropped + c.deferred
  {
    RunKeepsOrder(Initial(), events, c);
    assert c.executed + c.dropped + c.deferred == c.executed + (c.dropped + c.deferred);
  }

  /** One that does arrive then is executed first. */
  lemma LateMessageOvertakes() returns (events: seq<Event>, c: Connection)
    ensures Run(Initial(), events) == Some(c) && c.received == [Request(1), Request(2)] && c.executed == [Request(2), Request(1)]
  {
    hide Run;
    var e0, e1, e2 := Arrives(Hello(true), false, false), ServicesAttached(true, false, false), Arrives(Request(1), false, false);
    var e3, e4, e5 := HelloSettles(true), Arrives(Request(2), false, false), HandshakeObserved;
    events := [e0, e1, e2, e3, e4, e5];
    var c1 := Next(Initial(), e0);
    var c2 := Next(c1, e1);
    var c3 := Next(c2, e2);
    var c4 := Next(c3, e3);
    var c5 := Next(c4, e4);
    c := Next(c5, e5);
    OneStep(c5, e5, []);
    OneStep(c4, e4, [e5]);
    OneStep(c3, e3, [e4, e5]);
    OneStep(c2, e2, [e3, e4, e5]);
    OneStep(c1, e1, [e2, e3, e4, e5]);
    OneStep(Initial(), e0, [e1, e2, e3, e4, e5]);
    assert [e5] == [e5] + [] && [e4, e5] == [e4] + [e5] && [e3, e4, e5] == [e3] + [e4, e5];
    assert [e2, e3, e4, e5] == [e2] + [e3, e4, e5] && [e1, e2, e3, e4, e5] == [e1] + [e2, e3, e4, e5];
    assert events == [e0] + [e1, e2, e3, e4, e5];
  }

  lemma OneStep(c: Connection, e: Event, rest: seq<Event>)
    requires Enabled(c, e)
    ensures Run(c, [e] + rest) == Run(Next(c, e), rest)
    ensures Run(Next(c, e), []) == Some(Next(c, e))
  {
    hide Enabled, Next;
    assert ([e] + rest)[1..] == rest;
  }

  // ---- the connection's record, updated in place -----------------------------------------------

  class ConnectionState {
    var stage: Stage
    var disconnected: bool
    var handshake: Handshake
    var serverServices: bool
    var closePending: nat
    var deferred: seq<Message>
    ghost var attached: nat
    ghost var released: nat
    ghost var helloSent: bool
    ghost var wasReady: bool
    ghost var received: seq<Message>
    ghost var executed: seq<Message>
    ghost var dropped: seq<Message>

    ghost function Model(): Connection
      reads this
    {
      Connection(stage, disconnected, handshake, serverServices, attached, released, closePending, helloSent, wasReady,
                 deferred, received, executed, dropped)
    }

    ghost predicate Valid()
      reads this
    {
      Inv(Model())
    }

    constructor ()
      ensures Valid() && Model() == Initial()
    {
      stage, disconnected, handshake, serverServices := AwaitingHello, false, NotBegun, false;
      closePending, deferred := 0, [];
      attached, released, helloSent, wasReady := 0, 0, false, false;
      received, executed, dropped := [], [], [];
    }

    method Fail()
      modifies this`stage, this`closePending
      ensures Model() == FailProtocol(old(Model()))
    {
      if disconnected || stage == Closing || stage == Closed {
        return;
      }
      stage := Closing;
      closePending := closePending + 1;
    }

    method DisconnectNow()
      modifies this`stage, this`disconnected, this`serverServices, this`released
      ensures Model() == Disconnect(old(Model()))
    {
      if disconnected {
        return;
      }
      disconnected := true;
      stage := Closed;
      if serverServices {
        serverServices := false;
        released := released + 1;
      }
    }

    method Receive(m: Message, serverClosing: bool, transportClosed: bool)
      requires Valid() && Enabled(Model(), Arrives(m, serverClosing, transportClosed))
      modifies this
      ensures Valid() && Model() == Next(old(Model()), Arrives(m, serverClosing, transportClosed))
    {
      StepKeepsInv(Model(), Arrives(m, serverClosing, transportClosed));
      hide Inv;
      if stage == AwaitingHello {
        if !m.Hello? {
          Fail();
          return;
        }
        stage := Handshaking;
        if !m.supported {
          Fail();
          handshake := Returned;
        } else if serverClosing || transportClosed {
          handshake := Returned;
        } else {
          handshake := Attaching;
        }
      } else if m.Hello? {
        Fail();
      } else {
        received := received + [m];
        if stage == Ready {
          executed := executed + [m];
        } else {
          deferred := deferred + [m];
        }
      }
    }

    method AttachReturned(ok: bool, serverClosing: bool, transportClosed: bool)
      requires Valid() && Enabled(Model(), ServicesAttached(ok, serverClosing, transportClosed))
      modifies this
      ensures Valid() && Model() == Next(old(Model()), ServicesAttached(ok, serverClosing, transportClosed))
    {
      StepKeepsInv(Model(), ServicesAttached(ok, serverClosing, transportClosed));
      hide Inv;
      if !ok {
        Fail();
        handshake := Returned;
        return;
      }
      attached := attached + 1;
      if serverClosing || disconnected || stage != Handshaking || transportClosed {
        released := released + 1;
        handshake := ReleasingUnwanted;
        return;
      }
      serverServices := true;
      handshake := SendingHello;
    }

    method HelloReturns(sent: bool)
      requires Valid() && handshake == SendingHello
      modifies this
      ensures Valid() && Model() == Next(old(Model()), HelloSettles(sent))
    {
      StepKeepsInv(Model(), HelloSettles(sent));
      hide Inv;
      handshake := Returned;
      helloSent := helloSent || sent;
      if sent && !disconnected && stage == Handshaking {
        stage := Ready;
        wasReady := true;
      }
    }

    /** The callbacks that waited on the handshake's promise. */
    method HandshakeSettled()
      requires Valid() && handshake == Returned
      modifies this
      ensures Valid() && Model() == Next(old(Model()), HandshakeObserved)
    {
      StepKeepsInv(Model(), HandshakeObserved);
      hide Inv;
      var waiting := deferred;
      deferred := [];
      DispatchAll(waiting);
    }

    /** Each callback looks at the stage anew. */
    method DispatchAll(waiting: seq<Message>)
      modifies this`executed, this`dropped
      ensures if stage == Ready && !disconnected then executed == old(executed) + waiting && dropped == old(dropped)
              else executed == old(executed) && dropped == old(dropped) + waiting
    {
      for i := 0 to |waiting|
        invariant if stage == Ready && !disconnected then
                    executed == old(executed) + waiting[..i] && dropped == old(dropped)
                  else executed == old(executed) && dropped == old(dropped) + waiting[..i]
      {
        assert waiting[..i + 1] == waiting[..i] + [waiting[i]];
        if stage != Ready || disconnected {
          dropped := dropped + [waiting[i]];
        } else {
          executed := executed + [waiting[i]];
        }
      }
      assert waiting[..|waiting|] == waiting;
    }

    /** The end of the connection: a failed protocol, its close returning, the transport going away, or
        the server closing all connections. */
    method End(e: Event)
      requires e.ProtocolFails? || e.CloseReturns? || e.TransportGone? || e.ServerCloses? || e.UnwantedReleased?
      requires Valid() && Enabled(Model(), e)
      modifies this
      ensures Valid() && Model() == Next(old(Model()), e)
    {
      StepKeepsInv(Model(), e);
      hide Inv;
      match e {
        case ProtocolFails => Fail();
        case CloseReturns =>
          closePending := closePending - 1;
          DisconnectNow();
        case TransportGone => DisconnectNow();
        case ServerCloses =>
          stage := Closing;
          closePending := closePending + 1;
        case UnwantedReleased => handshake := Returned;
      }
    }
  }
}
