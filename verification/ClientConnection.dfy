/** The client's connection: one attempt after another, with listeners that may disconnect from inside
    any notification. */
module ClientConnection {
  import opened Wrappers

  type AttemptId = nat
  type TransportId = nat

  datatype Note = NowConnecting | NowConnected | NowDisconnected

  datatype Outcome = Unsettled | Resolved | Rejected

  /** One call of `connect`: how often its promise was settled and how, and what the listener was told. */
  datatype Attempt = Attempt(settles: nat, outcome: Outcome, notes: seq<Note>, opening: bool)

  datatype Frame = ClientHello | Payload(content: nat)

  datatype Transport = Transport(attempt: AttemptId, closed: bool, reported: bool, sent: seq<Frame>)

  datatype Lifecycle =
    | Disconnected
    | Connecting(id: AttemptId, channel: Option<TransportId>)
    | Connected(id: AttemptId, transport: TransportId, pending: bool)
  {
    predicate Current(id: AttemptId) {
      !Disconnected? && this.id == id
    }

    predicate Uses(t: TransportId) {
      (Connecting? && channel == Some(t)) || (Connected? && transport == t)
    }

    predicate HandshakePending() {
      Connecting? || (Connected? && pending)
    }
  }

  datatype Message = Hello(ours: bool) | HelloError | Other(content: nat)

  // ---- what is true of every attempt and transport ---------------------------------------------

  /** The listener hears of connecting, perhaps of being connected, then of being disconnected; the
      promise is settled exactly once by then, and resolved only after "connected" was told. */
  predicate AttemptSound(id: AttemptId, a: Attempt, lifecycle: Lifecycle) {
    && a.settles == (if a.outcome == Unsettled then 0 else 1)
    && (a.outcome == Resolved ==> NowConnected in a.notes)
    && (if lifecycle.Current(id) then
          && (a.notes == [NowConnecting] || (lifecycle.Connected? && a.notes == [NowConnecting, NowConnected]))
          && (a.outcome == Unsettled <==> lifecycle.HandshakePending())
          && (!lifecycle.HandshakePending() ==> a.outcome == Resolved)
          && (a.opening ==> lifecycle.Connecting? && lifecycle.channel.None?)
        else
          && (a.notes == [NowConnecting, NowDisconnected] || a.notes == [NowConnecting, NowConnected, NowDisconnected])
          && a.outcome != Unsettled)
  }

  predicate AttemptsSound(attempts: seq<Attempt>, lifecycle: Lifecycle) {
    && (forall id {:trigger attempts[id]} :: 0 <= id < |attempts| ==> AttemptSound(id, attempts[id], lifecycle))
    && (!lifecycle.Disconnected? ==> lifecycle.id < |attempts|)
  }

  /** A transport is in use, or closed, or has itself reported that it is closing. What was sent on it
      begins with the client's hello, which is sent just once; on one in use it has been sent. */
  predicate TransportSound(t: TransportId, transport: Transport, lifecycle: Lifecycle) {
    && (lifecycle.Uses(t) || transport.closed || transport.reported)
    && HelloFirst(transport.sent)
    && (lifecycle.Uses(t) ==> transport.sent != [])
  }

  predicate HelloFirst(sent: seq<Frame>) {
    sent == [] || (sent[0] == ClientHello && ClientHello !in sent[1..])
  }

  /** All transports are accounted for, but for one that is just being closed. */
  predicate TransportsSound(transports: seq<Transport>, lifecycle: Lifecycle, closing: Option<TransportId>) {
    && (forall t {:trigger transports[t]} :: 0 <= t < |transports| ==>
          HelloFirst(transports[t].sent) && (closing != Some(t) ==> TransportSound(t, transports[t], lifecycle)))
    && (lifecycle.Connected? ==> lifecycle.transport < |transports|)
    && (lifecycle.Connecting? && lifecycle.channel.Some? ==> lifecycle.channel.value < |transports|)
    && (closing.Some? ==> closing.value < |transports|)
  }

  /** The attempts after the current one has failed: its promise is rejected if nobody has settled it, and
      its listener is told last of all. */
  function Ended(attempts: seq<Attempt>, lifecycle: Lifecycle): seq<Attempt>
    requires !lifecycle.Disconnected? && lifecycle.id < |attempts|
  {
    var a := attempts[lifecycle.id];
    var settled := if !lifecycle.HandshakePending() then a
                   else a.(settles := a.settles + 1, outcome := if a.outcome == Unsettled then Rejected else a.outcome);
    attempts[lifecycle.id := settled.(notes := a.notes + [NowDisconnected])]
  }

  /** The transports after the one in use has been closed. */
  function Closed(transports: seq<Transport>, lifecycle: Lifecycle): seq<Transport> {
    seq(|transports|, t requires 0 <= t < |transports| =>
      if lifecycle.Uses(t) then transports[t].(closed := true) else transports[t])
  }

  /** The payloads at the front of these messages, up to the first message of another kind. */
  function Payloads(messages: seq<Message>): (r: seq<nat>) {
    if messages == [] || !messages[0].Other? then [] else [messages[0].content] + Payloads(messages[1..])
  }

  predicate OnlyPayloads(messages: seq<Message>) {
    forall i :: 0 <= i < |messages| ==> messages[i].Other?
  }

  /** What the owner is given of the messages that come together. */
  function Given(lifecycle: Lifecycle, messages: seq<Message>): seq<nat> {
    if lifecycle.Connected? then Payloads(messages)
    else if messages != [] && messages[0] == Hello(true) then Payloads(messages[1..])
    else []
  }

  /** The messages are those that may come now: the server's hello first, and nothing of the kind later. */
  predicate Welcome(lifecycle: Lifecycle, messages: seq<Message>) {
    messages == []
    || (if lifecycle.Connected? then OnlyPayloads(messages) else messages[0] == Hello(true) && OnlyPayloads(messages[1..]))
  }

  /** The message may come now. */
  predicate Expected(lifecycle: Lifecycle, m: Message) {
    if lifecycle.Connected? then m.Other? else m == Hello(true)
  }

  /** What the owner is given of it. */
  function Content(lifecycle: Lifecycle, m: Message): seq<nat> {
    if lifecycle.Connected? && m.Other? then [m.content] else []
  }

  lemma OneMessage(before: Lifecycle, after: Lifecycle, messages: seq<Message>)
    requires messages != [] && !before.Disconnected? && after.Connected?
    ensures Content(before, messages[0]) <= Given(before, messages)
    ensures !Expected(before, messages[0]) ==>
              Given(before, messages) == Content(before, messages[0]) && !Welcome(before, messages)
    ensures Expected(before, messages[0]) ==>
              && Given(before, messages) == Content(before, messages[0]) + Given(after, messages[1..])
              && (Welcome(before, messages) <==> Welcome(after, messages[1..]))
  {
    var rest := messages[1..];
    assert OnlyPayloads(messages) <==> messages[0].Other? && OnlyPayloads(rest) by {
      if messages[0].Other? && OnlyPayloads(rest) {
        forall i | 0 <= i < |messages| ensures messages[i].Other? {
          assert i > 0 ==> messages[i] == rest[i - 1];
        }
      }
      if OnlyPayloads(messages) {
        assert messages[0].Other?;
        forall i | 0 <= i < |rest| ensures rest[i].Other? {
          assert rest[i] == messages[i + 1];
        }
      }
    }
  }

  lemma NoMessages(lifecycle: Lifecycle)
    ensures Given(lifecycle, []) == [] && Welcome(lifecycle, [])
  {
  }

  /** Nothing settled is settled again and nothing told is taken back. */
  predicate Later(before: seq<Attempt>, after: seq<Attempt>) {
    && |before| <= |after|
    && forall id {:trigger after[id]} :: 0 <= id < |before| ==>
         && before[id].notes <= after[id].notes
         && (before[id].outcome != Unsettled ==> after[id].outcome == before[id].outcome)
  }

  lemma LaterComposes(a: seq<Attempt>, b: seq<Attempt>, c: seq<Attempt>)
    requires Later(a, b) && Later(b, c)
    ensures Later(a, c)
  {
    forall id | 0 <= id < |a|
      ensures a[id].notes <= c[id].notes && (a[id].outcome != Unsettled ==> c[id].outcome == a[id].outcome)
    {
      assert b[id].notes <= c[id].notes;
    }
  }

  class Connection {
    var lifecycle: Lifecycle
    var attempts: seq<Attempt>
    var transports: seq<Transport>
    // The payloads the owner has been given.
    ghost var delivered: seq<nat>
    // How often a callback has disconnected, or thrown.
    ghost var interventions: nat

    ghost predicate Sound(closing: Option<TransportId>)
      reads this
    {
      AttemptsSound(attempts, lifecycle) && TransportsSound(transports, lifecycle, closing)
    }

    ghost predicate Valid()
      reads this
    {
      Sound(None)
    }

    /** How much a listener can still bring about. */
    ghost function Alive(): nat
      reads this
    {
      if lifecycle.Disconnected? then 0 else 1
    }

    constructor ()
      ensures Valid() && lifecycle == Disconnected && attempts == [] && transports == [] && delivered == []
    {
      lifecycle, attempts, transports, delivered, interventions := Disconnected, [], [], [], 0;
    }

    /** A listener or other callback of the owner runs; it may disconnect or fail the connection. */
    method Callback(ghost closing: Option<TransportId>)
      requires Sound(closing) && (closing.Some? ==> lifecycle.Disconnected?)
      modifies this
      ensures Sound(closing) && Later(old(attempts), attempts)
      ensures if lifecycle == old(lifecycle) then attempts == old(attempts) && transports == old(transports)
              else lifecycle == Disconnected && attempts == Ended(old(attempts), old(lifecycle))
                   && transports == Closed(old(transports), old(lifecycle))
      ensures old(interventions) <= interventions && delivered == old(delivered)
      ensures interventions == old(interventions) ==> lifecycle == old(lifecycle)
      decreases Alive(), 2
    {
      var disconnects: bool := *;
      if disconnects && !lifecycle.Disconnected? {
        interventions := interventions + 1;
        FailAndClose();
      }
    }

    method Tell(id: AttemptId, note: Note)
      requires id < |attempts|
      modifies this`attempts
      ensures attempts == old(attempts)[id := old(attempts[id]).(notes := old(attempts[id].notes) + [note])]
    {
      attempts := attempts[id := attempts[id].(notes := attempts[id].notes + [note])];
    }

    method Settle(id: AttemptId, outcome: Outcome)
      requires id < |attempts| && outcome != Unsettled
      modifies this`attempts
      ensures attempts == old(attempts)[id := old(attempts[id]).(
                            settles := old(attempts[id].settles) + 1,
                            outcome := if old(attempts[id].outcome) == Unsettled then outcome else old(attempts[id].outcome))]
    {
      var a := attempts[id];
      attempts := attempts[id := a.(settles := a.settles + 1, outcome := if a.outcome == Unsettled then outcome else a.outcome)];
    }

    /** `#fail` */
    method Fail(ghost closing: Option<TransportId>)
      requires AttemptsSound(attempts, lifecycle) && TransportsSound(transports, lifecycle, None)
      requires TransportsSound(transports, Disconnected, closing)
      modifies this
      ensures Sound(closing) && Later(old(attempts), attempts) && lifecycle == Disconnected
      ensures transports == old(transports)
      ensures attempts == if old(lifecycle).Disconnected? then old(attempts) else Ended(old(attempts), old(lifecycle))
      ensures old(interventions) <= interventions && delivered == old(delivered)
      decreases Alive(), 0
    {
      if lifecycle.Disconnected? {
        return;
      }
      var id, pending := lifecycle.id, lifecycle.HandshakePending();
      lifecycle := Disconnected;
      if pending {
        Settle(id, Rejected);
      }
      Tell(id, NowDisconnected);
      Callback(closing);
    }

    /** `#failAndClose` */
    method FailAndClose()
      requires Valid()
      modifies this
      ensures Valid() && Later(old(attempts), attempts) && lifecycle == Disconnected
      ensures attempts == if old(lifecycle).Disconnected? then old(attempts) else Ended(old(attempts), old(lifecycle))
      ensures transports == Closed(old(transports), old(lifecycle))
      ensures old(interventions) <= interventions && delivered == old(delivered)
      decreases Alive(), 1
    {
      var transport :=
        if lifecycle.Connecting? then lifecycle.channel
        else if lifecycle.Connected? then Some(lifecycle.transport)
        else None;
      Fail(transport);
      if transport.Some? {
        transports := transports[transport.value := transports[transport.value].(closed := true)];
      }
    }

    // ---- calls from outside --------------------------------------------------------------------

    method Connect() returns (id: Option<AttemptId>)
      requires Valid()
      modifies this
      ensures Valid() && Later(old(attempts), attempts)
      ensures id.None? <==> !old(lifecycle).Disconnected?
      ensures id.None? ==> attempts == old(attempts) && lifecycle == old(lifecycle) && transports == old(transports)
      ensures id.Some? ==>
                var a := Attempt(0, Unsettled, [NowConnecting], true);
                && id.value == |old(attempts)| && transports == old(transports)
                && (lifecycle == Connecting(id.value, None) || lifecycle == Disconnected)
                && attempts == if lifecycle.Disconnected? then Ended(old(attempts) + [a], Connecting(id.value, None))
                               else old(attempts) + [a]
      ensures delivered == old(delivered)
      ensures id.Some? && interventions == old(interventions) ==> lifecycle == Connecting(id.value, None)
    {
      if !lifecycle.Disconnected? {
        return None;
      }
      var n := |attempts|;
      lifecycle := Connecting(n, None);
      attempts := attempts + [Attempt(0, Unsettled, [NowConnecting], false)];
      Callback(None);
      assert Closed(old(transports), Connecting(n, None)) == old(transports);
      attempts := attempts[n := attempts[n].(opening := true)];
      return Some(n);
    }

    method Disconnect()
      requires Valid()
      modifies this
      ensures Valid() && Later(old(attempts), attempts) && lifecycle == Disconnected
      ensures attempts == if old(lifecycle).Disconnected? then old(attempts) else Ended(old(attempts), old(lifecycle))
      ensures transports == Closed(old(transports), old(lifecycle)) && delivered == old(delivered)
    {
      if !lifecycle.Disconnected? {
        FailAndClose();
      }
    }

    /** The transport factory's promise settles. */
    method TransportOpened(id: AttemptId, ok: bool, reported: bool)
      requires Valid() && id < |attempts| && attempts[id].opening
      modifies this
      ensures Valid() && Later(old(attempts), attempts)
      ensures !old(lifecycle).Current(id) ==>
                lifecycle == old(lifecycle)
                && attempts == old(attempts)[id := old(attempts[id]).(opening := false)]
                && (if ok then transports == old(transports) + [Transport(id, true, reported, [])] else transports == old(transports))
      ensures old(lifecycle).Current(id) ==>
                if ok then lifecycle == Connecting(id, Some(|old(transports)|))
                           && transports == old(transports) + [Transport(id, false, reported, [ClientHello])]
                else lifecycle == Disconnected && transports == old(transports)
                     && attempts == Ended(old(attempts)[id := old(attempts[id]).(opening := false)], old(lifecycle))
      ensures old(lifecycle).Current(id) && ok ==> attempts == old(attempts)[id := old(attempts[id]).(opening := false)]
      ensures delivered == old(delivered)
    {
      attempts := attempts[id := attempts[id].(opening := false)];
      if !ok {
        if lifecycle.Current(id) {
          Fail(None);
        }
        return;
      }
      var t := |transports|;
      if !lifecycle.Connecting? || lifecycle.id != id {
        transports := transports + [Transport(id, true, reported, [])];
        return;
      }
      transports := transports + [Transport(id, false, reported, [ClientHello])];
      lifecycle := Connecting(id, Some(t));
    }

    /** Sending the client hello failed, or the transport reports an error. */
    method TransportFailed(id: AttemptId)
      requires Valid()
      modifies this
      ensures Valid() && Later(old(attempts), attempts)
      ensures !old(lifecycle).Current(id) ==>
                lifecycle == old(lifecycle) && attempts == old(attempts) && transports == old(transports)
      ensures old(lifecycle).Current(id) ==>
                lifecycle == Disconnected && attempts == Ended(old(attempts), old(lifecycle))
                && transports == Closed(old(transports), old(lifecycle))
      ensures delivered == old(delivered)
    {
      if lifecycle.Current(id) {
        FailAndClose();
      }
    }

    /** The transport of an attempt, if it has one already, reports that it is closing. */
    method TransportClosed(id: AttemptId, t: Option<TransportId>)
      requires Valid() && (t.Some? ==> t.value < |transports| && transports[t.value].attempt == id)
      requires lifecycle.Current(id) && lifecycle.Connected? ==> t == Some(lifecycle.transport)
      requires lifecycle.Current(id) && lifecycle.Connecting? ==> t == lifecycle.channel
      modifies this
      ensures Valid() && Later(old(attempts), attempts)
      ensures !old(lifecycle).Current(id) ==> lifecycle == old(lifecycle) && attempts == old(attempts)
      ensures old(lifecycle).Current(id) ==> lifecycle == Disconnected && attempts == Ended(old(attempts), old(lifecycle))
      ensures transports == if t.None? then old(transports)
                            else old(transports)[t.value := old(transports[t.value]).(reported := true)]
      ensures delivered == old(delivered)
    {
      if t.Some? {
        transports := transports[t.value := transports[t.value].(reported := true)];
      }
      if lifecycle.Current(id) {
        Fail(None);
      }
    }

    /** Data of an attempt's transport: `messages` decodes it, or nothing does. Unless a callback interferes,
        the owner is given every payload up to the first message out of place, which ends the attempt. */
    method HandleData(id: AttemptId, messages: Option<seq<Message>>)
      requires Valid()
      modifies this
      ensures Valid() && Later(old(attempts), attempts) && old(interventions) <= interventions
      ensures !old(lifecycle).Current(id) ==>
                lifecycle == old(lifecycle) && attempts == old(attempts) && transports == old(transports) && delivered == old(delivered)
      ensures old(lifecycle).Current(id) && (messages.None? || (old(lifecycle).Connecting? && old(lifecycle).channel.None?)) ==>
                lifecycle == Disconnected && attempts == Ended(old(attempts), old(lifecycle))
                && transports == Closed(old(transports), old(lifecycle)) && delivered == old(delivered)
      ensures lifecycle.Connected? && old(lifecycle).Connecting? && old(lifecycle).id == id ==>
                messages.Some? && messages.value != [] && messages.value[0] == Hello(true)
      ensures var taken := old(lifecycle).Current(id) && messages.Some? && (old(lifecycle).Connecting? ==> old(lifecycle).channel.Some?);
              taken ==>
                && delivered <= old(delivered) + Given(old(lifecycle), messages.value)
                && (lifecycle.Disconnected? || Welcome(old(lifecycle), messages.value))
                && (interventions == old(interventions) ==>
                      && delivered == old(delivered) + Given(old(lifecycle), messages.value)
                      && (lifecycle.Disconnected? <==> !Welcome(old(lifecycle), messages.value)))
    {
      if !lifecycle.Current(id) {
        return;
      }
      if (lifecycle.Connecting? && lifecycle.channel.None?) || messages.None? {
        FailAndClose();
        return;
      }
      HandleMessages(messages.value);
    }

    /** `delivered` is what the owner is given of these messages, as far as it goes on listening. */
    ghost predicate Handled(before: seq<nat>, started: Lifecycle, messages: seq<Message>, undisturbed: bool)
      reads this
    {
      && delivered <= before + Given(started, messages)
      && (lifecycle.Disconnected? || Welcome(started, messages))
      && (undisturbed ==> delivered == before + Given(started, messages) && (lifecycle.Disconnected? <==> !Welcome(started, messages)))
    }

    method HandleMessages(messages: seq<Message>)
      requires Valid() && !lifecycle.Disconnected? && (lifecycle.Connecting? ==> lifecycle.channel.Some?)
      modifies this
      ensures Valid() && Later(old(attempts), attempts) && old(interventions) <= interventions
      ensures lifecycle.Connected? && old(lifecycle).Connecting? ==> messages != [] && messages[0] == Hello(true)
      ensures Handled(old(delivered), old(lifecycle), messages, interventions == old(interventions))
    {
      hide Given, Welcome, AttemptsSound, TransportsSound, Ended, Closed;
      var i := 0;
      assert messages[0..] == messages;
      while i < |messages| && !lifecycle.Disconnected?
        invariant Valid() && Later(old(attempts), attempts) && old(interventions) <= interventions
        invariant 0 <= i <= |messages|
        invariant if i == 0 then lifecycle == old(lifecycle) else !lifecycle.Connecting?
        invariant i > 0 && old(lifecycle).Connecting? && lifecycle.Connected? ==> messages[0] == Hello(true)
        invariant lifecycle.Disconnected? ==>
                    Handled(old(delivered), old(lifecycle), messages, interventions == old(interventions))
        invariant !lifecycle.Disconnected? ==>
                    && delivered + Given(lifecycle, messages[i..]) == old(delivered) + Given(old(lifecycle), messages)
                    && (Welcome(lifecycle, messages[i..]) <==> Welcome(old(lifecycle), messages))
      {
        ghost var before, given, started := attempts, delivered, lifecycle;
        assert messages[i..][0] == messages[i] && messages[i..][1..] == messages[i + 1..];
        HandleMessage(messages[i]);
        LaterComposes(old(attempts), before, attempts);
        OneMessage(started, if lifecycle.Connected? then lifecycle else Connected(0, 0, false), messages[i..]);
        assert delivered == given + Content(started, messages[i]);
        assert given + Given(started, messages[i..]) == old(delivered) + Given(old(lifecycle), messages);
        i := i + 1;
      }
      assert i == |messages| ==> messages[i..] == [];
      NoMessages(lifecycle);
    }

    method HandleMessage(m: Message)
      requires Valid() && !lifecycle.Disconnected?
      modifies this
      ensures Valid() && Later(old(attempts), attempts) && old(interventions) <= interventions
      ensures lifecycle.Disconnected? || (lifecycle.Connected? && lifecycle.id == old(lifecycle).id)
      ensures lifecycle.Connected? && lifecycle.pending ==> lifecycle == old(lifecycle)
      ensures old(lifecycle).Connecting? && !lifecycle.Disconnected? ==>
                m == Hello(true) && old(lifecycle).channel == Some(lifecycle.transport) && attempts[lifecycle.id].outcome == Resolved
      ensures old(lifecycle).Connected? && !lifecycle.Disconnected? ==> m.Other? && attempts == old(attempts) && lifecycle == old(lifecycle)
      ensures interventions == old(interventions) && old(lifecycle).Connecting? && old(lifecycle).channel.Some? && m == Hello(true) ==>
                lifecycle == Connected(old(lifecycle).id, old(lifecycle).channel.value, false)
      ensures interventions == old(interventions) && old(lifecycle).Connected? && m.Other? ==> lifecycle == old(lifecycle)
      ensures transports == if lifecycle.Disconnected? then Closed(old(transports), old(lifecycle)) else old(transports)
      ensures delivered == old(delivered) + Content(old(lifecycle), m)
      ensures lifecycle.Disconnected? || Expected(old(lifecycle), m)
      ensures interventions == old(interventions) && (old(lifecycle).Connecting? ==> old(lifecycle).channel.Some?) ==>
                (lifecycle.Disconnected? <==> !Expected(old(lifecycle), m))
    {
      if lifecycle.Connecting? {
        if m != Hello(true) || lifecycle.channel.None? {
          FailAndClose();
          return;
        }
        Accept();
        return;
      }
      if !m.Other? {
        FailAndClose();
        return;
      }
      delivered := delivered + [m.content];
      assert lifecycle.Connected?;
      Callback(None);
    }

    /** The server's hello: the owner and the listener are told before the promise is resolved, and each
        of them may disconnect instead. */
    method Accept()
      requires Valid() && lifecycle.Connecting? && lifecycle.channel.Some?
      modifies this
      ensures Valid() && Later(old(attempts), attempts) && delivered == old(delivered)
      ensures lifecycle.Disconnected? || (lifecycle.Connected? && lifecycle.id == old(lifecycle).id && !lifecycle.pending)
      ensures transports == if lifecycle.Disconnected? then Closed(old(transports), old(lifecycle)) else old(transports)
      ensures !lifecycle.Disconnected? ==>
                attempts[lifecycle.id].outcome == Resolved && old(lifecycle).channel == Some(lifecycle.transport)
      ensures old(interventions) <= interventions
      ensures interventions == old(interventions) ==>
                lifecycle == Connected(old(lifecycle).id, old(lifecycle).channel.value, false)
                && attempts[lifecycle.id].notes == [NowConnecting, NowConnected]
    {
      var id, t := lifecycle.id, lifecycle.channel.value;
      lifecycle := Connected(id, t, true);
      ghost var start := attempts;
      Callback(None);
      var throws: bool := *;
      if throws {
        interventions := interventions + 1;
      }
      if throws && !lifecycle.Disconnected? {
        FailAndClose();
      }
      if throws || lifecycle.Disconnected? {
        return;
      }
      ghost var accepted := attempts;
      Announce();
      LaterComposes(start, accepted, attempts);
    }

    /** The listener is told, and if it leaves the connection alone the promise is resolved. */
    method Announce()
      requires Valid() && lifecycle.Connected? && lifecycle.pending && attempts[lifecycle.id].notes == [NowConnecting]
      modifies this
      ensures Valid() && Later(old(attempts), attempts) && old(interventions) <= interventions && delivered == old(delivered)
      ensures lifecycle.Disconnected? || lifecycle == old(lifecycle).(pending := false)
      ensures transports == if lifecycle.Disconnected? then Closed(old(transports), old(lifecycle)) else old(transports)
      ensures !lifecycle.Disconnected? ==>
                attempts[lifecycle.id].outcome == Resolved && attempts[lifecycle.id].notes == [NowConnecting, NowConnected]
      ensures interventions == old(interventions) ==> !lifecycle.Disconnected?
    {
      var id, t := lifecycle.id, lifecycle.transport;
      Tell(id, NowConnected);
      ghost var told := attempts;
      Callback(None);
      LaterComposes(old(attempts), told, attempts);
      if lifecycle.Disconnected? {
        return;
      }
      lifecycle := Connected(id, t, false);
      Settle(id, Resolved);
    }

    /** `send`: false stands for the error of a connection that is not connected. */
    method Send(content: nat, fails: bool) returns (connected: bool)
      requires Valid()
      modifies this
      ensures Valid() && Later(old(attempts), attempts) && (connected <==> old(lifecycle).Connected?) && delivered == old(delivered)
      ensures !connected ==> lifecycle == old(lifecycle) && attempts == old(attempts) && transports == old(transports)
      ensures connected && !fails ==>
                var t := old(lifecycle).transport;
                && lifecycle == old(lifecycle) && attempts == old(attempts)
                && transports == old(transports)[t := old(transports[t]).(sent := old(transports[t].sent) + [Payload(content)])]
      ensures connected && fails ==>
                lifecycle == Disconnected && attempts == Ended(old(attempts), old(lifecycle))
                && transports == Closed(old(transports), old(lifecycle))
    {
      connected := lifecycle.Connected?;
      if !connected {
        return;
      }
      if fails {
        FailAndClose();
        return;
      }
      var t := lifecycle.transport;
      transports := transports[t := transports[t].(sent := transports[t].sent + [Payload(content)])];
    }

    /** An earlier send on a transport fails: it matters only while that transport is in use. */
    method SendFailed(t: TransportId)
      requires Valid()
      modifies this
      ensures Valid() && Later(old(attempts), attempts) && delivered == old(delivered)
      ensures !old(lifecycle).Uses(t) ==>
                lifecycle == old(lifecycle) && attempts == old(attempts) && transports == old(transports)
      ensures old(lifecycle).Uses(t) ==>
                lifecycle == Disconnected && attempts == Ended(old(attempts), old(lifecycle))
                && transports == Closed(old(transports), old(lifecycle))
    {
      if lifecycle.Uses(t) {
        FailAndClose();
      }
    }

    // ---- a whole life --------------------------------------------------------------------------

    /** When nothing is connected or being connected, every promise has settled exactly once, every listener
        was told so last, and every transport that was ever opened is closed or has reported closing. */
    lemma DisconnectedIsFinal()
      requires Valid() && lifecycle.Disconnected?
      ensures AllOver(attempts, transports)
    {
      forall id | 0 <= id < |attempts| ensures Over(attempts[id]) {
        assert AttemptSound(id, attempts[id], lifecycle);
      }
    }

    /** One event, if it can happen now: only an attempt that is opening is given a transport, and a transport
        that closes is the one the attempt has. */
    method Handle(e: Event)
      requires Valid()
      modifies this
      ensures Valid() && Later(old(attempts), attempts)
    {
      match e {
        case Connects => var _ := Connect();
        case Disconnects => Disconnect();
        case Opens(id, ok, reported) =>
          if id < |attempts| && attempts[id].opening {
            TransportOpened(id, ok, reported);
          }
        case Fails(id) => TransportFailed(id);
        case Closes(id, t) =>
          if && (t.Some? ==> t.value < |transports| && transports[t.value].attempt == id)
             && (lifecycle.Current(id) && lifecycle.Connected? ==> t == Some(lifecycle.transport))
             && (lifecycle.Current(id) && lifecycle.Connecting? ==> t == lifecycle.channel)
          {
            TransportClosed(id, t);
          }
        case Data(id, messages) => HandleData(id, messages);
        case Sends(content, fails) => var _ := Send(content, fails);
        case SendFails(t) => SendFailed(t);
      }
    }

    /** Whatever happens, in any order and with listeners that disconnect from inside any notification: what
        was settled and told stays so, and whenever the connection is down everything is over. */
    method Run(events: seq<Event>)
      requires Valid()
      modifies this
      ensures Valid() && Later(old(attempts), attempts)
      ensures lifecycle.Disconnected? ==> AllOver(attempts, transports)
    {
      for i := 0 to |events|
        invariant Valid() && Later(old(attempts), attempts)
      {
        ghost var before := attempts;
        Handle(events[i]);
        LaterComposes(old(attempts), before, attempts);
      }
      if lifecycle.Disconnected? {
        DisconnectedIsFinal();
      }
    }
  }

  /** What the owner and the environment can do. */
  datatype Event =
    | Connects
    | Disconnects
    | Opens(id: AttemptId, ok: bool, reported: bool)
    | Fails(id: AttemptId)
    | Closes(id: AttemptId, ended: Option<TransportId>)
    | Data(id: AttemptId, messages: Option<seq<Message>>)
    | Sends(content: nat, fails: bool)
    | SendFails(transport: TransportId)

  /** The promise was settled exactly once, and the listener heard of connecting first, perhaps of being
      connected, and of being disconnected last. */
  predicate Over(a: Attempt) {
    && a.settles == 1 && a.outcome != Unsettled
    && (a.notes == [NowConnecting, NowDisconnected] || a.notes == [NowConnecting, NowConnected, NowDisconnected])
    && (a.outcome == Resolved ==> NowConnected in a.notes)
  }

  predicate AllOver(attempts: seq<Attempt>, transports: seq<Transport>) {
    && (forall id {:trigger attempts[id]} :: 0 <= id < |attempts| ==> Over(attempts[id]))
    && forall t {:trigger transports[t]} :: 0 <= t < |transports| ==> transports[t].closed || transports[t].reported
  }

  /** A connection's whole life. */
  method Life(events: seq<Event>) returns (c: Connection)
    ensures fresh(c) && c.Valid()
    ensures c.lifecycle.Disconnected? ==> AllOver(c.attempts, c.transports)
  {
    c := new Connection();
    c.Run(events);
  }
}
