/** One service subscription between a server connection and its client, over a FIFO channel that also
    carries any other traffic. The state codec is a pair of step counters: the decoder accepts a message
    only if it is the next one the encoder produced. */
module SubscriptionSpec {
  import opened Wrappers

  type Update = nat

  /** What the server puts on the wire. `Answer` is the response to the subscribe request: the encoded
      snapshot, or an error. */
  datatype Message =
    | Answer(snapshot: Option<nat>)
    | Changed(step: nat, update: Update)
    | Other

  // ---- server ----------------------------------------------------------------------------------

  /** Where the subscribe request's handler is: each constructor but the first and the last two is an
      await it has not come back from. */
  datatype Gate = Idle | Invoking | Responding | Draining | Passing | Refused

  datatype Server = Server(gate: Gate, pending: seq<Update>, encoder: Option<nat>, disconnected: bool)

  datatype Channel = Channel(messages: seq<Message>, broken: bool)

  /** `sendMessage`: nothing goes out once the connection is gone. */
  function Send(channel: Channel, disconnected: bool, m: Message): Channel {
    if channel.broken || disconnected then channel else channel.(messages := channel.messages + [m])
  }

  /** `sendServiceUpdate`: without an encoder the update is dropped. */
  function SendUpdate(server: Server, channel: Channel, u: Update): (Server, Channel) {
    match server.encoder
    case None => (server, channel)
    case Some(step) => (server.(encoder := Some(step + 1)), Send(channel, server.disconnected, Changed(step, u)))
  }

  /** The handler's `publish`: held back until the drain is over. */
  function Publish(server: Server, channel: Channel, u: Update): (Server, Channel) {
    if server.gate == Passing then SendUpdate(server, channel, u)
    else (server.(pending := server.pending + [u]), channel)
  }

  function Answered(server: Server, channel: Channel, ok: bool): (Server, Channel) {
    if ok then
      (server.(gate := Responding, encoder := Some(1)), Send(channel, server.disconnected, Answer(Some(0))))
    else
      (server.(gate := Refused), Send(channel, server.disconnected, Answer(None)))
  }

  /** The loop head of the drain: send one more and wait, or open the gate. */
  function Drain(server: Server, channel: Channel): (Server, Channel) {
    if server.pending == [] then (server.(gate := Passing), channel)
    else SendUpdate(server.(gate := Draining, pending := server.pending[1..]), channel, server.pending[0])
  }

  // ---- client ----------------------------------------------------------------------------------

  datatype Promise = Unsettled | Resolved | Rejected

  datatype Phase = Awaiting | Failed | Subscribed | Disposing | Disposed

  /** The subscription as the client sees it. `registered` is its entry in the listener map and `awaited`
      the pending request's; `decoder` is None until the snapshot is decoded; `delivered` are the updates
      the listener has been called with; `broke` records a decoding failure or an unmatched response. */
  datatype Client = Client(connected: bool, registered: bool, awaited: bool, promise: Promise, phase: Phase,
                           decoder: Option<nat>, ready: bool, queuedWire: seq<Message>, queued: seq<Update>,
                           tail: seq<Update>, running: bool, delivered: seq<Update>, broke: bool)

  function Settle(p: Promise, outcome: Promise): Promise {
    if p == Unsettled then outcome else p
  }

  function Disconnected(c: Client): Client {
    c.(connected := false, registered := false, awaited := false, promise := Settle(c.promise, Rejected))
  }

  function Fail(c: Client): Client {
    Disconnected(c).(broke := true)
  }

  /** How many of the wire updates decode, counting from `step`. */
  function Decodable(step: nat, wire: seq<Message>): (n: nat)
    ensures n <= |wire|
    decreases |wire|
  {
    if wire == [] || !wire[0].Changed? || wire[0].step != step then 0
    else 1 + Decodable(step + 1, wire[1..])
  }

  /** The updates among the messages. */
  function Updates(messages: seq<Message>): seq<Update>
    decreases |messages|
  {
    if messages == [] then []
    else (if messages[0].Changed? then [messages[0].update] else []) + Updates(messages[1..])
  }

  /** `pending.resolve`: decode the snapshot, then everything that came before it. */
  function Hydrate(c: Client, snapshot: nat): Client {
    if snapshot != 0 then Fail(c)
    else
      var n := Decodable(1, c.queuedWire);
      var hydrated := c.(decoder := Some(1 + n), queuedWire := [], queued := c.queued + Updates(c.queuedWire[..n]));
      if n < |c.queuedWire| then Fail(hydrated) else hydrated.(promise := Settle(c.promise, Resolved))
  }

  function Receive(c: Client, m: Message): Client {
    match m
    case Other => c
    case Answer(snapshot) =>
      if !c.awaited then Fail(c)
      else
        var c := c.(awaited := false);
        if snapshot.None? then c.(promise := Settle(c.promise, Rejected))
        else Hydrate(c, snapshot.value)
    case Changed(step, u) =>
      if !c.registered then c
      else if c.decoder.None? then c.(queuedWire := c.queuedWire + [m])
      else if c.decoder.value != step then Fail(c)
      else if c.ready then c.(decoder := Some(step + 1), tail := c.tail + [u])
      else c.(decoder := Some(step + 1), queued := c.queued + [u])
  }

  /** `subscribeService` continues after its await. */
  function Continue(c: Client): Client {
    if c.promise == Resolved && c.registered then c.(phase := Subscribed)
    else c.(phase := Failed, registered := false)
  }

  function Start(c: Client): Client {
    if c.phase != Subscribed || c.ready then c
    else c.(ready := true, tail := c.tail + c.queued, queued := [])
  }

  // ---- both together ---------------------------------------------------------------------------

  /** `published` is everything the provider has published, `taken` the number of encoded updates the
      client has taken off the channel. */
  datatype System = System(server: Server, channel: Channel, client: Client,
                           published: seq<Update>, taken: nat, unsubscribed: bool)

  function Initial(): System {
    System(Server(Idle, [], None, false), Channel([], false),
           Client(true, true, true, Unsettled, Awaiting, None, false, [], [], [], false, [], false),
           [], 0, false)
  }

  datatype Event =
    // server
    | RequestArrives
    | Published(update: Update)
    | Invoked(ok: bool)
    | SendSettles
    | UnsubscribeArrives
    | ServerDisconnects
    | OtherSent
    | ChannelBreaks
    // client
    | MessageArrives
    | Aborted
    | RequestSettles
    | Started
    | DisposeCalled(unsubscribe: bool)
    | DisposeFinishes
    | ListenerRuns
    | ListenerReturns
    | ClientDisconnects

  predicate Enabled(s: System, e: Event) {
    match e
    case RequestArrives => s.server.gate == Idle && !s.server.disconnected
    case Published(_) => s.server.gate != Idle
    case Invoked(_) => s.server.gate == Invoking
    case SendSettles => s.server.gate == Responding || s.server.gate == Draining
    case UnsubscribeArrives => s.unsubscribed
    case MessageArrives => s.client.connected && s.channel.messages != []
    case RequestSettles => s.client.phase == Awaiting && s.client.promise != Unsettled
    case DisposeCalled(_) => s.client.phase == Subscribed
    case DisposeFinishes => s.client.phase == Disposing
    case ListenerRuns => s.client.tail != [] && !s.client.running
    case ListenerReturns => s.client.running
    case _ => true
  }

  function At(s: System, next: (Server, Channel)): System {
    s.(server := next.0, channel := next.1)
  }

  function Next(s: System, e: Event): System
    requires Enabled(s, e)
  {
    match e
    case RequestArrives => s.(server := s.server.(gate := Invoking))
    case Published(u) => At(s, Publish(s.server, s.channel, u)).(published := s.published + [u])
    case Invoked(ok) => At(s, Answered(s.server, s.channel, ok))
    case SendSettles => At(s, Drain(s.server, s.channel))
    case UnsubscribeArrives => s.(server := s.server.(encoder := None))
    case ServerDisconnects => s.(server := s.server.(encoder := None, disconnected := true))
    case OtherSent => s.(channel := Send(s.channel, s.server.disconnected, Other))
    case ChannelBreaks => s.(channel := s.channel.(broken := true))
    case MessageArrives =>
      var m := s.channel.messages[0];
      s.(client := Receive(s.client, m), channel := s.channel.(messages := s.channel.messages[1..]),
         taken := if m.Changed? then s.taken + 1 else s.taken)
    case Aborted => s.(client := s.client.(promise := Settle(s.client.promise, Rejected)))
    case RequestSettles => s.(client := Continue(s.client))
    case Started => s.(client := Start(s.client))
    case DisposeCalled(unsubscribe) =>
      s.(client := s.client.(phase := Disposing, registered := false),
         unsubscribed := s.unsubscribed || (unsubscribe && s.client.connected))
    case DisposeFinishes => s.(client := s.client.(phase := Disposed, queuedWire := [], queued := []))
    case ListenerRuns =>
      s.(client := s.client.(delivered := s.client.delivered + [s.client.tail[0]], tail := s.client.tail[1..],
                             running := true))
    case ListenerReturns => s.(client := s.client.(running := false))
    case ClientDisconnects => s.(client := Disconnected(s.client))
  }

  function Execute(s: System, events: seq<Event>): Option<System>
    decreases |events|
  {
    if events == [] then Some(s)
    else if Enabled(s, events[0]) then Execute(Next(s, events[0]), events[1..])
    else None
  }

  predicate Reaches(events: seq<Event>, s: System) {
    Execute(Initial(), events) == Some(s)
  }

  // ---- what the state accounts for -------------------------------------------------------------

  /** What has got as far as the client's listener, its delivery chain or its queue. */
  function Accepted(c: Client): seq<Update> {
    c.delivered + c.tail + c.queued
  }

  /** The server can no longer put an update on the wire. */
  predicate Cut(server: Server, channel: Channel) {
    || channel.broken || server.disconnected
    || (server.encoder.None? && (server.gate == Responding || server.gate == Draining || server.gate == Passing))
  }

  /** Nothing but the subscription's own life can have lost an update. */
  predicate Intact(s: System) {
    !Cut(s.server, s.channel) && s.client.connected && s.client.registered
  }
}
