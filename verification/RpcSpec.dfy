/** Requests and responses between a client and the server over its successive connections. Each
    connection is a pair of FIFO channels; the server may work on any number of requests at once and
    answer them in any order; requests may be aborted and cancelled and connections may fail at any time. */
module RpcSpec {
  import opened Wrappers

  /** Requests are numbered by the client and never reuse a number, not even on a new connection. */
  type RequestId = nat
  type ConnectionId = nat

  datatype Upstream = Request(id: RequestId, valid: bool) | Cancel(id: RequestId)

  /** What a call comes to. */
  datatype CallResult = Returned(value: nat) | Threw(error: nat)

  datatype Failure = AlreadyActive | InvalidCall | Cancelled | CallFailed(error: nat)

  /** What the server answers. */
  datatype Outcome = Succeeded(value: nat) | Failed(failure: Failure)

  datatype Downstream = Response(id: RequestId, outcome: Outcome) | Other

  // ---- one connection and the server's end of it -----------------------------------------------

  datatype Work = Working | Responding | Done

  /** One run of `handleRequest`, with its abort signal and what it has come to. */
  datatype Handler = Handler(id: RequestId, work: Work, cancelled: bool, outcome: Option<Outcome>)

  /** `received` are the request envelopes the server has taken, `answered` the responses it has sent. */
  datatype Connection = Connection(upstream: seq<Upstream>, downstream: seq<Downstream>, handlers: seq<Handler>,
                                   activeRequests: map<RequestId, nat>, disconnected: bool, broken: bool,
                                   received: seq<RequestId>, answered: seq<RequestId>)
  {
    predicate Lost() {
      disconnected || broken
    }
  }

  function NewConnection(): Connection {
    Connection([], [], [], map[], false, false, [], [])
  }

  function Respond(c: Connection, id: RequestId, outcome: Outcome): Connection {
    if c.Lost() then c
    else c.(downstream := c.downstream + [Response(id, outcome)], answered := c.answered + [id])
  }

  function Refuse(c: Connection, id: RequestId, failure: Failure): Connection {
    Respond(c, id, Failed(failure)).(handlers := c.handlers + [Handler(id, Done, false, Some(Failed(failure)))])
  }

  function HandleRequest(c: Connection, id: RequestId, valid: bool): Connection {
    var c := c.(received := c.received + [id]);
    if id in c.activeRequests then Refuse(c, id, AlreadyActive)
    else if !valid then Refuse(c, id, InvalidCall)
    else
      c.(handlers := c.handlers + [Handler(id, Working, false, None)],
         activeRequests := c.activeRequests[id := |c.handlers|])
  }

  function HandleCancel(c: Connection, id: RequestId): Connection {
    if id in c.activeRequests && c.activeRequests[id] < |c.handlers| then
      var k := c.activeRequests[id];
      c.(handlers := c.handlers[k := c.handlers[k].(cancelled := true)])
    else c
  }

  function TakeUpstream(c: Connection): Connection
    requires c.upstream != []
  {
    var rest := c.(upstream := c.upstream[1..]);
    match c.upstream[0]
    case Request(id, valid) => HandleRequest(rest, id, valid)
    case Cancel(id) => HandleCancel(rest, id)
  }

  /** A call that fails after its signal was aborted counts as cancelled. */
  function Conclusion(h: Handler, result: CallResult): Outcome {
    match result
    case Returned(value) => Succeeded(value)
    case Threw(error) => Failed(if h.cancelled then Cancelled else CallFailed(error))
  }

  /** The call has succeeded or failed: one response either way. */
  function FinishWork(c: Connection, k: nat, result: CallResult): Connection
    requires k < |c.handlers|
  {
    var h := c.handlers[k];
    var outcome := Conclusion(h, result);
    Respond(c, h.id, outcome).(handlers := c.handlers[k := h.(work := Responding, outcome := Some(outcome))])
  }

  /** Aborts what is active. */
  function AbortActive(handlers: seq<Handler>, active: map<RequestId, nat>): seq<Handler> {
    seq(|handlers|, k requires 0 <= k < |handlers| =>
      if handlers[k].id in active && active[handlers[k].id] == k then handlers[k].(cancelled := true) else handlers[k])
  }

  function DisconnectServer(c: Connection): Connection {
    c.(disconnected := true, handlers := AbortActive(c.handlers, c.activeRequests), activeRequests := map[])
  }

  /** `handleRequest` returns; if sending what came after the response failed, the connection goes. */
  function ReturnWork(c: Connection, k: nat, ok: bool): Connection
    requires k < |c.handlers|
  {
    var id := c.handlers[k].id;
    var closed := if ok then c else DisconnectServer(c);
    closed.(handlers := closed.handlers[k := closed.handlers[k].(work := Done)],
            activeRequests := if id in closed.activeRequests && closed.activeRequests[id] == k
                              then closed.activeRequests - {id} else closed.activeRequests)
  }

  function SendUp(c: Connection, m: Upstream): Connection {
    if c.Lost() then c else c.(upstream := c.upstream + [m])
  }

  // ---- client ----------------------------------------------------------------------------------

  datatype Reason = ByServer(failure: Failure) | BadResult | Aborted | Disconnected | NotEncoded

  datatype Promise = Unsettled | Resolved(value: nat) | Rejected(reason: Reason)

  /** `valid` says that the server will be able to parse the call. */
  datatype Pending = Pending(connection: ConnectionId, valid: bool, promise: Promise, aborted: bool)

  /** `requests` are all the requests so far, `pending` the numbers in the pending map; `unmatched`
      records the "Response has no matching request" failure. */
  datatype Client = Client(requests: seq<Pending>, pending: set<RequestId>, current: Option<ConnectionId>,
                           disposed: bool, unmatched: bool)

  function Settle(p: Promise, outcome: Promise): Promise {
    if p == Unsettled then outcome else p
  }

  function SettleRequest(c: Client, id: RequestId, outcome: Promise): Client
    requires id < |c.requests|
  {
    c.(requests := c.requests[id := c.requests[id].(promise := Settle(c.requests[id].promise, outcome))])
  }

  /** `rejectPendingRequests` */
  function RejectPending(c: Client): Client {
    c.(pending := {},
       requests := seq(|c.requests|, i requires 0 <= i < |c.requests| =>
         if i in c.pending then c.requests[i].(promise := Settle(c.requests[i].promise, Rejected(Disconnected))) else c.requests[i]))
  }

  function DisconnectClient(c: Client): Client {
    RejectPending(c).(current := None)
  }

  /** A response: `good` says that the request's transform accepts the result. */
  function TakeResponse(c: Client, id: RequestId, outcome: Outcome, good: bool): Client {
    if id !in c.pending || id >= |c.requests| then DisconnectClient(c).(unmatched := true)
    else
      var taken := c.(pending := c.pending - {id});
      match outcome
      case Failed(failure) => SettleRequest(taken, id, Rejected(ByServer(failure)))
      case Succeeded(value) =>
        if good then SettleRequest(taken, id, Resolved(value))
        else SettleRequest(DisconnectClient(taken), id, Rejected(BadResult))
  }

  // ---- both together ---------------------------------------------------------------------------

  datatype System = System(client: Client, connections: seq<Connection>)

  function Initial(): System {
    System(Client([], {}, None, false, false), [])
  }

  datatype Event =
    // client
    | Connects
    | Requests(encodes: bool, valid: bool)
    | Aborts(id: RequestId)
    | MessageArrives(good: bool)
    | ClientDisconnects(dispose: bool)
    // server, on any connection it still has
    | EnvelopeArrives(connection: ConnectionId)
    | WorkFinishes(connection: ConnectionId, handler: nat, result: CallResult)
    | WorkReturns(connection: ConnectionId, handler: nat, ok: bool)
    | OtherSent(connection: ConnectionId)
    | ServerDisconnects(connection: ConnectionId)
    | Breaks(connection: ConnectionId)

  predicate Connected(s: System) {
    s.client.current.Some? && s.client.current.value < |s.connections|
  }

  predicate Enabled(s: System, e: Event) {
    match e
    case Connects => s.client.current.None? && !s.client.disposed
    case Requests(_, _) => Connected(s) && !s.client.disposed
    case Aborts(id) => Connected(s) && id in s.client.pending && id < |s.client.requests| && !s.client.requests[id].aborted
    case MessageArrives(_) => Connected(s) && s.connections[s.client.current.value].downstream != []
    case ClientDisconnects(_) => true
    case EnvelopeArrives(n) =>
      n < |s.connections| && !s.connections[n].disconnected && s.connections[n].upstream != []
    case WorkFinishes(n, k, _) =>
      n < |s.connections| && k < |s.connections[n].handlers| && s.connections[n].handlers[k].work == Working
    case WorkReturns(n, k, _) =>
      n < |s.connections| && k < |s.connections[n].handlers| && s.connections[n].handlers[k].work == Responding
    case OtherSent(n) => n < |s.connections| && !s.connections[n].Lost()
    case ServerDisconnects(n) => n < |s.connections|
    case Breaks(n) => n < |s.connections|
  }

  function Update(s: System, n: ConnectionId, c: Connection): System
    requires n < |s.connections|
  {
    s.(connections := s.connections[n := c])
  }

  function Next(s: System, e: Event): System
    requires Enabled(s, e)
  {
    match e
    case Connects =>
      s.(client := s.client.(current := Some(|s.connections|)), connections := s.connections + [NewConnection()])
    case Requests(encodes, valid) =>
      var n := s.client.current.value;
      var id := |s.client.requests|;
      if !encodes then
        s.(client := s.client.(requests := s.client.requests + [Pending(n, valid, Rejected(NotEncoded), false)]))
      else
        Update(s, n, SendUp(s.connections[n], Request(id, valid))).(
          client := s.client.(requests := s.client.requests + [Pending(n, valid, Unsettled, false)],
                              pending := s.client.pending + {id}))
    case Aborts(id) =>
      var n := s.client.current.value;
      var settled := SettleRequest(s.client, id, Rejected(Aborted));
      Update(s, n, SendUp(s.connections[n], Cancel(id))).(
        client := settled.(requests := settled.requests[id := settled.requests[id].(aborted := true)]))
    case MessageArrives(good) =>
      var n := s.client.current.value;
      var c := s.connections[n];
      var m := c.downstream[0];
      Update(s, n, c.(downstream := c.downstream[1..])).(
        client := if m.Other? then s.client else TakeResponse(s.client, m.id, m.outcome, good))
    case ClientDisconnects(dispose) =>
      s.(client := DisconnectClient(s.client).(disposed := s.client.disposed || dispose))
    case EnvelopeArrives(n) => Update(s, n, TakeUpstream(s.connections[n]))
    case WorkFinishes(n, k, result) => Update(s, n, FinishWork(s.connections[n], k, result))
    case WorkReturns(n, k, ok) => Update(s, n, ReturnWork(s.connections[n], k, ok))
    case OtherSent(n) =>
      Update(s, n, s.connections[n].(downstream := s.connections[n].downstream + [Other]))
    case ServerDisconnects(n) => Update(s, n, DisconnectServer(s.connections[n]))
    case Breaks(n) => Update(s, n, s.connections[n].(broken := true))
  }

  function Execute(s: System, events: seq<Event>): Option<System>
    decreases |events|
  {
    if events == [] then Some(s)
    else if Enabled(s, events[0]) then Execute(Next(s, events[0]), events[1..])
    else None
  }

  predicate Reaches(events: seq<Event>, s: System) {
    Execute(Initial(), events) == Some(s)
  }

  // ---- where the requests are ------------------------------------------------------------------

  function Bit(b: bool): nat {
    if b then 1 else 0
  }

  /** How many requests with this number are on their way to the server. */
  function Asked(upstream: seq<Upstream>, id: RequestId): nat
    decreases |upstream|
  {
    if upstream == [] then 0
    else Bit(upstream[0].Request? && upstream[0].id == id) + Asked(upstream[1..], id)
  }

  /** How many handlers are working on it. */
  function Underway(handlers: seq<Handler>, id: RequestId): nat
    decreases |handlers|
  {
    if handlers == [] then 0
    else Bit(handlers[0].work == Working && handlers[0].id == id) + Underway(handlers[1..], id)
  }

  /** How many responses to it are on their way to the client. */
  function Replies(downstream: seq<Downstream>, id: RequestId): nat
    decreases |downstream|
  {
    if downstream == [] then 0
    else Bit(downstream[0].Response? && downstream[0].id == id) + Replies(downstream[1..], id)
  }

  function Times(ids: seq<RequestId>, id: RequestId): nat
    decreases |ids|
  {
    if ids == [] then 0 else Bit(ids[0] == id) + Times(ids[1..], id)
  }

  function InFlight(c: Connection, id: RequestId): nat {
    Asked(c.upstream, id) + Underway(c.handlers, id) + Replies(c.downstream, id)
  }
}
