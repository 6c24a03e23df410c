/** What a run of the agent may do: its log of events, queue drains, tool executions and aborts, read by
    an automaton that says which entry may come next. */
module AgentSpec {
  import opened Wrappers

  type CallId = nat

  datatype StopReason = Completed | Length | Error | Aborted

  datatype Outcome = Outcome(content: nat, isError: bool, terminate: bool)

  datatype Message =
    | User(text: nat)
    | Assistant(text: nat, calls: seq<CallId>, stop: StopReason)
    | ToolResult(call: CallId, content: nat, isError: bool)
  {
    /** Its turn ends the run at once. */
    predicate Failed() {
      Assistant? && (stop == Error || stop == Aborted)
    }
  }

  /** The events of the loop. A tool event names its call by position and id, as ids may repeat. */
  datatype Event =
    | AgentStart
    | TurnStart
    | MessageStart(message: Message)
    | MessageUpdate(message: Message)
    | MessageEnd(message: Message)
    | ToolStart(index: nat, call: CallId)
    | ToolUpdate(index: nat, call: CallId)
    | ToolEnd(index: nat, call: CallId, outcome: Outcome)
    | TurnEnd(message: Message, results: seq<Message>)
    | AgentEnd(messages: seq<Message>)

  datatype Source = Steering | FollowUp

  /** Beside the events: a queue was drained, in its mode of that moment, a batch of calls is to be run one
      by one or side by side, a call was prepared for execution, its tool began to execute, the run was
      aborted, `shouldStopAfterTurn` said yes, the first look at the steering queue was left out. */
  datatype Entry =
    | Emit(event: Event)
    | Drain(source: Source, messages: seq<Message>, oneAtATime: bool)
    | Batch(sequential: bool)
    | Prepared(index: nat)
    | Execute(index: nat)
    | Abort
    | StopRequested
    | Skipped

  /** The calls of one reply by position: how many have started, which are running, have been prepared or
      have begun to execute, the outcomes of those that are over, and the result messages so far. */
  datatype Tools = Tools(started: nat, running: set<nat>, prepared: set<nat>, executed: set<nat>,
                         outcomes: map<nat, Outcome>, results: seq<Message>, sequential: bool)

  datatype Phase = Idle | Between | Turn | Injecting | Replying | Replied | Reporting | Ended

  /** `due` are messages that must still enter the transcript, `drained` says that a drain has already
      delivered something since the last reply, `ended` are the messages completed so far; `reply` is the
      last reply and `tools` its tool calls; `more` says that its batch asks for another turn, `asked`
      that the follow-up queue was found empty; `polls` counts the looks at the steering queue since the
      last turn ended; `opening` is what was drained for the first turn, `skipped`
      that it did without a look at the steering queue. */
  datatype Monitor = Monitor(phase: Phase, turns: nat, due: seq<Message>, drained: bool, injected: seq<Message>,
                             ended: seq<Message>, reply: Message, tools: Tools, more: bool, asked: bool, stopped: bool, polls: nat,
                             opening: seq<Message>, skipped: bool)
  {
    predicate Steered() {
      polls > 0 || skipped
    }

    predicate Quiet() {
      phase == Between && turns > 0 && !stopped && !reply.Failed()
    }
  }

  function NoTools(): Tools {
    Tools(0, {}, {}, {}, map[], [], false)
  }

  function Start(prompts: seq<Message>): Monitor {
    Monitor(Idle, 0, prompts, false, [], [], User(0), NoTools(), false, false, false, 0, [], false)
  }

  function ResultOf(m: Monitor, k: nat): Message
    requires m.reply.Assistant? && k < |m.reply.calls| && k in m.tools.outcomes
  {
    ToolResult(m.reply.calls[k], m.tools.outcomes[k].content, m.tools.outcomes[k].isError)
  }

  /** The next tool result message is this one. */
  predicate NextResult(m: Monitor, x: Message) {
    var k := |m.tools.results|;
    m.reply.Assistant? && k < |m.reply.calls| && k in m.tools.outcomes && x == ResultOf(m, k)
  }

  /** Every call has its result; after an abort the first few will do. */
  predicate BatchDone(m: Monitor, aborted: bool) {
    && m.reply.Assistant? && m.tools.running == {} && |m.tools.results| == m.tools.started
    && (if m.reply.Failed() then m.tools.started == 0
        else m.tools.started == |m.reply.calls| || (aborted && 0 < m.tools.started < |m.reply.calls| && m.reply.stop != Length))
  }

  /** The batch asks for another turn, unless every one of its results asks to stop. */
  predicate WantsMore(m: Monitor) {
    m.tools.started > 0 && exists k {:trigger m.tools.outcomes[k]} :: 0 <= k < m.tools.started && k in m.tools.outcomes && !m.tools.outcomes[k].terminate
  }

  /** A tool event is about a call that is running. */
  predicate Running(m: Monitor, k: nat, c: CallId) {
    m.phase == Replied && m.reply.Assistant? && k < |m.reply.calls| && m.reply.calls[k] == c && k in m.tools.running
  }

  /** A further turn starts with what is due, or because the batch wants it; in that case the steering
      queue has been looked at both after the last turn and again after preparing this one. */
  predicate MayStartTurn(m: Monitor) {
    m.phase == Between && (m.turns == 0 || (m.Quiet() && m.polls > 0 && (m.due != [] || (m.more && m.polls > 1))))
  }

  /** A reply is streamed only after a look at the steering queue, or if the first one was to be left out. */
  predicate MayStartMessage(m: Monitor, x: Message) {
    || (m.phase == Turn && if m.due != [] then x == m.due[0] else m.Steered())
    || (m.phase == Replying)
    || (m.phase == Replied && NextResult(m, x))
  }

  predicate MayEndMessage(m: Monitor, x: Message) {
    || (m.phase == Injecting && m.due != [] && x == m.due[0])
    || (m.phase == Replying && x.Assistant?)
    || (m.phase == Reporting && NextResult(m, x))
  }

  /** The rule of a batch is settled before its first call starts. */
  predicate MayChooseRule(m: Monitor) {
    m.phase == Replied && m.reply.Assistant? && !m.reply.Failed() && m.reply.stop != Length && m.tools == NoTools()
  }

  /** Calls start in order; one by one only after the results of those before; and after an abort none but
      the first, unless none is executed anyway. */
  predicate MayStartTool(m: Monitor, aborted: bool, k: nat, c: CallId) {
    && m.phase == Replied && m.reply.Assistant? && !m.reply.Failed()
    && k == m.tools.started < |m.reply.calls| && c == m.reply.calls[k]
    && (m.tools.sequential ==> m.tools.running == {} && |m.tools.results| == k)
    && (aborted && k > 0 ==> m.reply.stop == Length)
  }

  predicate MayPrepare(m: Monitor, aborted: bool, k: nat) {
    && m.phase == Replied && k in m.tools.running && k !in m.tools.prepared && !aborted
    && m.reply.Assistant? && m.reply.stop != Length
  }

  /** A call that has not been executed ends in an error; and one that was prepared only because of an
      abort, and only if it does not run alone. */
  predicate MayEndTool(m: Monitor, aborted: bool, k: nat, c: CallId, o: Outcome) {
    && Running(m, k, c) && (m.reply.stop == Length ==> o.isError && !o.terminate)
    && (k !in m.tools.executed ==> o.isError && (k in m.tools.prepared ==> aborted && !m.tools.sequential))
  }

  predicate MayEndTurn(m: Monitor, aborted: bool, x: Message, results: seq<Message>) {
    m.phase == Replied && x == m.reply && results == m.tools.results && BatchDone(m, aborted)
  }

  predicate MayEndRun(m: Monitor, messages: seq<Message>) {
    && m.phase == Between && m.turns > 0 && messages == m.ended && m.due == []
    && (m.reply.Failed() || m.stopped || (m.asked && !m.more))
  }

  predicate MayDrain(m: Monitor, source: Source, messages: seq<Message>, oneAtATime: bool) {
    && (oneAtATime ==> |messages| <= 1)
    && m.due == [] && (messages != [] ==> !m.drained)
    && (m.Quiet() || (m.phase == Turn && m.turns == 1))
    && (source == FollowUp ==> m.Quiet() && !m.more && m.polls > 0)
  }

  /** After an abort only the call that runs alone still begins to execute. */
  predicate MayExecute(m: Monitor, aborted: bool, k: nat) {
    && m.phase == Replied && k in m.tools.running && k in m.tools.prepared && k !in m.tools.executed
    && m.reply.Assistant? && m.reply.stop != Length && (aborted ==> m.tools.sequential)
  }

  predicate MayEmit(m: Monitor, aborted: bool, e: Event) {
    match e
    case AgentStart => m.phase == Idle
    case TurnStart => MayStartTurn(m)
    case MessageStart(x) => MayStartMessage(m, x)
    case MessageUpdate(_) => m.phase == Replying
    case MessageEnd(x) => MayEndMessage(m, x)
    case ToolStart(k, c) => MayStartTool(m, aborted, k, c)
    case ToolUpdate(k, c) => Running(m, k, c) && k in m.tools.executed
    case ToolEnd(k, c, o) => MayEndTool(m, aborted, k, c, o)
    case TurnEnd(x, results) => MayEndTurn(m, aborted, x, results)
    case AgentEnd(messages) => MayEndRun(m, messages)
  }

  predicate Allowed(m: Monitor, aborted: bool, e: Entry) {
    match e
    case Emit(event) => MayEmit(m, aborted, event)
    case Drain(source, messages, oneAtATime) => MayDrain(m, source, messages, oneAtATime)
    case Batch(_) => MayChooseRule(m)
    case Prepared(k) => MayPrepare(m, aborted, k)
    case Execute(k) => MayExecute(m, aborted, k)
    case Abort => true
    case StopRequested => m.Quiet() && m.due == [] && !m.drained && m.polls == 0
    case Skipped => m.phase == Turn && m.turns == 1 && m.polls == 0 && !m.skipped
  }

  function BeginTurn(m: Monitor): Monitor {
    m.(phase := Turn, turns := m.turns + 1, tools := NoTools(), more := false, asked := false)
  }

  function BeginMessage(m: Monitor): Monitor {
    m.(phase := if m.phase == Turn && m.due != [] then Injecting
                else if m.phase == Replied then Reporting else Replying)
  }

  function EndMessage(m: Monitor, x: Message): Monitor {
    if m.phase == Injecting && m.due != [] then
      m.(phase := Turn, due := m.due[1..], injected := m.injected + [x], ended := m.ended + [x])
    else if m.phase == Replying then
      m.(phase := Replied, reply := x, drained := false, ended := m.ended + [x])
    else
      m.(phase := Replied, tools := m.tools.(results := m.tools.results + [x]), ended := m.ended + [x])
  }

  function StartTool(t: Tools, k: nat): Tools {
    t.(started := k + 1, running := t.running + {k})
  }

  function EndTool(t: Tools, k: nat, o: Outcome): Tools {
    t.(running := t.running - {k}, outcomes := t.outcomes[k := o])
  }

  function Deliver(m: Monitor, source: Source, messages: seq<Message>): Monitor {
    m.(due := messages, drained := m.drained || messages != [], asked := source == FollowUp && messages == [],
       polls := if source == Steering then m.polls + 1 else m.polls,
       opening := if m.phase == Turn then m.opening + messages else m.opening)
  }

  /** What an event makes of it. */
  function React(m: Monitor, e: Event): Monitor {
    match e
    case AgentStart => m.(phase := Between)
    case TurnStart => BeginTurn(m)
    case MessageStart(_) => BeginMessage(m)
    case MessageUpdate(_) => m
    case MessageEnd(x) => EndMessage(m, x)
    case ToolStart(k, _) => m.(tools := StartTool(m.tools, k))
    case ToolUpdate(_, _) => m
    case ToolEnd(k, _, o) => m.(tools := EndTool(m.tools, k, o))
    case TurnEnd(_, _) => m.(phase := Between, more := WantsMore(m), polls := 0)
    case AgentEnd(_) => m.(phase := Ended)
  }

  function Step(m: Monitor, e: Entry): Monitor {
    match e
    case Emit(event) => React(m, event)
    case Drain(source, messages, _) => Deliver(m, source, messages)
    case Batch(sequential) => m.(tools := m.tools.(sequential := sequential))
    case Prepared(k) => m.(tools := m.tools.(prepared := m.tools.prepared + {k}))
    case Execute(k) => m.(tools := m.tools.(executed := m.tools.executed + {k}))
    case Abort => m
    case StopRequested => m.(stopped := true)
    case Skipped => m.(skipped := true)
  }

  datatype Status = Status(monitor: Monitor, aborted: bool)

  /** The automaton after the whole log, or None if an entry came that was not allowed. */
  function Check(prompts: seq<Message>, log: seq<Entry>): Option<Status>
    decreases |log|
  {
    if log == [] then Some(Status(Start(prompts), false))
    else
      var last := log[|log| - 1];
      match Check(prompts, log[..|log| - 1])
      case None => None
      case Some(Status(m, aborted)) =>
        if Allowed(m, aborted, last) then Some(Status(Step(m, last), aborted || last.Abort?)) else None
  }

  // ---- what can be read off a log --------------------------------------------------------------

  /** Payloads of the `message_end` events. */
  function MessageEnds(log: seq<Entry>): seq<Message>
    decreases |log|
  {
    if log == [] then []
    else
      var e := log[|log| - 1];
      MessageEnds(log[..|log| - 1]) + if e.Emit? && e.event.MessageEnd? then [e.event.message] else []
  }

  /** Everything drained from one queue. */
  function Drained(log: seq<Entry>, source: Source): seq<Message>
    decreases |log|
  {
    if log == [] then []
    else
      var e := log[|log| - 1];
      Drained(log[..|log| - 1], source) + if e.Drain? && e.source == source then e.messages else []
  }

  function AllDrained(log: seq<Entry>): seq<Message>
    decreases |log|
  {
    if log == [] then []
    else
      var e := log[|log| - 1];
      AllDrained(log[..|log| - 1]) + if e.Drain? then e.messages else []
  }

  // ---- the agent's state as a reduction of its events ------------------------------------------

  datatype AgentState = AgentState(messages: seq<Message>, streamingMessage: Option<Message>,
                                   pendingToolCalls: set<CallId>)

  function Reduce(s: AgentState, e: Event): AgentState {
    match e
    case MessageStart(m) => s.(streamingMessage := Some(m))
    case MessageUpdate(m) => s.(streamingMessage := Some(m))
    case MessageEnd(m) => s.(streamingMessage := None, messages := s.messages + [m])
    case ToolStart(_, c) => s.(pendingToolCalls := s.pendingToolCalls + {c})
    case ToolEnd(_, c, _) => s.(pendingToolCalls := s.pendingToolCalls - {c})
    case AgentEnd(_) => s.(streamingMessage := None)
    case _ => s
  }

  function ReduceAll(s: AgentState, log: seq<Entry>): AgentState
    decreases |log|
  {
    if log == [] then s
    else
      var e := log[|log| - 1];
      var before := ReduceAll(s, log[..|log| - 1]);
      if e.Emit? then Reduce(before, e.event) else before
  }

  /** What one more entry does to everything read off the log. */
  lemma Appended(prompts: seq<Message>, log: seq<Entry>, e: Entry, s: AgentState)
    ensures var longer := log + [e];
            && (forall m, aborted :: Check(prompts, log) == Some(Status(m, aborted)) && Allowed(m, aborted, e) ==>
                  Check(prompts, longer) == Some(Status(Step(m, e), aborted || e.Abort?)))
            && (forall source :: Drained(longer, source)
                  == Drained(log, source) + if e.Drain? && e.source == source then e.messages else [])
            && ReduceAll(s, longer) == if e.Emit? then Reduce(ReduceAll(s, log), e.event) else ReduceAll(s, log)
  {
    assert (log + [e])[..|log|] == log;
  }
}
