/** The agent and its loop. Whatever callbacks, tools, streams and listeners decide is chosen freely;
    between any two steps other code may queue messages or abort the run. */
module AgentLoop {
  import opened Wrappers
  import opened AgentSpec
  import opened AgentTheorems

  class PendingMessageQueue {
    var messages: seq<Message>
    var oneAtATime: bool
    // Everything queued and not cleared, and everything handed out.
    ghost var enqueued: seq<Message>
    ghost var delivered: seq<Message>

    /** Nothing is lost or reordered. */
    ghost predicate Valid()
      reads this
    {
      enqueued == delivered + messages
    }

    constructor (oneAtATime: bool)
      ensures Valid() && messages == [] && delivered == [] && this.oneAtATime == oneAtATime
    {
      this.oneAtATime := oneAtATime;
      messages, enqueued, delivered := [], [], [];
    }

    method Enqueue(m: Message)
      requires Valid()
      modifies this`messages, this`enqueued
      ensures Valid() && messages == old(messages) + [m] && enqueued == old(enqueued) + [m]
    {
      messages := messages + [m];
      enqueued := enqueued + [m];
    }

    method HasItems() returns (some: bool)
      ensures some <==> messages != []
    {
      return |messages| > 0;
    }

    method DrainQueue() returns (drained: seq<Message>)
      requires Valid()
      modifies this`messages, this`delivered
      ensures Valid() && old(messages) == drained + messages && delivered == old(delivered) + drained
      ensures old(messages) != [] ==> drained != []
      ensures oneAtATime ==> |drained| <= 1
      ensures !oneAtATime ==> messages == [] && drained == old(messages)
    {
      if !oneAtATime {
        drained := messages;
        messages := [];
      } else if |messages| == 0 {
        drained := [];
      } else {
        drained := [messages[0]];
        messages := messages[1..];
      }
      delivered := delivered + drained;
    }

    method Clear()
      requires Valid()
      modifies this`messages, this`enqueued
      ensures Valid() && messages == [] && enqueued == delivered
    {
      messages := [];
      enqueued := delivered;
    }
  }

  datatype StreamEvent = Begin(partial: Message) | Delta(partial: Message) | Finish

  datatype Result = Ran(done: bool) | Busy | NothingToContinueFrom | CannotContinueFromAssistant

  /** Only the tool calls and the messages they end in differ. */
  ghost predicate ToolsMoved(before: Monitor, after: Monitor) {
    after == before.(tools := after.tools, ended := after.ended)
  }

  /** The first `n` calls are over, the rest have not begun. */
  ghost predicate Through(t: Tools, n: nat) {
    t.started == n && t.running == {} && t.executed <= t.prepared <= t.outcomes.Keys && t.outcomes.Keys == Below(n)
  }

  lemma UpdateChangesNothing(m: Monitor, x: Message)
    ensures Step(m, Emit(MessageUpdate(x))) == m
  {
  }

  lemma PollKeeps(m: Monitor, source: Source, drained: seq<Message>)
    ensures Deliver(m, source, drained)
         == m.(due := drained, drained := m.drained || drained != [], asked := source == FollowUp && drained == [],
               polls := if source == Steering then m.polls + 1 else m.polls,
               opening := if m.phase == Turn then m.opening + drained else m.opening)
  {
  }

  lemma PollIsAllowed(m: Monitor, aborted: bool, source: Source, drained: seq<Message>, oneAtATime: bool)
    requires m.due == [] && !m.drained && (oneAtATime ==> |drained| <= 1)
    requires m.Quiet() || (m.phase == Turn && m.turns == 1 && source == Steering)
    requires source == FollowUp ==> !m.more && m.polls > 0
    ensures Allowed(m, aborted, Drain(source, drained, oneAtATime))
    ensures Step(m, Drain(source, drained, oneAtATime)) == Deliver(m, source, drained)
  {
  }

  lemma SkipKeeps(m: Monitor)
    ensures Step(m, Skipped) == m.(skipped := true)
    ensures Allowed(m, false, Skipped) == Allowed(m, true, Skipped) == (m.phase == Turn && m.turns == 1 && m.polls == 0 && !m.skipped)
  {
  }

  lemma StopKeeps(m: Monitor)
    ensures Step(m, StopRequested) == m.(stopped := true)
  {
  }

  lemma NothingToDo(m: Monitor, aborted: bool)
    requires m.reply.Assistant? && m.reply.Failed() && m.tools == NoTools()
    ensures BatchDone(m, aborted) && !WantsMore(m)
  {
  }

  lemma Progress(k: nat, remaining: set<nat>, executing: set<nat>, remaining': set<nat>, executing': set<nat>)
    requires k in remaining
    ensures remaining' == remaining - {k} ==> |remaining'| < |remaining|
    ensures remaining' == remaining && k !in executing && executing' == executing + {k} ==>
              |remaining' - executing'| < |remaining - executing|
  {
    if remaining' == remaining - {k} {
      SmallerSet(remaining', remaining);
    } else if remaining' == remaining && k !in executing && executing' == executing + {k} {
      assert k in remaining - executing && k !in remaining' - executing';
      SmallerSet(remaining' - executing', remaining - executing);
    }
  }

  /** The calls of a parallel batch while the prepared ones run: those that remain are not over, those that
      execute were prepared, and unless the run is aborted every prepared call that is over was executed. */
  predicate UnderWay(n: nat, prepared: set<nat>, remaining: set<nat>, executing: set<nat>, finalized: map<nat, Outcome>, aborted: bool) {
    && remaining + finalized.Keys == Below(n) && remaining <= prepared && executing <= prepared
    && (!aborted ==> prepared <= remaining + executing)
  }

  lemma BelowNext(k: nat, prepared: set<nat>, finalized: map<nat, Outcome>)
    requires prepared !! finalized.Keys && prepared + finalized.Keys == Below(k)
    ensures k !in prepared && k !in finalized
    ensures (prepared + {k}) !! finalized.Keys && (prepared + {k}) + finalized.Keys == Below(k + 1)
    ensures prepared !! (finalized.Keys + {k}) && prepared + (finalized.Keys + {k}) == Below(k + 1)
  {
    assert k !in Below(k);
  }

  lemma AllUnderWay(n: nat, prepared: set<nat>, finalized: map<nat, Outcome>, aborted: bool)
    requires prepared + finalized.Keys == Below(n)
    ensures UnderWay(n, prepared, prepared, {}, finalized, aborted)
  {
  }

  lemma IsUnderWay(n: nat, prepared: set<nat>, remaining: set<nat>, executing: set<nat>, finalized: map<nat, Outcome>, aborted: bool, k: nat)
    requires UnderWay(n, prepared, remaining, executing, finalized, aborted) && k in remaining
    ensures k < n
  {
    assert k in Below(n);
  }

  lemma NoneUnderWay(n: nat, prepared: set<nat>, executing: set<nat>, finalized: map<nat, Outcome>, aborted: bool)
    requires UnderWay(n, prepared, {}, executing, finalized, aborted)
    ensures finalized.Keys == Below(n) && executing <= prepared && (!aborted ==> executing == prepared)
  {
    assert {} + finalized.Keys == finalized.Keys && {} + executing == executing;
  }

  lemma BeginsToExecute(n: nat, prepared: set<nat>, remaining: set<nat>, executing: set<nat>, finalized: map<nat, Outcome>, aborted: bool, k: nat)
    requires UnderWay(n, prepared, remaining, executing, finalized, aborted) && k in remaining
    ensures UnderWay(n, prepared, remaining, executing + {k}, finalized, aborted)
  {
  }

  lemma IsOver(n: nat, prepared: set<nat>, remaining: set<nat>, executing: set<nat>, finalized: map<nat, Outcome>, aborted: bool, k: nat, o: Outcome)
    requires UnderWay(n, prepared, remaining, executing, finalized, aborted) && k in remaining && (k in executing || aborted)
    ensures UnderWay(n, prepared, remaining - {k}, executing, finalized[k := o], aborted)
  {
    MovedKey(k, remaining, finalized, o);
  }

  lemma StaysUnderWay(n: nat, prepared: set<nat>, remaining: set<nat>, executing: set<nat>, finalized: map<nat, Outcome>, before: bool, aborted: bool)
    requires UnderWay(n, prepared, remaining, executing, finalized, before) && (before ==> aborted)
    ensures UnderWay(n, prepared, remaining, executing, finalized, aborted)
  {
  }

  lemma MovedKey(k: nat, remaining: set<nat>, finalized: map<nat, Outcome>, outcome: Outcome)
    requires k in remaining
    ensures remaining - {k} + finalized[k := outcome].Keys == remaining + finalized.Keys
  {
  }

  lemma SmallerSet<T>(a: set<T>, b: set<T>)
    requires a < b
    ensures |a| < |b|
  {
    assert b == a + (b - a);
  }

  /** The results and outcomes gathered for the first `n` calls are those on record. */
  ghost predicate Gathered(t: Tools, n: nat, results: seq<Message>, finalized: seq<Outcome>) {
    && results == t.results && |results| == |finalized| == n && Below(n) <= t.outcomes.Keys
    && forall k {:trigger finalized[k]} :: 0 <= k < n ==> k in t.outcomes && t.outcomes[k] == finalized[k]
  }

  lemma NothingGathered(t: Tools)
    requires t == NoTools().(sequential := true)
    ensures Gathered(t, 0, [], []) && Through(t, 0)
  {
  }

  lemma GatherOne(t: Tools, t': Tools, n: nat, results: seq<Message>, finalized: seq<Outcome>, result: Message, outcome: Outcome)
    requires Gathered(t, n, results, finalized) && Through(t', n + 1)
    requires t'.outcomes == t.outcomes[n := outcome] && t'.results == t.results + [result]
    ensures Gathered(t', n + 1, results + [result], finalized + [outcome])
  {
  }

  lemma BatchIsDone(m: Monitor, aborted: bool, n: nat, results: seq<Message>, finalized: seq<Outcome>)
    requires m.reply.Assistant? && !m.reply.Failed() && m.reply.stop != Length
    requires Through(m.tools, n) && Gathered(m.tools, n, results, finalized)
    requires 0 < n && (n == |m.reply.calls| || (aborted && n < |m.reply.calls|))
    ensures BatchDone(m, aborted)
    ensures WantsMore(m) <==> !(forall k :: 0 <= k < |finalized| ==> finalized[k].terminate)
    ensures results == m.tools.results && finalized != []
  {
    TerminateMeansNoMore(m, finalized);
    hide WantsMore;
  }

  /** The first `n` calls have failed, without asking to stop, and the rest have not begun. */
  ghost predicate FailedThrough(m: Monitor, n: nat) {
    && Through(m.tools, n) && m.tools.executed == {} && |m.tools.results| == n
    && forall k :: 0 <= k < n ==> k in m.tools.outcomes && !m.tools.outcomes[k].terminate
  }

  lemma NoneFailed(m: Monitor)
    requires m.tools == NoTools()
    ensures FailedThrough(m, 0) && ToolsMoved(m, m)
  {
  }

  lemma AllFailed(m: Monitor, aborted: bool)
    requires m.reply.Assistant? && !m.reply.Failed() && FailedThrough(m, |m.reply.calls|)
    ensures BatchDone(m, aborted) && m.tools.executed == {} && (m.reply.calls != [] ==> WantsMore(m))
  {
    assert m.reply.calls != [] ==> 0 in m.tools.outcomes && !m.tools.outcomes[0].terminate;
  }

  lemma ParallelIsDone(before: Monitor, m: Monitor, n: nat, prepared: set<nat>, finalized: map<nat, Outcome>, results: seq<Message>, aborted: bool)
    requires before.reply.Assistant? && !before.reply.Failed() && before.reply.stop != Length && |results| == n
    requires n == |before.reply.calls| || (aborted && 0 < n < |before.reply.calls|)
    requires m == before.(tools := Tools(n, {}, prepared, m.tools.executed, finalized, results, false), ended := before.ended + results)
    ensures ToolsMoved(before, m) && BatchDone(m, aborted)
  {
  }

  lemma TerminateMeansNoMore(m: Monitor, finalized: seq<Outcome>)
    requires |finalized| == m.tools.started > 0 && Below(m.tools.started) <= m.tools.outcomes.Keys
    requires forall k :: 0 <= k < m.tools.started ==> m.tools.outcomes[k] == finalized[k]
    ensures WantsMore(m) <==> !(forall k :: 0 <= k < |finalized| ==> finalized[k].terminate)
  {
    if k :| 0 <= k < |finalized| && !finalized[k].terminate {
      assert k in Below(m.tools.started) && !m.tools.outcomes[k].terminate;
    }
  }

  function Below(n: nat): (s: set<nat>)
    ensures forall k :: k in s <==> 0 <= k < n
  {
    if n == 0 then {} else Below(n - 1) + {n - 1}
  }

  class Agent {
    var messages: seq<Message>
    var streamingMessage: Option<Message>
    var pendingToolCalls: set<CallId>
    var isStreaming: bool
    var activeRun: bool
    var aborted: bool
    var skipInitialSteeringPoll: bool
    var context: seq<Message>
    var newMessages: seq<Message>
    const steering: PendingMessageQueue
    const followUp: PendingMessageQueue

    // The log of the current run and where its automaton stands.
    ghost var log: seq<Entry>
    ghost var monitor: Monitor
    ghost var prompts: seq<Message>
    ghost var base: AgentState
    ghost var steeringBase: seq<Message>
    ghost var followUpBase: seq<Message>
    // What the context was at the start of the run, and whether only the run's own messages have been
    // added to it since: no stream started twice and no preparation replaced it.
    ghost var contextBase: seq<Message>
    ghost var plain: bool
    // Whether the run is to look at the steering queue only after its first turn.
    ghost var quietStart: bool

    ghost function State(): AgentState
      reads this`messages, this`streamingMessage, this`pendingToolCalls
    {
      AgentState(messages, streamingMessage, pendingToolCalls)
    }

    ghost predicate Valid()
      reads this`log, this`monitor, this`prompts, this`base, this`aborted, this`steeringBase, this`followUpBase
      reads this`messages, this`streamingMessage, this`pendingToolCalls, steering, followUp
    {
      && steering != followUp && steering.Valid() && followUp.Valid()
      && Check(prompts, log) == Some(Status(monitor, aborted))
      && State() == ReduceAll(base, log)
      && steering.delivered == steeringBase + Drained(log, Steering)
      && followUp.delivered == followUpBase + Drained(log, FollowUp)
    }

    constructor (oneAtATime: bool)
      ensures Valid() && !activeRun && messages == [] && fresh(steering) && fresh(followUp)
    {
      steering := new PendingMessageQueue(oneAtATime);
      followUp := new PendingMessageQueue(oneAtATime);
      messages, streamingMessage, pendingToolCalls := [], None, {};
      isStreaming, activeRun, aborted, skipInitialSteeringPoll := false, false, false, false;
      context, newMessages := [], [];
      log, monitor, prompts, base := [], Start([]), [], AgentState([], None, {});
      steeringBase, followUpBase := [], [];
      contextBase, plain, quietStart := [], true, false;
    }

    // ---- the log -------------------------------------------------------------------------------

    /** Appends an entry that is neither an event nor a drain. */
    ghost method Note(e: Entry)
      requires Valid() && Allowed(monitor, aborted, e) && (e.Batch? || e.Prepared? || e.Execute? || e.StopRequested? || e.Skipped?)
      modifies this`log, this`monitor
      ensures Valid() && monitor == Step(old(monitor), e) && log == old(log) + [e]
    {
      hide Check, Drained, ReduceAll, Step, Allowed;
      Appended(prompts, log, e, base);
      log, monitor := log + [e], Step(monitor, e);
    }

    method EnqueueInto(queue: PendingMessageQueue, oneAtATime: bool, m: Message)
      requires queue.Valid()
      modifies queue
      ensures queue.Valid() && queue.delivered == old(queue.delivered)
    {
      queue.oneAtATime := oneAtATime;
      queue.Enqueue(m);
    }

    /** Other code runs: it may queue messages, change the queue modes or abort the run. */
    method World()
      requires Valid()
      modifies this`log, this`aborted, steering, followUp
      ensures Valid() && (old(aborted) ==> aborted)
    {
      hide Check, Drained, ReduceAll;
      var abort: bool := *;
      if abort {
        Appended(prompts, log, Abort, base);
        assert Step(monitor, Abort) == monitor;
        log := log + [Abort];
        aborted := true;
      }
      var n: nat :| true;
      for i := 0 to n
        invariant Valid()
        modifies steering, followUp
      {
        var toSteering: bool, oneAtATime: bool := *, *;
        var text: nat :| true;
        if toSteering {
          EnqueueInto(steering, oneAtATime, User(text));
        } else {
          EnqueueInto(followUp, oneAtATime, User(text));
        }
      }
    }

    /** Reduces one event into the state; then the listeners run. */
    method ProcessEvents(e: Event)
      requires Valid() && Allowed(monitor, aborted, Emit(e))
      modifies this`log, this`monitor, this`aborted, this`messages, this`streamingMessage, this`pendingToolCalls
      modifies steering, followUp
      ensures Valid() && monitor == Step(old(monitor), Emit(e)) && (old(aborted) ==> aborted)
    {
      hide Check, Drained, ReduceAll, Step, Allowed;
      Appended(prompts, log, Emit(e), base);
      match e {
        case MessageStart(m) => streamingMessage := Some(m);
        case MessageUpdate(m) => streamingMessage := Some(m);
        case MessageEnd(m) =>
          streamingMessage := None;
          messages := messages + [m];
        case ToolStart(_, c) => pendingToolCalls := pendingToolCalls + {c};
        case ToolEnd(_, c, _) => pendingToolCalls := pendingToolCalls - {c};
        case AgentEnd(_) => streamingMessage := None;
        case _ =>
      }
      log, monitor := log + [Emit(e)], Step(monitor, Emit(e));
      World();
    }

    method Poll(source: Source) returns (drained: seq<Message>)
      requires Valid() && monitor.due == [] && !monitor.drained
      requires monitor.Quiet() || (monitor.phase == Turn && monitor.turns == 1 && source == Steering)
      requires source == FollowUp ==> !monitor.more && monitor.polls > 0
      requires source == Steering && skipInitialSteeringPoll ==> monitor.phase == Turn && monitor.polls == 0 && !monitor.skipped
      modifies this`log, this`monitor, this`aborted, this`skipInitialSteeringPoll, steering, followUp
      ensures Valid() && (old(aborted) ==> aborted)
      ensures source == Steering && old(skipInitialSteeringPoll) ==>
                drained == [] && monitor == old(monitor).(skipped := true)
      ensures !(source == Steering && old(skipInitialSteeringPoll)) ==>
                monitor == Deliver(old(monitor), source, drained)
      ensures skipInitialSteeringPoll == (old(skipInitialSteeringPoll) && source == FollowUp)
    {
      hide Valid, Step, Allowed;
      if source == Steering && skipInitialSteeringPoll {
        skipInitialSteeringPoll := false;
        drained := [];
        SkipKeeps(monitor);
        Note(Skipped);
      } else {
        drained := DrainFrom(source);
      }
      hide Valid;
      World();
    }

    /** Drains one queue. */
    method DrainFrom(source: Source) returns (drained: seq<Message>)
      requires Valid() && monitor.due == [] && !monitor.drained
      requires monitor.Quiet() || (monitor.phase == Turn && monitor.turns == 1 && source == Steering)
      requires source == FollowUp ==> !monitor.more && monitor.polls > 0
      modifies this`log, this`monitor, steering, followUp
      ensures Valid() && monitor == Deliver(old(monitor), source, drained)
    {
      hide Check, Drained, ReduceAll;
      ghost var oneAtATime := if source == Steering then steering.oneAtATime else followUp.oneAtATime;
      if source == Steering {
        drained := steering.DrainQueue();
      } else {
        drained := followUp.DrainQueue();
      }
      ghost var e := Drain(source, drained, oneAtATime);
      PollIsAllowed(monitor, aborted, source, drained, oneAtATime);
      hide Step, Allowed;
      Appended(prompts, log, e, base);
      log, monitor := log + [e], Step(monitor, e);
    }

    method EmitToolStart(k: nat, call: CallId)
      requires Valid() && monitor.phase == Replied && monitor.reply.Assistant? && !monitor.reply.Failed()
      requires k == monitor.tools.started < |monitor.reply.calls| && call == monitor.reply.calls[k]
      requires monitor.tools.sequential ==> monitor.tools.running == {} && |monitor.tools.results| == k
      requires aborted && k > 0 ==> monitor.reply.stop == Length
      modifies this`log, this`monitor, this`aborted, this`messages, this`streamingMessage, this`pendingToolCalls
      modifies steering, followUp
      ensures Valid() && (old(aborted) ==> aborted)
      ensures monitor == old(monitor).(tools := old(monitor.tools).(started := k + 1, running := old(monitor.tools.running) + {k}))
    {
      hide Valid;
      ProcessEvents(ToolStart(k, call));
    }

    method EmitToolUpdate(k: nat, call: CallId)
      requires Valid() && Running(monitor, k, call) && k in monitor.tools.executed
      modifies this`log, this`monitor, this`aborted, this`messages, this`streamingMessage, this`pendingToolCalls
      modifies steering, followUp
      ensures Valid() && (old(aborted) ==> aborted) && monitor == old(monitor)
    {
      hide Valid;
      ProcessEvents(ToolUpdate(k, call));
    }

    /** Settles by which rule the calls of a reply are run. */
    ghost method BeginBatch(sequential: bool)
      requires Valid() && monitor.phase == Replied && monitor.reply.Assistant? && !monitor.reply.Failed()
      requires monitor.reply.stop != Length && monitor.tools == NoTools()
      modifies this`log, this`monitor
      ensures Valid() && monitor == old(monitor).(tools := NoTools().(sequential := sequential))
    {
      hide Valid;
      Note(Batch(sequential));
    }

    /** `prepareToolCall` comes back with a call that can be executed. */
    ghost method MarkPrepared(k: nat)
      requires Valid() && monitor.phase == Replied && k in monitor.tools.running && k !in monitor.tools.prepared && !aborted
      requires monitor.reply.Assistant? && monitor.reply.stop != Length
      modifies this`log, this`monitor
      ensures Valid()
      ensures monitor == old(monitor).(tools := old(monitor.tools).(prepared := old(monitor.tools.prepared) + {k}))
    {
      hide Valid;
      Note(Prepared(k));
    }

    /** `tool.execute` is called. */
    ghost method BeginExecution(k: nat)
      requires Valid() && monitor.phase == Replied && k in monitor.tools.running && k !in monitor.tools.executed
      requires k in monitor.tools.prepared && (aborted ==> monitor.tools.sequential)
      requires monitor.reply.Assistant? && monitor.reply.stop != Length
      modifies this`log, this`monitor
      ensures Valid()
      ensures monitor == old(monitor).(tools := old(monitor.tools).(executed := old(monitor.tools.executed) + {k}))
    {
      hide Valid;
      Note(Execute(k));
    }

    method EmitToolEnd(k: nat, call: CallId, outcome: Outcome)
      requires Valid() && MayEndTool(monitor, aborted, k, call, outcome)
      modifies this`log, this`monitor, this`aborted, this`messages, this`streamingMessage, this`pendingToolCalls
      modifies steering, followUp
      ensures Valid() && (old(aborted) ==> aborted)
      ensures monitor == old(monitor).(tools := old(monitor.tools).(running := old(monitor.tools.running) - {k}, outcomes := old(monitor.tools.outcomes)[k := outcome]))
    {
      hide Valid;
      ProcessEvents(ToolEnd(k, call, outcome));
    }

    // ---- one assistant response ----------------------------------------------------------------

    method StartReply(partial: Message)
      requires Valid() && monitor.due == [] && ((monitor.phase == Turn && monitor.Steered()) || monitor.phase == Replying)
      modifies this`log, this`monitor, this`aborted, this`messages, this`streamingMessage, this`pendingToolCalls
      modifies steering, followUp
      ensures Valid() && (old(aborted) ==> aborted) && monitor == old(monitor).(phase := Replying)
    {
      hide Valid;
      ProcessEvents(MessageStart(partial));
    }

    method EndReply(reply: Message)
      requires Valid() && monitor.phase == Replying && reply.Assistant?
      modifies this`log, this`monitor, this`aborted, this`messages, this`streamingMessage, this`pendingToolCalls
      modifies steering, followUp
      ensures Valid() && (old(aborted) ==> aborted)
      ensures monitor == old(monitor).(phase := Replied, reply := reply, drained := false,
                                       ended := old(monitor.ended) + [reply])
    {
      hide Valid;
      ProcessEvents(MessageEnd(reply));
    }

    /** Handles the stream up to its last event. */
    method FollowStream(stream: seq<StreamEvent>) returns (starts: nat)
      requires Valid() && monitor.phase == Turn && monitor.due == [] && monitor.Steered()
      modifies this`log, this`monitor, this`aborted, this`messages, this`streamingMessage, this`pendingToolCalls
      modifies steering, followUp
      modifies this`context
      ensures Valid() && (old(aborted) ==> aborted)
      ensures monitor == old(monitor).(phase := if starts > 0 then Replying else Turn)
      ensures |context| == |old(context)| + starts && context[..|old(context)|] == old(context)
    {
      hide Valid, Step;
      var i := 0;
      starts := 0;
      while i < |stream| && !stream[i].Finish?
        invariant 0 <= i <= |stream| && Valid() && (old(aborted) ==> aborted)
        invariant monitor == old(monitor).(phase := if starts > 0 then Replying else Turn)
        invariant |context| == |old(context)| + starts && context[..|old(context)|] == old(context)
      {
        match stream[i] {
          case Begin(partial) =>
            context := context + [partial];
            starts := starts + 1;
            StartReply(partial);
          case Delta(partial) =>
            if starts > 0 {
              context := context[|context| - 1 := partial];
              assert Step(monitor, Emit(MessageUpdate(partial))) == monitor by { UpdateChangesNothing(monitor, partial); }
              ProcessEvents(MessageUpdate(partial));
            }
        }
        i := i + 1;
      }
    }

    /** Streams a reply. Every `start` of the stream pushes a partial message onto the context and only
        the last one is replaced by the reply; a stream that starts at most once adds just the reply. */
    method StreamAssistantResponse() returns (reply: Message, starts: nat)
      requires Valid() && monitor.phase == Turn && monitor.due == [] && monitor.Steered()
      modifies this`log, this`monitor, this`aborted, this`messages, this`streamingMessage, this`pendingToolCalls
      modifies steering, followUp
      modifies this`context
      ensures Valid() && reply.Assistant? && (old(aborted) ==> aborted)
      ensures monitor == old(monitor).(phase := Replied, reply := reply, drained := false,
                                       ended := old(monitor.ended) + [reply])
      ensures |context| == |old(context)| + (if starts <= 1 then 1 else starts)
      ensures context[..|old(context)|] == old(context) && context[|context| - 1] == reply
      ensures starts <= 1 <==> context == old(context) + [reply]
    {
      hide Valid, Step, Allowed;
      reply := ChooseReply();
      var stream: seq<StreamEvent> :| true;
      starts := FollowStream(stream);
      if starts > 0 {
        context := context[|context| - 1 := reply];
      } else {
        context := context + [reply];
        StartReply(reply);
      }
      EndReply(reply);
    }

    method ChooseReply() returns (reply: Message)
      ensures reply.Assistant?
    {
      var text: nat, calls: seq<CallId>, stop: StopReason :| true;
      reply := Assistant(text, calls, stop);
    }

    // ---- tool calls ----------------------------------------------------------------------------

    /** Emits the messages of the result of call `k`. */
    method EmitToolResult(k: nat, call: CallId, outcome: Outcome) returns (result: Message)
      requires Valid() && monitor.phase == Replied && monitor.reply.Assistant? && k < |monitor.reply.calls|
      requires call == monitor.reply.calls[k]
      requires k == |monitor.tools.results| && k in monitor.tools.outcomes && monitor.tools.outcomes[k] == outcome
      modifies this`log, this`monitor, this`aborted, this`messages, this`streamingMessage, this`pendingToolCalls
      modifies steering, followUp
      ensures Valid() && (old(aborted) ==> aborted)
      ensures result == ToolResult(call, outcome.content, outcome.isError)
      ensures monitor == old(monitor).(tools := old(monitor.tools).(results := old(monitor.tools.results) + [result]),
                                       ended := old(monitor.ended) + [result])
    {
      hide Valid;
      result := ToolResult(call, outcome.content, outcome.isError);
      ProcessEvents(MessageStart(result));
      ProcessEvents(MessageEnd(result));
    }

    /** Call `k` is over: its end and its result message. */
    method CompleteCall(k: nat, call: CallId, outcome: Outcome) returns (result: Message)
      requires Valid() && MayEndTool(monitor, aborted, k, call, outcome) && k == |monitor.tools.results|
      modifies this`log, this`monitor, this`aborted, this`messages, this`streamingMessage, this`pendingToolCalls
      modifies steering, followUp
      ensures Valid() && (old(aborted) ==> aborted)
      ensures monitor == old(monitor).(
        tools := old(monitor.tools).(running := old(monitor.tools.running) - {k},
                                     outcomes := old(monitor.tools.outcomes)[k := outcome],
                                     results := old(monitor.tools.results) + [result]),
        ended := old(monitor.ended) + [result])
    {
      hide Valid, Step, Allowed;
      EmitToolEnd(k, call, outcome);
      result := EmitToolResult(k, call, outcome);
    }

    /** What a tool that was executed comes to, after `afterToolCall`. */
    method ToolOutcome() returns (outcome: Outcome)
    {
      var content: nat, isError: bool, terminate: bool :| true;
      outcome := Outcome(content, isError, terminate);
    }

    /** What a call comes to that cannot be executed: there is no such tool, its arguments are not valid, or
        `beforeToolCall` blocks it and may ask to stop. */
    method RefusedOutcome() returns (outcome: Outcome)
      ensures outcome.isError
    {
      var content: nat, terminate: bool :| true;
      outcome := Outcome(content, true, terminate);
    }

    /** What a call comes to that is not to be executed any more. */
    method SkippedOutcome() returns (outcome: Outcome)
      ensures outcome.isError && !outcome.terminate
    {
      var content: nat :| true;
      outcome := Outcome(content, true, false);
    }

    /** `shouldTerminateToolBatch` */
    static method ShouldTerminate(finalized: seq<Outcome>) returns (terminate: bool)
      ensures terminate <==> finalized != [] && forall k :: 0 <= k < |finalized| ==> finalized[k].terminate
    {
      var k := 0;
      while k < |finalized| && finalized[k].terminate
        invariant 0 <= k <= |finalized| && forall i :: 0 <= i < k ==> finalized[i].terminate
      {
        k := k + 1;
      }
      return |finalized| > 0 && k == |finalized|;
    }

    method FailToolCalls(calls: seq<CallId>) returns (results: seq<Message>)
      requires Valid() && monitor.phase == Replied && monitor.reply.Assistant? && monitor.reply.stop == Length
      requires calls == monitor.reply.calls && monitor.tools == NoTools()
      modifies this`log, this`monitor, this`aborted, this`messages, this`streamingMessage, this`pendingToolCalls
      modifies steering, followUp
      ensures Valid() && ToolsMoved(old(monitor), monitor) && (old(aborted) ==> aborted)
      ensures BatchDone(monitor, aborted) && results == monitor.tools.results && monitor.ended == old(monitor.ended) + results
      ensures monitor.tools.executed == {} && (monitor.reply.calls != [] ==> WantsMore(monitor))
    {
      NoneFailed(monitor);
      hide Valid, Step, Allowed, FailedThrough, ToolsMoved, BatchDone, WantsMore;
      var i := 0;
      results := [];
      while i < |calls|
        invariant Valid() && ToolsMoved(old(monitor), monitor) && (old(aborted) ==> aborted)
        invariant FailedThrough(monitor, i) && i <= |calls| && monitor.reply == old(monitor.reply) && monitor.phase == Replied
        invariant results == monitor.tools.results && monitor.ended == old(monitor.ended) + results
      {
        var result := FailOne(i, calls[i], old(monitor));
        results := results + [result];
        i := i + 1;
      }
      AllFailed(monitor, aborted);
    }

    /** One call of a reply that was cut off. */
    method FailOne(i: nat, call: CallId, ghost before: Monitor) returns (result: Message)
      requires Valid() && monitor.phase == Replied && monitor.reply.Assistant? && monitor.reply.stop == Length
      requires i < |monitor.reply.calls| && call == monitor.reply.calls[i]
      requires ToolsMoved(before, monitor) && FailedThrough(monitor, i)
      modifies this`log, this`monitor, this`aborted, this`messages, this`streamingMessage, this`pendingToolCalls
      modifies steering, followUp
      ensures Valid() && ToolsMoved(before, monitor) && (old(aborted) ==> aborted) && FailedThrough(monitor, i + 1)
      ensures monitor.phase == Replied && monitor.reply == old(monitor.reply)
      ensures monitor.tools.results == old(monitor.tools.results) + [result] && monitor.ended == old(monitor.ended) + [result]
    {
      hide Valid, Step, Allowed;
      EmitToolStart(i, call);
      var outcome := SkippedOutcome();
      result := CompleteCall(i, call, outcome);
    }

    /** Runs a prepared call, with whatever updates it reports. */
    method ExecutePrepared(k: nat, call: CallId)
      requires Valid() && monitor.phase == Replied && monitor.reply.Assistant? && monitor.reply.stop != Length
      requires k < |monitor.reply.calls| && call == monitor.reply.calls[k] && k in monitor.tools.running && k !in monitor.tools.executed
      requires k in monitor.tools.prepared && (aborted ==> monitor.tools.sequential)
      modifies this`log, this`monitor, this`aborted, this`messages, this`streamingMessage, this`pendingToolCalls
      modifies steering, followUp
      ensures Valid() && (old(aborted) ==> aborted)
      ensures monitor == old(monitor).(tools := old(monitor.tools).(executed := old(monitor.tools.executed) + {k}))
    {
      hide Valid, Step, Allowed;
      BeginExecution(k);
      var updates: nat :| true;
      for u := 0 to updates
        invariant Valid() && (old(aborted) ==> aborted)
        invariant monitor == old(monitor).(tools := old(monitor.tools).(executed := old(monitor.tools.executed) + {k}))
      {
        EmitToolUpdate(k, call);
      }
    }

    /** `prepareToolCall`, and then the tool or what takes its place. */
    method ServeCall(i: nat, call: CallId) returns (outcome: Outcome)
      requires Valid() && Running(monitor, i, call) && monitor.reply.stop != Length
      requires monitor.tools.sequential && i !in monitor.tools.prepared && i !in monitor.tools.executed
      modifies this`log, this`monitor, this`aborted, this`messages, this`streamingMessage, this`pendingToolCalls
      modifies steering, followUp
      ensures Valid() && (old(aborted) ==> aborted)
      ensures monitor == old(monitor).(tools := old(monitor.tools).(prepared := monitor.tools.prepared, executed := monitor.tools.executed))
      ensures i !in monitor.tools.executed ==> outcome.isError
      ensures || (monitor.tools.prepared == old(monitor.tools.prepared) && monitor.tools.executed == old(monitor.tools.executed))
              || (monitor.tools.prepared == old(monitor.tools.prepared) + {i}
                  && monitor.tools.executed == old(monitor.tools.executed) + {i})
    {
      hide Valid, Step, Allowed;
      var ready: bool := *;
      if ready && !aborted {
        MarkPrepared(i);
        World();
        ExecutePrepared(i, call);
        outcome := ToolOutcome();
      } else {
        outcome := RefusedOutcome();
      }
    }

    /** One call of a sequential batch, from its start to its result. */
    method RunCall(i: nat, call: CallId) returns (outcome: Outcome, result: Message)
      requires Valid() && monitor.phase == Replied && monitor.reply.Assistant?
      requires !monitor.reply.Failed() && monitor.reply.stop != Length
      requires i < |monitor.reply.calls| && call == monitor.reply.calls[i]
      requires Through(monitor.tools, i) && |monitor.tools.results| == i && monitor.tools.sequential && (aborted ==> i == 0)
      requires monitor.tools.executed == monitor.tools.prepared
      modifies this`log, this`monitor, this`aborted, this`messages, this`streamingMessage, this`pendingToolCalls
      modifies steering, followUp
      ensures Valid() && ToolsMoved(old(monitor), monitor) && (old(aborted) ==> aborted)
      ensures Through(monitor.tools, i + 1) && monitor.tools.outcomes == old(monitor.tools.outcomes)[i := outcome]
      ensures monitor.tools.sequential && monitor.tools.executed == monitor.tools.prepared
      ensures monitor.tools.results == old(monitor.tools.results) + [result]
      ensures monitor.ended == old(monitor.ended) + [result]
    {
      hide Valid, Step, Allowed;
      EmitToolStart(i, call);
      outcome := ServeCall(i, call);
      result := CompleteCall(i, call, outcome);
    }

    method ExecuteSequential(calls: seq<CallId>) returns (results: seq<Message>, terminate: bool)
      requires Valid() && monitor.phase == Replied && monitor.reply.Assistant? && monitor.reply.calls == calls != []
      requires !monitor.reply.Failed() && monitor.reply.stop != Length && monitor.tools == NoTools()
      modifies this`log, this`monitor, this`aborted, this`messages, this`streamingMessage, this`pendingToolCalls
      modifies steering, followUp
      ensures Valid() && ToolsMoved(old(monitor), monitor) && (old(aborted) ==> aborted)
      ensures BatchDone(monitor, aborted) && results == monitor.tools.results && monitor.ended == old(monitor.ended) + results
      ensures monitor.tools.executed == monitor.tools.prepared
      ensures terminate == !WantsMore(monitor)
    {
      hide Valid, Step, Allowed, WantsMore, BatchDone, Through, Gathered;
      var i := 0;
      var finalized: seq<Outcome> := [];
      results := [];
      BeginBatch(true);
      NothingGathered(monitor.tools);
      while i < |calls|
        invariant Valid() && ToolsMoved(old(monitor), monitor) && (old(aborted) ==> aborted)
        invariant Through(monitor.tools, i) && i <= |calls| && |monitor.tools.results| == i
        invariant Gathered(monitor.tools, i, results, finalized) && monitor.ended == old(monitor.ended) + results
        invariant monitor.tools.sequential && (aborted ==> i == 0) && monitor.tools.executed == monitor.tools.prepared
      {
        ghost var before := monitor.tools;
        var outcome, result := RunCall(i, calls[i]);
        GatherOne(before, monitor.tools, i, results, finalized, result, outcome);
        finalized, results := finalized + [outcome], results + [result];
        i := i + 1;
        if aborted {
          break;
        }
      }
      BatchIsDone(monitor, aborted, i, results, finalized);
      terminate := ShouldTerminate(finalized);
    }

    /** One call of the first pass. */
    method StartOne(k: nat, call: CallId, prepared: set<nat>, finalized: map<nat, Outcome>)
      returns (prepared': set<nat>, finalized': map<nat, Outcome>)
      requires Valid() && monitor.phase == Replied && monitor.reply.Assistant? && !monitor.reply.Failed()
      requires monitor.reply.stop != Length && k < |monitor.reply.calls| && call == monitor.reply.calls[k] && (aborted ==> k == 0)
      requires monitor.tools == Tools(k, prepared, prepared, {}, finalized, [], false)
      requires prepared !! finalized.Keys && prepared + finalized.Keys == Below(k)
      modifies this`log, this`monitor, this`aborted, this`messages, this`streamingMessage, this`pendingToolCalls
      modifies steering, followUp
      ensures Valid() && (old(aborted) ==> aborted)
      ensures monitor == old(monitor).(tools := Tools(k + 1, prepared', prepared', {}, finalized', [], false))
      ensures prepared' !! finalized'.Keys && prepared' + finalized'.Keys == Below(k + 1)
    {
      hide Valid, Step, Allowed, Below;
      BelowNext(k, prepared, finalized);
      prepared', finalized' := prepared, finalized;
      EmitToolStart(k, call);
      var ready: bool := *;
      if ready && !aborted {
        MarkPrepared(k);
        prepared' := prepared + {k};
        World();
      } else {
        finalized' := RefuseOne(k, call, prepared, finalized);
      }
    }

    /** A call that cannot be executed ends at once. */
    method RefuseOne(k: nat, call: CallId, ghost prepared: set<nat>, finalized: map<nat, Outcome>)
      returns (finalized': map<nat, Outcome>)
      requires Valid() && Running(monitor, k, call) && monitor.reply.stop != Length && k !in prepared
      requires monitor.tools == Tools(k + 1, prepared + {k}, prepared, {}, finalized, [], false)
      modifies this`log, this`monitor, this`aborted, this`messages, this`streamingMessage, this`pendingToolCalls
      modifies steering, followUp
      ensures Valid() && (old(aborted) ==> aborted) && finalized'.Keys == finalized.Keys + {k}
      ensures monitor == old(monitor).(tools := Tools(k + 1, prepared, prepared, {}, finalized', [], false))
    {
      hide Valid, Step, Allowed;
      var outcome := RefusedOutcome();
      EmitToolEnd(k, call, outcome);
      assert prepared + {k} - {k} == prepared;
      finalized' := finalized[k := outcome];
    }

    /** First pass of a parallel batch: every call starts; the ones that cannot be executed end at once,
        the others are left prepared. An abort ends the pass early. */
    method StartCalls(calls: seq<CallId>) returns (n: nat, prepared: set<nat>, finalized: map<nat, Outcome>)
      requires Valid() && monitor.phase == Replied && monitor.reply.Assistant? && monitor.reply.calls == calls != []
      requires !monitor.reply.Failed() && monitor.reply.stop != Length && monitor.tools == NoTools()
      modifies this`log, this`monitor, this`aborted, this`messages, this`streamingMessage, this`pendingToolCalls
      modifies steering, followUp
      ensures Valid() && (old(aborted) ==> aborted)
      ensures monitor == old(monitor).(tools := Tools(n, prepared, prepared, {}, finalized, [], false))
      ensures prepared !! finalized.Keys && prepared + finalized.Keys == Below(n)
      ensures n == |calls| || (aborted && 0 < n < |calls|)
    {
      hide Valid, Step, Allowed;
      BeginBatch(false);
      n, prepared, finalized := 0, {}, map[];
      while n < |calls|
        invariant Valid() && (old(aborted) ==> aborted) && 0 <= n <= |calls| && (aborted ==> n == 0)
        invariant monitor == old(monitor).(tools := Tools(n, prepared, prepared, {}, finalized, [], false))
        invariant prepared !! finalized.Keys && prepared + finalized.Keys == Below(n)
      {
        prepared, finalized := StartOne(n, calls[n], prepared, finalized);
        n := n + 1;
        if aborted {
          break;
        }
      }
    }

    /** Second pass: the prepared calls run side by side and end in any order. */
    method FinishCalls(calls: seq<CallId>, n: nat, prepared: set<nat>, immediate: map<nat, Outcome>)
      returns (finalized: map<nat, Outcome>)
      requires Valid() && monitor.phase == Replied && monitor.reply.Assistant? && monitor.reply.calls == calls
      requires monitor.reply.stop != Length && n <= |calls|
      requires monitor.tools == Tools(n, prepared, prepared, {}, immediate, [], false)
      requires prepared + immediate.Keys == Below(n)
      modifies this`log, this`monitor, this`aborted, this`messages, this`streamingMessage, this`pendingToolCalls
      modifies steering, followUp
      ensures Valid() && (old(aborted) ==> aborted) && finalized.Keys == Below(n)
      ensures monitor == old(monitor).(tools := Tools(n, {}, prepared, monitor.tools.executed, finalized, [], false))
      ensures monitor.tools.executed <= prepared && (!aborted ==> monitor.tools.executed == prepared)
    {
      AllUnderWay(n, prepared, immediate, aborted);
      hide Valid, Step, Allowed, Below, BatchDone, WantsMore, UnderWay;
      var remaining, executing := prepared, {};
      var updates: nat :| true;
      finalized := immediate;
      while remaining != {}
        invariant Valid() && (old(aborted) ==> aborted)
        invariant monitor == old(monitor).(tools := Tools(n, remaining, prepared, executing, finalized, [], false))
        invariant UnderWay(n, prepared, remaining, executing, finalized, aborted)
        decreases |remaining|, |remaining - executing|, updates
      {
        var k :| k in remaining;
        IsUnderWay(n, prepared, remaining, executing, finalized, aborted, k);
        remaining, executing, finalized, updates := Advance(k, calls[k], n, prepared, remaining, executing, finalized, updates);
      }
      NoneUnderWay(n, prepared, executing, finalized, aborted);
    }

    /** One prepared call moves on: it begins, reports an update, or ends. */
    method Advance(k: nat, call: CallId, ghost n: nat, ghost prepared: set<nat>, remaining: set<nat>, executing: set<nat>,
                   finalized: map<nat, Outcome>, updates: nat)
      returns (remaining': set<nat>, executing': set<nat>, finalized': map<nat, Outcome>, updates': nat)
      requires Valid() && Running(monitor, k, call) && monitor.reply.stop != Length && k in remaining
      requires UnderWay(n, prepared, remaining, executing, finalized, aborted)
      requires monitor.tools == Tools(n, remaining, prepared, executing, finalized, [], false)
      modifies this`log, this`monitor, this`aborted, this`messages, this`streamingMessage, this`pendingToolCalls
      modifies steering, followUp
      ensures Valid() && (old(aborted) ==> aborted)
      ensures monitor == old(monitor).(tools := Tools(n, remaining', prepared, executing', finalized', [], false))
      ensures UnderWay(n, prepared, remaining', executing', finalized', aborted)
      ensures || |remaining'| < |remaining|
              || (remaining' == remaining && |remaining' - executing'| < |remaining - executing|)
              || (remaining' == remaining && executing' == executing && updates' < updates)
    {
      hide Valid, Step, Allowed, BatchDone, WantsMore, UnderWay;
      remaining', executing', finalized', updates' := remaining, executing, finalized, updates;
      var wait: bool := *;
      if k !in executing && !aborted {
        BeginsToExecute(n, prepared, remaining, executing, finalized, aborted, k);
        BeginExecution(k);
        executing' := executing + {k};
      } else if k in executing && wait && updates > 0 {
        EmitToolUpdate(k, call);
        updates' := updates - 1;
      } else {
        remaining', finalized' := ConcludeOne(k, call, n, prepared, remaining, executing, finalized);
      }
      Progress(k, remaining, executing, remaining', executing');
      StaysUnderWay(n, prepared, remaining', executing', finalized', old(aborted), aborted);
    }

    /** Ends a prepared call that has been executed or is not to be. */
    method ConcludeOne(k: nat, call: CallId, ghost n: nat, ghost prepared: set<nat>, remaining: set<nat>, executing: set<nat>,
                       finalized: map<nat, Outcome>)
      returns (remaining': set<nat>, finalized': map<nat, Outcome>)
      requires Valid() && Running(monitor, k, call) && monitor.reply.stop != Length && k in remaining && (k in executing || aborted)
      requires UnderWay(n, prepared, remaining, executing, finalized, aborted)
      requires monitor.tools == Tools(n, remaining, prepared, executing, finalized, [], false)
      modifies this`log, this`monitor, this`aborted, this`messages, this`streamingMessage, this`pendingToolCalls
      modifies steering, followUp
      ensures Valid() && (old(aborted) ==> aborted) && remaining' == remaining - {k}
      ensures monitor == old(monitor).(tools := Tools(n, remaining', prepared, executing, finalized', [], false))
      ensures UnderWay(n, prepared, remaining', executing, finalized', old(aborted))
    {
      hide Valid, Step, Allowed, BatchDone, WantsMore, UnderWay;
      var outcome;
      if k in executing {
        outcome := ToolOutcome();
      } else {
        outcome := SkippedOutcome();
      }
      IsOver(n, prepared, remaining, executing, finalized, aborted, k, outcome);
      EmitToolEnd(k, call, outcome);
      remaining', finalized' := remaining - {k}, finalized[k := outcome];
    }

    /** Third pass: the result messages, in the order of the calls. */
    method ReportCalls(calls: seq<CallId>, n: nat, finalized: map<nat, Outcome>)
      returns (results: seq<Message>, ordered: seq<Outcome>)
      requires Valid() && monitor.phase == Replied && monitor.reply.Assistant? && monitor.reply.calls == calls
      requires n <= |calls| && finalized.Keys == Below(n)
      requires monitor.tools == Tools(n, {}, monitor.tools.prepared, monitor.tools.executed, finalized, [], false)
      modifies this`log, this`monitor, this`aborted, this`messages, this`streamingMessage, this`pendingToolCalls
      modifies steering, followUp
      ensures Valid() && (old(aborted) ==> aborted) && |results| == |ordered| == n
      ensures forall k :: 0 <= k < n ==> ordered[k] == finalized[k]
      ensures monitor == old(monitor).(tools := old(monitor.tools).(results := results), ended := old(monitor.ended) + results)
    {
      hide Valid, Step, Allowed;
      results, ordered := [], [];
      for k := 0 to n
        invariant Valid() && (old(aborted) ==> aborted) && |results| == |ordered| == k
        invariant forall i :: 0 <= i < k ==> ordered[i] == finalized[i]
        invariant monitor == old(monitor).(tools := old(monitor.tools).(results := results), ended := old(monitor.ended) + results)
      {
        var result := EmitToolResult(k, calls[k], finalized[k]);
        results, ordered := results + [result], ordered + [finalized[k]];
      }
    }

    method ExecuteParallel(calls: seq<CallId>) returns (results: seq<Message>, terminate: bool)
      requires Valid() && monitor.phase == Replied && monitor.reply.Assistant? && monitor.reply.calls == calls != []
      requires !monitor.reply.Failed() && monitor.reply.stop != Length && monitor.tools == NoTools()
      modifies this`log, this`monitor, this`aborted, this`messages, this`streamingMessage, this`pendingToolCalls
      modifies steering, followUp
      ensures Valid() && ToolsMoved(old(monitor), monitor) && (old(aborted) ==> aborted)
      ensures BatchDone(monitor, aborted) && results == monitor.tools.results && monitor.ended == old(monitor.ended) + results
      ensures monitor.tools.executed <= monitor.tools.prepared && (!aborted ==> monitor.tools.executed == monitor.tools.prepared)
      ensures terminate == !WantsMore(monitor)
    {
      hide Valid, Step, Allowed, WantsMore, BatchDone, ToolsMoved, Below;
      var n, prepared, immediate := StartCalls(calls);
      var finalized := FinishCalls(calls, n, prepared, immediate);
      var ordered;
      results, ordered := ReportCalls(calls, n, finalized);
      terminate := ShouldTerminate(ordered);
      ParallelIsDone(old(monitor), monitor, n, prepared, finalized, results, aborted);
      TerminateMeansNoMore(monitor, ordered);
    }

    /** The calls of a reply, by whichever rule applies to it. */
    method RunToolCalls(reply: Message) returns (results: seq<Message>, more: bool)
      requires Valid() && monitor.phase == Replied && monitor.reply == reply && reply.Assistant?
      requires !reply.Failed() && monitor.tools == NoTools()
      modifies this`log, this`monitor, this`aborted, this`messages, this`streamingMessage, this`pendingToolCalls
      modifies steering, followUp
      ensures Valid() && ToolsMoved(old(monitor), monitor) && (old(aborted) ==> aborted)
      ensures BatchDone(monitor, aborted) && results == monitor.tools.results && monitor.ended == old(monitor.ended) + results
      ensures more == WantsMore(monitor)
      ensures reply.stop == Length ==> monitor.tools.executed == {}
    {
      hide Valid, Step, Allowed;
      results, more := [], false;
      if |reply.calls| > 0 {
        if reply.stop == Length {
          results := FailToolCalls(reply.calls);
          more := true;
        } else {
          var sequential: bool, terminate: bool := *, *;
          if sequential {
            results, terminate := ExecuteSequential(reply.calls);
          } else {
            results, terminate := ExecuteParallel(reply.calls);
          }
          more := !terminate;
        }
      }
    }

    // ---- turns ---------------------------------------------------------------------------------

    /** The run's own records agree with what it has emitted. */
    ghost predicate Recorded()
      reads this`newMessages, this`monitor, this`context, this`contextBase, this`plain, this`quietStart
    {
      && newMessages == monitor.ended && (plain ==> context == contextBase + monitor.ended)
      && (quietStart ==> monitor.opening == []) && (monitor.skipped ==> quietStart)
    }

    /** Emits one message that was due and enters it into the records. */
    method InjectOne(m: Message)
      requires Valid() && monitor.phase == Turn && monitor.due != [] && m == monitor.due[0] && Recorded()
      modifies this`log, this`monitor, this`aborted, this`messages, this`streamingMessage, this`pendingToolCalls
      modifies steering, followUp
      modifies this`context, this`newMessages, this`plain
      ensures Valid() && (old(aborted) ==> aborted) && Recorded()
      ensures monitor == old(monitor).(due := old(monitor.due)[1..], injected := old(monitor.injected) + [m],
                                       ended := old(monitor.ended) + [m])
    {
      hide Valid;
      ProcessEvents(MessageStart(m));
      ProcessEvents(MessageEnd(m));
      context, newMessages := context + [m], newMessages + [m];
    }

    method Inject(pending: seq<Message>)
      requires Valid() && monitor.phase == Turn && monitor.due == pending && Recorded()
      modifies this`log, this`monitor, this`aborted, this`messages, this`streamingMessage, this`pendingToolCalls
      modifies steering, followUp
      modifies this`context, this`newMessages, this`plain
      ensures Valid() && (old(aborted) ==> aborted) && Recorded()
      ensures monitor == old(monitor).(due := [], injected := old(monitor.injected) + pending,
                                       ended := old(monitor.ended) + pending)
    {
      hide Valid, Step, Allowed, Recorded;
      for i := 0 to |pending|
        invariant Valid() && (old(aborted) ==> aborted) && Recorded()
        invariant monitor == old(monitor).(due := pending[i..], injected := old(monitor.injected) + pending[..i],
                                           ended := old(monitor.ended) + pending[..i])
      {
        assert pending[i..][1..] == pending[i + 1..] && pending[..i + 1] == pending[..i] + [pending[i]];
        InjectOne(pending[i]);
      }
      assert pending[..|pending|] == pending;
    }

    method EmitTurnStart()
      requires Valid() && monitor.phase == Between
      requires monitor.turns == 0
               || (monitor.Quiet() && monitor.polls > 0 && (monitor.due != [] || (monitor.more && monitor.polls > 1)))
      modifies this`log, this`monitor, this`aborted, this`messages, this`streamingMessage, this`pendingToolCalls
      modifies steering, followUp
      ensures Valid() && (old(aborted) ==> aborted)
      ensures monitor == old(monitor).(phase := Turn, turns := old(monitor.turns) + 1, tools := NoTools(), more := false,
                                       asked := false)
    {
      hide Valid;
      ProcessEvents(TurnStart);
    }

    method EmitTurnEnd(reply: Message, results: seq<Message>)
      requires Valid() && monitor.phase == Replied && reply == monitor.reply && results == monitor.tools.results
      requires BatchDone(monitor, aborted)
      modifies this`log, this`monitor, this`aborted, this`messages, this`streamingMessage, this`pendingToolCalls
      modifies steering, followUp
      ensures Valid() && (old(aborted) ==> aborted)
      ensures monitor == old(monitor).(phase := Between, more := WantsMore(old(monitor)), polls := 0)
    {
      hide Valid, WantsMore, BatchDone;
      ProcessEvents(TurnEnd(reply, results));
    }

    method EmitAgentEnd()
      requires Valid() && monitor.phase == Between && monitor.turns > 0 && newMessages == monitor.ended && monitor.due == []
      requires monitor.reply.Failed() || monitor.stopped || (monitor.asked && !monitor.more)
      modifies this`log, this`monitor, this`aborted, this`messages, this`streamingMessage, this`pendingToolCalls
      modifies steering, followUp
      ensures Valid() && (old(aborted) ==> aborted) && monitor == old(monitor).(phase := Ended)
    {
      hide Valid;
      ProcessEvents(AgentEnd(newMessages));
    }

    /** Streams a reply into the records. */
    method TakeReply() returns (reply: Message)
      requires Valid() && monitor.phase == Turn && monitor.due == [] && Recorded() && monitor.Steered()
      modifies this`log, this`monitor, this`aborted, this`messages, this`streamingMessage, this`pendingToolCalls
      modifies steering, followUp
      modifies this`context, this`newMessages, this`plain
      ensures Valid() && (old(aborted) ==> aborted) && Recorded() && reply.Assistant?
      ensures monitor == old(monitor).(phase := Replied, drained := false, ended := old(monitor.ended) + [reply],
                                       reply := reply)
    {
      hide Valid, Step, Allowed;
      var starts;
      reply, starts := StreamAssistantResponse();
      newMessages := newMessages + [reply];
      plain := plain && starts <= 1;
    }

    /** Runs the calls of the reply into the records. */
    method TakeResults(reply: Message) returns (results: seq<Message>, more: bool)
      requires Valid() && monitor.phase == Replied && monitor.reply == reply && reply.Assistant?
      requires !reply.Failed() && monitor.tools == NoTools() && Recorded()
      modifies this`log, this`monitor, this`aborted, this`messages, this`streamingMessage, this`pendingToolCalls
      modifies steering, followUp
      modifies this`context, this`newMessages, this`plain
      ensures Valid() && (old(aborted) ==> aborted) && Recorded() && ToolsMoved(old(monitor), monitor)
      ensures BatchDone(monitor, aborted) && results == monitor.tools.results && more == WantsMore(monitor)
    {
      hide Valid, Step, Allowed, WantsMore, BatchDone;
      results, more := RunToolCalls(reply);
      context, newMessages := context + results, newMessages + results;
    }

    /** A reply and its tool calls, up to the end of the turn. */
    method RunReply() returns (failed: bool, more: bool)
      requires Valid() && monitor.phase == Turn && monitor.due == [] && monitor.tools == NoTools() && Recorded()
      requires monitor.Steered()
      modifies this`log, this`monitor, this`aborted, this`messages, this`streamingMessage, this`pendingToolCalls
      modifies steering, followUp
      modifies this`context, this`newMessages, this`plain
      ensures Valid() && (old(aborted) ==> aborted) && Recorded() && failed == monitor.reply.Failed()
      ensures monitor.phase == Between && more == monitor.more && !monitor.drained
      ensures monitor == old(monitor).(phase := Between, drained := false, ended := monitor.ended, reply := monitor.reply,
                                       tools := monitor.tools, more := monitor.more, polls := 0)
    {
      hide Valid, Step, Allowed, WantsMore, BatchDone;
      var reply := TakeReply();
      var results := [];
      failed, more := reply.Failed(), false;
      if failed {
        NothingToDo(monitor, aborted);
      } else {
        results, more := TakeResults(reply);
      }
      EmitTurnEnd(reply, results);
    }

    // ---- the run -------------------------------------------------------------------------------

    /** At the head of the inner loop: what is pending is due, and whether there is more to do is known. */
    ghost predicate AtHead(pending: seq<Message>, hasMore: bool, completed: bool)
      reads this`monitor, this`skipInitialSteeringPoll
    {
      && monitor.due == pending && (monitor.drained <==> pending != []) && !skipInitialSteeringPoll
      && (if completed then monitor.Quiet() && monitor.polls > 0 && (hasMore && pending == [] ==> monitor.more) && (!hasMore ==> !monitor.more)
          else hasMore && monitor.phase == Turn && monitor.turns == 1 && monitor.tools == NoTools()
               && monitor.Steered())
    }

    /** `prepareNextTurn`, the second look at the steering queue and `turn_start`. */
    method PrepareTurn(pending: seq<Message>, ghost hasMore: bool) returns (pending': seq<Message>)
      requires Valid() && Recorded() && AtHead(pending, hasMore, true) && (hasMore || pending != [])
      modifies this`log, this`monitor, this`aborted, this`messages, this`streamingMessage, this`pendingToolCalls
      modifies steering, followUp
      modifies this`context, this`newMessages, this`plain
      modifies this`skipInitialSteeringPoll
      ensures Valid() && (old(aborted) ==> aborted) && Recorded()
      ensures monitor.phase == Turn && monitor.due == pending' && monitor.tools == NoTools() && monitor.turns > 1 && monitor.polls > 0
      ensures !monitor.stopped && !skipInitialSteeringPoll
    {
      hide Valid, Step, Allowed;
      var replace: bool := *;
      if replace {
        var replacement: seq<Message> :| true;
        context, plain := replacement, false;
      }
      World();
      pending' := pending;
      if |pending| == 0 {
        pending' := Poll(Steering);
        PollKeeps(old(monitor), Steering, pending');
      }
      EmitTurnStart();
    }

    /** After a turn: whether to stop, and what to steer with. */
    method AfterTurn(more: bool) returns (stopped: bool, pending: seq<Message>)
      requires Valid() && Recorded() && monitor.Quiet() && monitor.due == [] && !monitor.drained && more == monitor.more
      requires monitor.polls == 0 && !skipInitialSteeringPoll
      modifies this`log, this`monitor, this`aborted, this`messages, this`streamingMessage, this`pendingToolCalls
      modifies steering, followUp
      modifies this`skipInitialSteeringPoll
      ensures Valid() && (old(aborted) ==> aborted) && Recorded()
      ensures stopped ==> monitor.phase == Between && monitor.stopped && monitor.due == [] && monitor.turns > 0
      ensures !stopped ==> AtHead(pending, more, true)
    {
      hide Valid, Step;
      stopped := *;
      World();
      pending := [];
      if stopped {
        StopKeeps(monitor);
        Note(StopRequested);
      } else {
        ghost var before := monitor;
        pending := Poll(Steering);
        PollKeeps(before, Steering, pending);
      }
    }

    /** One pass of the inner loop. */
    method RunTurn(pending: seq<Message>, ghost hasMore: bool, completed: bool)
      returns (over: bool, pending': seq<Message>, more: bool)
      requires Valid() && Recorded() && AtHead(pending, hasMore, completed) && (hasMore || pending != [])
      requires !monitor.stopped
      modifies this`log, this`monitor, this`aborted, this`messages, this`streamingMessage, this`pendingToolCalls
      modifies steering, followUp
      modifies this`context, this`newMessages, this`plain
      modifies this`skipInitialSteeringPoll
      ensures Valid() && (old(aborted) ==> aborted) && Recorded()
      ensures over ==> monitor.phase == Ended
      ensures !over ==> AtHead(pending', more, true)
    {
      hide Valid, Step, Allowed;
      pending' := pending;
      if completed {
        pending' := PrepareTurn(pending, hasMore);
      }
      Inject(pending');
      over, more := RunReply();
      if !over {
        over, pending' := AfterTurn(more);
      }
      if over {
        EmitAgentEnd();
      }
    }

    /** The loop, for at most `turns` turns. `done` says that it came to its end. */
    method RunLoop(turns: nat) returns (done: bool)
      requires Valid() && Recorded() && monitor.phase == Turn && monitor.turns == 1 && monitor.due == []
      requires !monitor.drained && monitor.tools == NoTools() && !monitor.stopped && monitor.polls == 0 && !monitor.skipped
      requires quietStart <==> skipInitialSteeringPoll
      modifies this`log, this`monitor, this`aborted, this`messages, this`streamingMessage, this`pendingToolCalls
      modifies steering, followUp
      modifies this`context, this`newMessages, this`plain
      modifies this`skipInitialSteeringPoll
      ensures Valid() && (old(aborted) ==> aborted) && Recorded()
      ensures done ==> monitor.phase == Ended
    {
      hide Valid, Step, Allowed;
      var left, completed := turns, false;
      ghost var first := monitor;
      var pending := Poll(Steering);
      PollKeeps(first, Steering, pending);
      while true
        invariant Valid() && (old(aborted) ==> aborted) && Recorded() && AtHead(pending, true, completed)
        invariant !monitor.stopped
        decreases left
      {
        var hasMore := true;
        ghost var outer := left;
        while hasMore || |pending| > 0
          invariant Valid() && (old(aborted) ==> aborted) && Recorded() && AtHead(pending, hasMore, completed)
          invariant left <= outer && (hasMore || completed) && (left == outer ==> hasMore)
          invariant !monitor.stopped
          decreases left
        {
          if left == 0 {
            return false;
          }
          var over;
          over, pending, hasMore := RunTurn(pending, hasMore, completed);
          if over {
            return true;
          }
          completed, left := true, left - 1;
        }
        ghost var before := monitor;
        var followUps := Poll(FollowUp);
        PollKeeps(before, FollowUp, followUps);
        if |followUps| == 0 {
          break;
        }
        pending := followUps;
      }
      EmitAgentEnd();
      done := true;
    }

    // ---- running the agent ---------------------------------------------------------------------

    /** Nothing is under way. */
    ghost predicate Idle()
      reads this, steering, followUp
    {
      Valid() && !activeRun && !isStreaming && pendingToolCalls == {} && streamingMessage == None
    }

    /** The run that began in the given state, with these prompts, is over. */
    ghost predicate Finished(input: seq<Message>, before: seq<Message>)
      reads this, steering, followUp
    {
      && Idle() && prompts == input && monitor.phase == Ended && Accepts(input, log, monitor)
      && newMessages == MessageEnds(log) && messages == before + newMessages
    }

    /** `runAgentLoop`: announce the run and its prompts, then loop. */
    method RunAgentLoop(input: seq<Message>, turns: nat) returns (done: bool)
      requires Valid() && monitor == Start(input) && messages == contextBase && plain
      requires quietStart <==> skipInitialSteeringPoll
      modifies this`log, this`monitor, this`aborted, this`messages, this`streamingMessage, this`pendingToolCalls
      modifies steering, followUp
      modifies this`context, this`newMessages, this`plain, this`skipInitialSteeringPoll
      ensures Valid() && (done ==> monitor.phase == Ended) && Recorded()
    {
      hide Valid, Step, Allowed;
      newMessages, context := input, messages + input;
      EmitAgentStart();
      EmitTurnStart();
      ghost var before := monitor;
      for i := 0 to |input|
        invariant Valid() && newMessages == input && context == old(messages) + input && plain
        invariant skipInitialSteeringPoll == old(skipInitialSteeringPoll)
        invariant monitor == before.(due := input[i..], injected := input[..i], ended := input[..i])
      {
        assert input[i..][1..] == input[i + 1..] && input[..i + 1] == input[..i] + [input[i]];
        EmitPrompt(input[i]);
      }
      assert input[..|input|] == input;
      done := RunLoop(turns);
    }

    method EmitAgentStart()
      requires Valid() && monitor.phase == AgentSpec.Idle
      modifies this`log, this`monitor, this`aborted, this`messages, this`streamingMessage, this`pendingToolCalls
      modifies steering, followUp
      ensures Valid() && monitor == old(monitor).(phase := Between)
    {
      hide Valid;
      ProcessEvents(AgentStart);
    }

    method EmitPrompt(m: Message)
      requires Valid() && monitor.phase == Turn && monitor.due != [] && m == monitor.due[0]
      modifies this`log, this`monitor, this`aborted, this`messages, this`streamingMessage, this`pendingToolCalls
      modifies steering, followUp
      ensures Valid()
      ensures monitor == old(monitor).(due := old(monitor.due)[1..], injected := old(monitor.injected) + [m],
                                       ended := old(monitor.ended) + [m])
    {
      hide Valid;
      ProcessEvents(MessageStart(m));
      ProcessEvents(MessageEnd(m));
    }

    /** Forgets the log of the run before. */
    ghost method NewLog(input: seq<Message>)
      requires steering != followUp && steering.Valid() && followUp.Valid() && !aborted
      modifies this`log, this`monitor, this`prompts, this`base, this`steeringBase, this`followUpBase
      modifies this`contextBase, this`plain
      ensures Valid() && log == [] && monitor == Start(input) && prompts == input && base == State()
      ensures steeringBase == steering.delivered && followUpBase == followUp.delivered
      ensures contextBase == messages && plain
    {
      log, monitor, prompts, base := [], Start(input), input, State();
      steeringBase, followUpBase := steering.delivered, followUp.delivered;
      contextBase, plain := messages, true;
    }

    /** `runWithLifecycle` around one run of the loop. */
    method RunWithLifecycle(input: seq<Message>, turns: nat, skipPoll: bool) returns (done: bool)
      requires Idle()
      modifies this, steering, followUp
      ensures Valid() && prompts == input
      ensures steering.delivered == old(steering.delivered) + Drained(log, Steering)
      ensures followUp.delivered == old(followUp.delivered) + Drained(log, FollowUp)
      ensures if done then Finished(input, old(messages)) else activeRun
      ensures done && plain ==> context == messages
      ensures skipPoll ==> OpeningDrains(log) == []
      ensures !skipPoll ==> Skipped !in log
    {
      BeginRun(input, skipPoll);
      hide Check, Drained, Step, Allowed, Finished, ReduceAll, Valid, Idle, OpeningDrains, MessageEnds, Recorded;
      done := RunAgentLoop(input, turns);
      Ledgers();
      NothingOpened();
      if done {
        FinishRun();
      }
    }

    method BeginRun(input: seq<Message>, skipPoll: bool)
      requires Idle()
      modifies this
      ensures Valid() && log == [] && monitor == Start(input) && prompts == input && base == State() == old(State())
      ensures base.pendingToolCalls == {} && base.streamingMessage == None
      ensures steeringBase == steering.delivered == old(steering.delivered) && followUpBase == followUp.delivered == old(followUp.delivered)
      ensures contextBase == messages == old(messages) && plain && activeRun
      ensures skipInitialSteeringPoll == quietStart == skipPoll
    {
      hide Check, Drained, ReduceAll;
      activeRun, isStreaming, aborted, skipInitialSteeringPoll := true, true, false, skipPoll;
      NewLog(input);
      quietStart := skipPoll;
    }

    lemma NothingOpened()
      requires Valid() && Recorded()
      ensures quietStart ==> OpeningDrains(log) == []
      ensures Skipped in log ==> quietStart
    {
      LeftOutTracked(prompts, log, monitor);
      OpeningTracked(prompts, log, monitor);
      hide Check, ReduceAll, Drained, OpeningDrains;
    }

    lemma Ledgers()
      requires Valid()
      ensures steering.delivered == steeringBase + Drained(log, Steering)
      ensures followUp.delivered == followUpBase + Drained(log, FollowUp)
    {
      hide Check, ReduceAll, Drained;
    }

    /** `finishRun`. When the loop has come to its end there is nothing left to clean up. */
    method FinishRun()
      requires Valid() && monitor.phase == Ended && Recorded()
      requires base.pendingToolCalls == {} && base.streamingMessage == None && contextBase == base.messages
      modifies this`isStreaming, this`activeRun, this`streamingMessage, this`pendingToolCalls
      ensures Valid() && Finished(prompts, base.messages) && State() == old(State())
      ensures plain ==> context == messages
    {
      hide Check, ReduceAll, MessageEnds, Drained;
      RunLeavesNothing(prompts, log, monitor, base);
      isStreaming, activeRun := false, false;
      streamingMessage, pendingToolCalls := None, {};
    }

    /** `prompt` */
    method Prompt(input: seq<Message>, turns: nat) returns (result: Result)
      requires if activeRun then Valid() else Idle()
      modifies this, steering, followUp
      ensures old(activeRun) ==> result == Busy && State() == old(State())
      ensures !old(activeRun) ==> result.Ran? && Valid() && Skipped !in log
      ensures !old(activeRun) && result == Ran(true) ==> Finished(input, old(messages))
      ensures !old(activeRun) ==> steering.delivered == old(steering.delivered) + Drained(log, Steering)
      ensures !old(activeRun) ==> followUp.delivered == old(followUp.delivered) + Drained(log, FollowUp)
    {
      if activeRun {
        return Busy;
      }
      var done := RunWithLifecycle(input, turns, false);
      return Ran(done);
    }

    /** Takes what is queued while no run is under way. */
    method TakeQueued(source: Source) returns (queued: seq<Message>)
      requires Idle()
      modifies this`log, this`monitor, this`prompts, this`base, this`steeringBase, this`followUpBase
      modifies this`contextBase, this`plain, this`aborted, steering, followUp
      ensures Idle()
      ensures source == Steering ==> old(steering.messages) == queued + steering.messages
                                     && steering.delivered == old(steering.delivered) + queued
                                     && followUp.delivered == old(followUp.delivered)
                                     && followUp.messages == old(followUp.messages)
      ensures source == FollowUp ==> old(followUp.messages) == queued + followUp.messages
                                     && followUp.delivered == old(followUp.delivered) + queued
                                     && steering.delivered == old(steering.delivered)
      ensures queued == [] <==> old(if source == Steering then steering.messages else followUp.messages) == []
      ensures old(if source == Steering then steering.oneAtATime else followUp.oneAtATime) ==> |queued| <= 1
      ensures !old(if source == Steering then steering.oneAtATime else followUp.oneAtATime) ==>
                queued == old(if source == Steering then steering.messages else followUp.messages)
      ensures steering.oneAtATime == old(steering.oneAtATime) && followUp.oneAtATime == old(followUp.oneAtATime)
    {
      if source == Steering {
        queued := steering.DrainQueue();
      } else {
        queued := followUp.DrainQueue();
      }
      aborted := false;
      NewLog([]);
    }

    /** `continue`: after an assistant message, go on with what is queued. */
    method ContinueRun(turns: nat) returns (result: Result)
      requires if activeRun then Valid() else Idle()
      modifies this, steering, followUp
      ensures result == Busy <==> old(activeRun)
      ensures result == NothingToContinueFrom <==> !old(activeRun) && old(messages) == []
      ensures result == CannotContinueFromAssistant <==>
                !old(activeRun) && old(messages) != [] && old(messages)[|old(messages)| - 1].Assistant?
                && old(steering.messages) == [] && old(followUp.messages) == []
      ensures result.Ran? ==> Valid() && (result.done ==> Finished(prompts, old(messages)))
      ensures !result.Ran? ==> State() == old(State())
      ensures result.Ran? && !old(messages)[|old(messages)| - 1].Assistant? ==> prompts == []
      ensures result.Ran? && prompts == [] ==>
                && Skipped !in log
                && steering.delivered == old(steering.delivered) + Drained(log, Steering)
                && followUp.delivered == old(followUp.delivered) + Drained(log, FollowUp)
      ensures result.Ran? && prompts != [] && old(steering.messages) != [] ==>
                && prompts <= old(steering.messages) && OpeningDrains(log) == []
                && (if old(steering.oneAtATime) then |prompts| == 1 else prompts == old(steering.messages))
                && steering.delivered == old(steering.delivered) + prompts + Drained(log, Steering)
                && followUp.delivered == old(followUp.delivered) + Drained(log, FollowUp)
      ensures result.Ran? && prompts != [] && old(steering.messages) == [] ==>
                && Skipped !in log
                && prompts <= old(followUp.messages)
                && (if old(followUp.oneAtATime) then |prompts| == 1 else prompts == old(followUp.messages))
                && followUp.delivered == old(followUp.delivered) + prompts + Drained(log, FollowUp)
                && steering.delivered == old(steering.delivered) + Drained(log, Steering)
    {
      hide Check, ReduceAll, MessageEnds, Drained, Finished;
      if activeRun {
        return Busy;
      }
      if |messages| == 0 {
        return NothingToContinueFrom;
      }
      var done;
      if messages[|messages| - 1].Assistant? {
        var queued := TakeQueued(Steering);
        if |queued| > 0 {
          done := RunWithLifecycle(queued, turns, true);
          return Ran(done);
        }
        queued := TakeQueued(FollowUp);
        if |queued| > 0 {
          done := RunWithLifecycle(queued, turns, false);
          return Ran(done);
        }
        return CannotContinueFromAssistant;
      }
      done := RunWithLifecycle([], turns, false);
      return Ran(done);
    }
  }
}
