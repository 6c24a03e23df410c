/** What the log of any run the automaton accepts looks like. */
module AgentTheorems {
  import opened Wrappers
  import opened AgentSpec

  ghost predicate Accepts(prompts: seq<Message>, log: seq<Entry>, m: Monitor) {
    exists aborted :: Check(prompts, log) == Some(Status(m, aborted))
  }

  /** The log without its last entry is accepted too, and the last entry was allowed there. */
  lemma Earlier(prompts: seq<Message>, log: seq<Entry>, m: Monitor) returns (before: Monitor, aborted: bool)
    requires Accepts(prompts, log, m) && log != []
    ensures Check(prompts, log[..|log| - 1]) == Some(Status(before, aborted))
    ensures Accepts(prompts, log[..|log| - 1], before)
    ensures Allowed(before, aborted, log[|log| - 1]) && m == Step(before, log[|log| - 1])
  {
    before := Check(prompts, log[..|log| - 1]).value.monitor;
    aborted := Check(prompts, log[..|log| - 1]).value.aborted;
  }

  // ---- messages --------------------------------------------------------------------------------

  /** The messages the run has recorded are the payloads of its `message_end` events, and the
      transcript has grown by exactly those. */
  lemma {:induction false} TranscriptIsPayloads(prompts: seq<Message>, log: seq<Entry>, m: Monitor, s: AgentState)
    requires Accepts(prompts, log, m)
    ensures MessageEnds(log) == m.ended
    ensures ReduceAll(s, log).messages == s.messages + m.ended
    decreases |log|
  {
    hide Step, Allowed;
    if log != [] {
      var before, aborted := Earlier(prompts, log, m);
      TranscriptIsPayloads(prompts, log[..|log| - 1], before, s);
      EndedGrows(before, aborted, log[|log| - 1]);
      hide Check;
    }
  }

  lemma EndedGrows(m: Monitor, aborted: bool, e: Entry)
    requires Allowed(m, aborted, e)
    ensures Step(m, e).ended == m.ended + if e.Emit? && e.event.MessageEnd? then [e.event.message] else []
  {
    hide WantsMore, Allowed, EndMessage;
    match e {
      case Emit(MessageEnd(x)) => EndingGrows(m, x);
      case _ =>
    }
  }

  /** Whatever was in a queue and has been drained is either in the transcript or about to be, in the
      order it was drained, after the run's own prompts. */
  lemma {:induction false} DrainedIsInjectedOrDue(prompts: seq<Message>, log: seq<Entry>, m: Monitor)
    requires Accepts(prompts, log, m)
    ensures prompts + AllDrained(log) == m.injected + m.due
    decreases |log|
  {
    hide Step, Allowed;
    if log != [] {
      var before, aborted := Earlier(prompts, log, m);
      DrainedIsInjectedOrDue(prompts, log[..|log| - 1], before);
      DueMoves(before, aborted, log[|log| - 1]);
      hide Check;
    }
  }

  lemma EndingMovesDue(m: Monitor, x: Message)
    requires MayEndMessage(m, x)
    ensures EndMessage(m, x).injected + EndMessage(m, x).due == m.injected + m.due
  {
    if m.phase == Injecting {
      assert m.due == [m.due[0]] + m.due[1..];
    }
  }

  lemma DueMoves(m: Monitor, aborted: bool, e: Entry)
    requires Allowed(m, aborted, e)
    ensures Step(m, e).injected + Step(m, e).due == m.injected + m.due + if e.Drain? then e.messages else []
  {
    hide WantsMore, EndMessage, MayStartTurn, MayStartMessage, MayEndMessage, MayStartTool, MayEndTool, MayEndTurn, MayEndRun, MayExecute;
    match e {
      case Emit(MessageEnd(x)) => EndingMovesDue(m, x);
      case Drain(_, _, _) =>
      case _ =>
    }
  }

  /** `part` can be had from `whole` by leaving messages out. */
  predicate Subsequence(part: seq<Message>, whole: seq<Message>)
    decreases |whole|
  {
    part == []
    || (whole != []
        && ((part[|part| - 1] == whole[|whole| - 1] && Subsequence(part[..|part| - 1], whole[..|whole| - 1]))
            || Subsequence(part, whole[..|whole| - 1])))
  }

  lemma SubsequenceGrows(part: seq<Message>, whole: seq<Message>, x: Message)
    requires Subsequence(part, whole)
    ensures Subsequence(part, whole + [x]) && Subsequence(part + [x], whole + [x])
  {
    assert (whole + [x])[..|whole|] == whole && (part + [x])[..|part|] == part;
  }

  lemma {:induction false} InjectedInOrder(prompts: seq<Message>, log: seq<Entry>, m: Monitor)
    requires Accepts(prompts, log, m)
    ensures Subsequence(m.injected, m.ended)
    decreases |log|
  {
    hide Step, Allowed;
    if log != [] {
      var before, aborted := Earlier(prompts, log, m);
      InjectedInOrder(prompts, log[..|log| - 1], before);
      var e := log[|log| - 1];
      InjectedGrows(before, aborted, e);
      assert before.ended + [] == before.ended && before.injected + [] == before.injected;
      if e.Emit? && e.event.MessageEnd? {
        SubsequenceGrows(before.injected, before.ended, e.event.message);
      }
      hide Check, Subsequence;
    }
  }

  lemma EndingGrows(m: Monitor, x: Message)
    ensures EndMessage(m, x).ended == m.ended + [x]
    ensures EndMessage(m, x).injected == m.injected || EndMessage(m, x).injected == m.injected + [x]
  {
  }

  lemma InjectedGrows(m: Monitor, aborted: bool, e: Entry)
    requires Allowed(m, aborted, e)
    ensures var x := if e.Emit? && e.event.MessageEnd? then [e.event.message] else [];
            Step(m, e).ended == m.ended + x && (Step(m, e).injected == m.injected || Step(m, e).injected == m.injected + x)
  {
    hide WantsMore, Allowed, EndMessage;
    match e {
      case Emit(MessageEnd(x)) => EndingGrows(m, x);
      case _ =>
    }
  }

  /** Whenever a reply is being streamed, and when the run is over, everything drained so far has
      entered the transcript, in order. */
  lemma DrainedBeforeReply(prompts: seq<Message>, log: seq<Entry>, m: Monitor)
    requires Accepts(prompts, log, m) && (m.phase == Replying || m.phase == Ended)
    ensures Subsequence(prompts + AllDrained(log), MessageEnds(log))
  {
    DrainedIsInjectedOrDue(prompts, log, m);
    InjectedInOrder(prompts, log, m);
    TranscriptIsPayloads(prompts, log, m, AgentState([], None, {}));
    AcceptedIsSound(prompts, log, m);
    assert m.injected + [] == m.injected;
  }

  // ---- drains ----------------------------------------------------------------------------------

  /** Drains that delivered something since the last turn ended. */
  function Deliveries(log: seq<Entry>): nat
    decreases |log|
  {
    if log == [] then 0
    else
      var e := log[|log| - 1];
      if e.Emit? && e.event.TurnEnd? then 0
      else Deliveries(log[..|log| - 1]) + if e.Drain? && e.messages != [] then 1 else 0
  }

  predicate Answering(m: Monitor) {
    m.phase == Replied || m.phase == Reporting
  }

  lemma DrainedByEvent(m: Monitor, aborted: bool, e: Event)
    requires MayEmit(m, aborted, e) && (Answering(m) ==> !m.drained)
    ensures var t := React(m, e);
            if e.TurnEnd? then !t.drained && !Answering(t)
            else if Answering(t) then !t.drained
            else t.drained == m.drained && !Answering(m)
  {
    hide WantsMore, NextResult, BatchDone, MayEndTool, MayStartTool, StartTool, EndTool;
  }

  /** What has been drained since the last reply keeps further drains from delivering anything. */
  lemma DrainedMoves(m: Monitor, aborted: bool, e: Entry)
    requires Allowed(m, aborted, e) && (Answering(m) ==> !m.drained)
    ensures var t := Step(m, e);
            if e.Emit? && e.event.TurnEnd? then !t.drained && !Answering(t)
            else if Answering(t) then !t.drained && !e.Drain?
            else !Answering(m) && t.drained == (m.drained || (e.Drain? && e.messages != []))
                 && (e.Drain? && e.messages != [] ==> !m.drained)
  {
    hide MayEmit, React;
    if e.Emit? {
      DrainedByEvent(m, aborted, e.event);
    }
  }

  lemma {:induction false} DeliveriesTracked(prompts: seq<Message>, log: seq<Entry>, m: Monitor)
    requires Accepts(prompts, log, m)
    ensures Deliveries(log) <= 1
    ensures m.phase != Replied && m.phase != Reporting ==> Deliveries(log) == if m.drained then 1 else 0
    ensures m.phase == Replied || m.phase == Reporting ==> !m.drained
    decreases |log|
  {
    hide Step, Allowed;
    if log != [] {
      hide Check;
      var before, aborted := Earlier(prompts, log, m);
      DeliveriesTracked(prompts, log[..|log| - 1], before);
      DrainedMoves(before, aborted, log[|log| - 1]);
    }
  }

  /** No turn injects more than one drain. */
  lemma OneDrainPerTurn(prompts: seq<Message>, log: seq<Entry>, m: Monitor)
    requires Accepts(prompts, log, m)
    ensures Deliveries(log) <= 1
  {
    DeliveriesTracked(prompts, log, m);
  }

  /** What the turn that is under way has been given so far: payloads of `message_end` since the last turn
      ended. */
  function Given(log: seq<Entry>): seq<Message>
    decreases |log|
  {
    if log == [] then []
    else
      var e := log[|log| - 1];
      if e.Emit? && e.event.TurnEnd? then []
      else Given(log[..|log| - 1]) + if e.Emit? && e.event.MessageEnd? then [e.event.message] else []
  }

  /** What has been drained for it: since the last turn ended. */
  function DrainedForTurn(log: seq<Entry>): seq<Message>
    decreases |log|
  {
    if log == [] then []
    else
      var e := log[|log| - 1];
      if e.Emit? && e.event.TurnEnd? then [] else DrainedForTurn(log[..|log| - 1]) + if e.Drain? then e.messages else []
  }

  /** The queues have been in one-at-a-time mode at every drain since the last turn ended. */
  predicate OneAtATime(log: seq<Entry>)
    decreases |log|
  {
    log == []
    || var e := log[|log| - 1];
       (e.Emit? && e.event.TurnEnd?) || ((e.Drain? ==> e.oneAtATime) && OneAtATime(log[..|log| - 1]))
  }

  /** The run's own prompts belong to its first turn. */
  function OwnPrompts(prompts: seq<Message>, m: Monitor): seq<Message> {
    if m.turns == 0 || (m.turns == 1 && InTurn(m)) then prompts else []
  }

  predicate BeforeReply(m: Monitor) {
    m.phase != Replied && m.phase != Reporting && m.phase != Ended
  }

  lemma DueByMessage(m: Monitor, x: Message)
    requires MayEndMessage(m, x) && PhaseSound(m) && BeforeReply(EndMessage(m, x))
    ensures [x] + EndMessage(m, x).due == m.due
    ensures EndMessage(m, x).turns == m.turns && InTurn(EndMessage(m, x)) && InTurn(m)
  {
    hide NextResult;
  }

  lemma DueMovesByEvent(prompts: seq<Message>, m: Monitor, aborted: bool, e: Event)
    requires MayEmit(m, aborted, e) && PhaseSound(m) && BeforeReply(m) && BeforeReply(React(m, e))
    ensures OwnPrompts(prompts, React(m, e)) == OwnPrompts(prompts, m)
    ensures (if e.MessageEnd? then [e.message] else []) + React(m, e).due == m.due
  {
    hide WantsMore, EndMessage, NextResult, BatchDone, MayStartTool, MayEndTool, MayEndRun, MayEndMessage, StartTool, EndTool;
    match e {
      case MessageEnd(x) => DueByMessage(m, x);
      case _ =>
    }
  }

  lemma DueMovesTurn(prompts: seq<Message>, m: Monitor, aborted: bool, e: Entry)
    requires Allowed(m, aborted, e) && PhaseSound(m) && BeforeReply(m) && BeforeReply(Step(m, e))
    ensures OwnPrompts(prompts, Step(m, e)) == OwnPrompts(prompts, m)
    ensures if e.Drain? then m.due == [] && Step(m, e).due == e.messages
            else (if e.Emit? && e.event.MessageEnd? then [e.event.message] else []) + Step(m, e).due == m.due
  {
    hide MayEmit, React;
    if e.Emit? {
      DueMovesByEvent(prompts, m, aborted, e.event);
      hide OwnPrompts, PhaseSound;
    }
  }

  lemma GivenMoves(prompts: seq<Message>, m: Monitor, aborted: bool, e: Entry, given: seq<Message>, drained: seq<Message>)
    requires Allowed(m, aborted, e) && PhaseSound(m) && BeforeReply(m) && BeforeReply(Step(m, e))
    requires given + m.due == OwnPrompts(prompts, m) + drained
    ensures given + (if e.Emit? && e.event.MessageEnd? then [e.event.message] else []) + Step(m, e).due
         == OwnPrompts(prompts, Step(m, e)) + (drained + if e.Drain? then e.messages else [])
  {
    hide Allowed, Step, PhaseSound, OwnPrompts, BeforeReply;
    DueMovesTurn(prompts, m, aborted, e);
    var ended := if e.Emit? && e.event.MessageEnd? then [e.event.message] else [];
    assert given + ended + Step(m, e).due == given + (ended + Step(m, e).due);
    if e.Drain? {
      assert given + m.due == given;
      assert given + [] + e.messages == given + e.messages;
    }
  }

  lemma {:induction false} GivenTracked(prompts: seq<Message>, log: seq<Entry>, m: Monitor)
    requires Accepts(prompts, log, m) && BeforeReply(m)
    ensures Given(log) + m.due == OwnPrompts(prompts, m) + DrainedForTurn(log)
    decreases |log|
  {
    hide Step, Allowed, Sound, PhaseSound;
    if log != [] {
      hide OwnPrompts, BeforeReply;
      var before, aborted := Earlier(prompts, log, m);
      var rest, e := log[..|log| - 1], log[|log| - 1];
      AcceptedIsSound(prompts, rest, before);
      hide Check;
      if e.Emit? && e.event.TurnEnd? {
        SoundPhase(before);
        TurnEndClears(before, aborted, e);
      } else {
        OnlyTurnEndPasses(before, aborted, e);
        GivenTracked(prompts, rest, before);
        SoundPhase(before);
        GivenMoves(prompts, before, aborted, e, Given(rest), DrainedForTurn(rest));
      }
    }
  }

  lemma SoundPhase(m: Monitor)
    requires Sound(m)
    ensures PhaseSound(m)
  {
  }

  lemma TurnEndClears(m: Monitor, aborted: bool, e: Entry)
    requires Allowed(m, aborted, e) && e.Emit? && e.event.TurnEnd? && PhaseSound(m)
    ensures Step(m, e).due == [] && forall prompts :: OwnPrompts(prompts, Step(m, e)) == []
  {
    hide WantsMore, BatchDone;
  }

  lemma OnlyTurnEndPasses(m: Monitor, aborted: bool, e: Entry)
    requires Allowed(m, aborted, e) && BeforeReply(Step(m, e)) && !(e.Emit? && e.event.TurnEnd?)
    ensures BeforeReply(m)
  {
    if e.Emit? {
      OnlyTurnEventPasses(m, aborted, e);
    } else {
      hide MayStartMessage, MayEndMessage, MayStartTool, MayEndTool, MayStartTurn, MayEndTurn, MayEndRun;
    }
  }

  lemma OnlyTurnEventPasses(m: Monitor, aborted: bool, e: Entry)
    requires Allowed(m, aborted, e) && BeforeReply(Step(m, e)) && e.Emit? && !e.event.TurnEnd?
    ensures BeforeReply(m)
  {
    hide WantsMore, NextResult, BatchDone, MayDrain, MayExecute, MayPrepare, MayChooseRule, MayStartTool, MayEndTool, MayEndTurn, StartTool, EndTool;
  }

  lemma {:induction false} DrainsAreSmall(prompts: seq<Message>, log: seq<Entry>, m: Monitor)
    requires Accepts(prompts, log, m) && OneAtATime(log)
    ensures |DrainedForTurn(log)| <= Deliveries(log)
    decreases |log|
  {
    hide Step;
    if log != [] {
      var before, aborted := Earlier(prompts, log, m);
      var e := log[|log| - 1];
      if !(e.Emit? && e.event.TurnEnd?) {
        DrainsAreSmall(prompts, log[..|log| - 1], before);
      }
      hide Check;
    }
  }

  /** When a reply is streamed, its turn has been given exactly what was drained since the turn before
      ended, in order, the first turn also the run's prompts before that; and in one-at-a-time mode no turn
      is given more than one queued message. */
  lemma TurnIsGivenWhatWasDrained(prompts: seq<Message>, log: seq<Entry>, m: Monitor)
    requires Accepts(prompts, log, m) && m.phase == Replying
    ensures Given(log) == (if m.turns == 1 then prompts else []) + DrainedForTurn(log)
    ensures OneAtATime(log) ==> |DrainedForTurn(log)| <= 1
  {
    AcceptedIsSound(prompts, log, m);
    GivenTracked(prompts, log, m);
    assert Given(log) + [] == Given(log);
    if OneAtATime(log) {
      DrainsAreSmall(prompts, log, m);
      DeliveriesTracked(prompts, log, m);
    }
  }

  /** Turns that have ended. */
  function TurnsEnded(log: seq<Entry>): nat
    decreases |log|
  {
    if log == [] then 0
    else
      var e := log[|log| - 1];
      TurnsEnded(log[..|log| - 1]) + if e.Emit? && e.event.TurnEnd? then 1 else 0
  }

  /** What was drained before the first turn ended. */
  function OpeningDrains(log: seq<Entry>): seq<Message>
    decreases |log|
  {
    if log == [] then []
    else
      var e, rest := log[|log| - 1], log[..|log| - 1];
      OpeningDrains(rest) + if e.Drain? && TurnsEnded(rest) == 0 then e.messages else []
  }

  lemma {:induction false} TurnsEndedTracked(prompts: seq<Message>, log: seq<Entry>, m: Monitor)
    requires Accepts(prompts, log, m)
    ensures TurnsEnded(log) == if InTurn(m) then m.turns - 1 else m.turns
    decreases |log|
  {
    hide Step, Allowed, Sound;
    if log != [] {
      var before, aborted := Earlier(prompts, log, m);
      TurnsEndedTracked(prompts, log[..|log| - 1], before);
      AcceptedIsSound(prompts, log[..|log| - 1], before);
      PhaseMoves(before, aborted, log[|log| - 1]);
      SoundPhase(before);
      hide Check;
    }
  }

  lemma OpeningMoves(m: Monitor, aborted: bool, e: Entry)
    requires Allowed(m, aborted, e) && PhaseSound(m)
    ensures Step(m, e).opening == m.opening + if e.Drain? && InTurn(m) then e.messages else []
    ensures e.Drain? ==> if InTurn(m) then m.turns == 1 else m.turns > 0
  {
    hide WantsMore, EndMessage, MayStartTurn, MayStartMessage, MayEndMessage, MayStartTool, MayEndTool, MayEndTurn, MayEndRun, MayExecute;
    match e {
      case Emit(MessageEnd(x)) => EndingKeepsOpening(m, x);
      case Drain(_, messages, _) => assert m.opening + [] == m.opening;
      case _ =>
    }
  }

  lemma EndingKeepsOpening(m: Monitor, x: Message)
    ensures EndMessage(m, x).opening == m.opening
  {
  }

  lemma {:induction false} OpeningTracked(prompts: seq<Message>, log: seq<Entry>, m: Monitor)
    requires Accepts(prompts, log, m)
    ensures OpeningDrains(log) == m.opening
    decreases |log|
  {
    hide Step, Allowed, Sound, PhaseSound;
    if log != [] {
      var before, aborted := Earlier(prompts, log, m);
      OpeningTracked(prompts, log[..|log| - 1], before);
      TurnsEndedTracked(prompts, log[..|log| - 1], before);
      AcceptedIsSound(prompts, log[..|log| - 1], before);
      SoundPhase(before);
      OpeningMoves(before, aborted, log[|log| - 1]);
      hide Check;
    }
  }

  lemma {:induction false} FirstTurnDrains(log: seq<Entry>)
    requires TurnsEnded(log) == 0
    ensures DrainedForTurn(log) == OpeningDrains(log)
    decreases |log|
  {
    if log != [] {
      FirstTurnDrains(log[..|log| - 1]);
    }
  }

  /** What the first turn has been given when its reply is streamed: the run's prompts, and then what was
      drained before it ended; so nothing else if nothing was. */
  lemma FirstTurnIsGiven(prompts: seq<Message>, log: seq<Entry>, m: Monitor)
    requires Accepts(prompts, log, m) && m.phase == Replying && m.turns == 1
    ensures Given(log) == prompts + OpeningDrains(log)
  {
    TurnIsGivenWhatWasDrained(prompts, log, m);
    TurnsEndedTracked(prompts, log, m);
    FirstTurnDrains(log);
  }

  /** Looks at the steering queue since the last turn ended. */
  function SteeringPolls(log: seq<Entry>): nat
    decreases |log|
  {
    if log == [] then 0
    else
      var e := log[|log| - 1];
      if e.Emit? && e.event.TurnEnd? then 0
      else SteeringPolls(log[..|log| - 1]) + if e.Drain? && e.source == Steering then 1 else 0
  }

  lemma PollsMove(m: Monitor, aborted: bool, e: Entry)
    requires Allowed(m, aborted, e)
    ensures Step(m, e).polls == if e.Emit? && e.event.TurnEnd? then 0
                                else m.polls + if e.Drain? && e.source == Steering then 1 else 0
  {
    hide Allowed, WantsMore;
  }

  lemma {:induction false} PollsTracked(prompts: seq<Message>, log: seq<Entry>, m: Monitor)
    requires Accepts(prompts, log, m)
    ensures SteeringPolls(log) == m.polls
    decreases |log|
  {
    hide Step, Allowed;
    if log != [] {
      var before, aborted := Earlier(prompts, log, m);
      PollsTracked(prompts, log[..|log| - 1], before);
      PollsMove(before, aborted, log[|log| - 1]);
      hide Check;
    }
  }

  /** The follow-up queue is looked at, and a further turn started, only after the steering queue has been
      looked at since the last turn; a turn that nothing is due for has it looked at twice. */
  lemma SteeringIsAskedFirst(prompts: seq<Message>, log: seq<Entry>, e: Entry, m: Monitor)
    requires Accepts(prompts, log + [e], m)
    requires (e.Drain? && e.source == FollowUp) || (e == Emit(TurnStart) && m.turns > 1)
    ensures SteeringPolls(log) >= 1
    ensures e == Emit(TurnStart) && m.due == [] ==> SteeringPolls(log) >= 2
  {
    var before, aborted := Earlier(prompts, log + [e], m);
    assert (log + [e])[..|log|] == log;
    PollsTracked(prompts, log, before);
    hide Check, WantsMore;
  }

  lemma SkippingMoves(m: Monitor, e: Entry)
    ensures Step(m, e).skipped <==> m.skipped || e.Skipped?
  {
    hide WantsMore, StartTool, EndTool;
  }

  lemma {:induction false} LeftOutTracked(prompts: seq<Message>, log: seq<Entry>, m: Monitor)
    requires Accepts(prompts, log, m)
    ensures m.skipped <==> Skipped in log
    decreases |log|
  {
    hide Step, Allowed;
    if log != [] {
      var n := |log| - 1;
      var before, aborted := Earlier(prompts, log, m);
      LeftOutTracked(prompts, log[..n], before);
      assert log == log[..n] + [log[n]];
      SkippingMoves(before, log[n]);
      hide Check;
    }
  }

  lemma SteeringStays(m: Monitor, aborted: bool, e: Entry)
    requires Allowed(m, aborted, e) && Step(m, e).phase == Replying
    ensures m.phase == Replying || m.Steered()
    ensures m.Steered() ==> Step(m, e).Steered()
  {
    hide MayEmit, React;
    if e.Emit? {
      SteeringStaysByEvent(m, aborted, e.event);
    }
  }

  lemma SteeringStaysByEvent(m: Monitor, aborted: bool, e: Event)
    requires MayEmit(m, aborted, e) && React(m, e).phase == Replying
    ensures m.phase == Replying || m.Steered()
    ensures m.Steered() ==> React(m, e).Steered()
  {
    hide WantsMore, NextResult, BatchDone, MayEndRun, StartTool, EndTool;
  }

  lemma {:induction false} ReplyIsSteered(prompts: seq<Message>, log: seq<Entry>, m: Monitor)
    requires Accepts(prompts, log, m) && m.phase == Replying
    ensures m.Steered()
    decreases |log|
  {
    hide Step, Allowed;
    var before, aborted := Earlier(prompts, log, m);
    SteeringStays(before, aborted, log[|log| - 1]);
    if before.phase == Replying {
      ReplyIsSteered(prompts, log[..|log| - 1], before);
    }
    hide Check;
  }

  /** No reply is streamed before the steering queue has been looked at since the turn before, the first one
      unless the run was to leave its first look out. */
  lemma SteeredBeforeReply(prompts: seq<Message>, log: seq<Entry>, m: Monitor)
    requires Accepts(prompts, log, m) && m.phase == Replying
    ensures SteeringPolls(log) >= 1 || Skipped in log
  {
    ReplyIsSteered(prompts, log, m);
    PollsTracked(prompts, log, m);
    LeftOutTracked(prompts, log, m);
    hide Check;
  }

  // ---- the shape of the trace ------------------------------------------------------------------

  predicate InTurn(m: Monitor) {
    m.phase == Turn || m.phase == Injecting || m.phase == Replying || m.phase == Replied || m.phase == Reporting
  }

  /** The books of a batch: the calls before `started` are running or over, and the results so far are
      those of the first calls. */
  predicate ToolsSound(reply: Message, tools: Tools) {
    && (forall k :: k in tools.running ==> k < tools.started)
    && (forall k :: k in tools.outcomes ==> k < tools.started)
    && tools.running !! tools.outcomes.Keys
    && (forall k :: 0 <= k < tools.started ==> k in tools.running || k in tools.outcomes)
    && |tools.results| <= tools.started
    && tools.executed <= tools.prepared <= tools.running + tools.outcomes.Keys
    && (forall k :: k in tools.outcomes && k !in tools.executed ==> tools.outcomes[k].isError)
    && (tools.executed != {} ==> reply.Assistant? && reply.stop != Length)
    && (reply.Assistant? && reply.stop == Length ==> forall k :: k in tools.outcomes ==> tools.outcomes[k].isError)
    && (tools.started > 0 ==> reply.Assistant? && tools.started <= |reply.calls|)
    && (forall i {:trigger tools.results[i]} :: 0 <= i < |tools.results| ==> IsResult(reply, tools.outcomes, i, tools.results[i]))
  }

  predicate IsResult(reply: Message, outcomes: map<nat, Outcome>, i: nat, x: Message) {
    reply.Assistant? && i < |reply.calls| && i in outcomes
    && x == ToolResult(reply.calls[i], outcomes[i].content, outcomes[i].isError)
  }

  /** What the phase says about the rest. */
  predicate PhaseSound(m: Monitor) {
    && (m.phase == Idle || m.phase == Turn || m.phase == Injecting || m.phase == Replying ==> m.tools == NoTools())
    && (m.phase == Idle ==> m.turns == 0)
    && (m.phase == Between || m.phase == Ended ==> m.tools.running == {})
    && (InTurn(m) || m.phase == Ended ==> m.turns > 0)
    && (m.phase == Replying || m.phase == Replied || m.phase == Reporting || m.phase == Ended ==> m.due == [])
    && (m.phase == Injecting ==> m.due != [])
    && (m.phase == Replied || m.phase == Reporting || (m.phase == Between && m.turns > 0) ==> m.reply.Assistant?)
  }

  predicate Sound(m: Monitor) {
    PhaseSound(m) && ToolsSound(m.reply, m.tools)
  }

  lemma EndingKeepsPhaseSound(m: Monitor, x: Message)
    requires PhaseSound(m) && MayEndMessage(m, x)
    ensures PhaseSound(EndMessage(m, x))
  {
    hide NextResult;
  }

  lemma TurnEndKeepsPhaseSound(m: Monitor, aborted: bool, x: Message, results: seq<Message>)
    requires PhaseSound(m) && MayEndTurn(m, aborted, x, results)
    ensures PhaseSound(m.(phase := Between, more := WantsMore(m), polls := 0))
  {
    hide WantsMore;
  }

  lemma ToolsKeepPhaseSound(m: Monitor, tools: Tools)
    requires PhaseSound(m) && m.phase == Replied
    ensures PhaseSound(m.(tools := tools))
  {
  }

  lemma BeginningKeepsPhaseSound(m: Monitor, x: Message)
    requires PhaseSound(m) && MayStartMessage(m, x)
    ensures PhaseSound(BeginMessage(m))
  {
    hide NextResult;
  }

  lemma DrainKeepsPhaseSound(m: Monitor, source: Source, messages: seq<Message>, oneAtATime: bool)
    requires PhaseSound(m) && MayDrain(m, source, messages, oneAtATime)
    ensures PhaseSound(Deliver(m, source, messages))
  {
  }

  lemma EventKeepsPhaseSound(m: Monitor, aborted: bool, e: Event)
    requires PhaseSound(m) && MayEmit(m, aborted, e)
    ensures PhaseSound(React(m, e))
  {
    hide WantsMore, BatchDone, NextResult, StartTool, EndTool, EndMessage, BeginMessage, MayStartMessage, MayEndMessage, MayEndTurn;
    match e {
      case MessageStart(x) => BeginningKeepsPhaseSound(m, x);
      case MessageEnd(x) => EndingKeepsPhaseSound(m, x);
      case TurnEnd(x, results) => TurnEndKeepsPhaseSound(m, aborted, x, results);
      case ToolStart(k, c) => ToolsKeepPhaseSound(m, StartTool(m.tools, k));
      case ToolEnd(k, c, o) => ToolsKeepPhaseSound(m, EndTool(m.tools, k, o));
      case _ =>
    }
  }

  lemma PhaseStaysSound(m: Monitor, aborted: bool, e: Entry)
    requires PhaseSound(m) && Allowed(m, aborted, e)
    ensures PhaseSound(Step(m, e))
  {
    hide MayEmit, React, MayDrain, Deliver;
    match e {
      case Emit(event) => EventKeepsPhaseSound(m, aborted, event);
      case Drain(source, messages, oneAtATime) => DrainKeepsPhaseSound(m, source, messages, oneAtATime);
      case Batch(sequential) => ToolsKeepPhaseSound(m, m.tools.(sequential := sequential));
      case Prepared(k) => ToolsKeepPhaseSound(m, m.tools.(prepared := m.tools.prepared + {k}));
      case Execute(k) => ToolsKeepPhaseSound(m, m.tools.(executed := m.tools.executed + {k}));
      case _ =>
    }
  }

  lemma NoToolsSound(reply: Message, sequential: bool)
    ensures ToolsSound(reply, NoTools().(sequential := sequential))
  {
  }

  lemma ExecutedStaysSound(reply: Message, tools: Tools, after: Tools)
    requires ToolsSound(reply, tools)
    requires after == tools.(prepared := after.prepared, executed := after.executed, sequential := after.sequential)
    requires reply.Assistant? && reply.stop != Length
    requires tools.executed <= after.executed <= after.prepared <= tools.running + tools.outcomes.Keys
    ensures ToolsSound(reply, after)
  {
    forall i | 0 <= i < |after.results| ensures IsResult(reply, after.outcomes, i, after.results[i]) {
      assert IsResult(reply, tools.outcomes, i, tools.results[i]);
    }
  }

  lemma PreparedStaysSound(m: Monitor, aborted: bool, e: Entry, k: nat)
    requires Sound(m) && Allowed(m, aborted, e) && (e == Prepared(k) || e == Execute(k))
    ensures ToolsSound(Step(m, e).reply, Step(m, e).tools)
  {
    ExecutedStaysSound(m.reply, m.tools, Step(m, e).tools);
  }

  lemma StartStaysSound(m: Monitor, aborted: bool, k: nat, c: CallId)
    requires Sound(m) && MayStartTool(m, aborted, k, c)
    ensures ToolsSound(m.reply, StartTool(m.tools, k))
  {
    var after := StartTool(m.tools, k);
    forall i | 0 <= i < |after.results| ensures IsResult(m.reply, after.outcomes, i, after.results[i]) {
      assert IsResult(m.reply, m.tools.outcomes, i, m.tools.results[i]);
    }
  }

  lemma EndStaysSound(m: Monitor, aborted: bool, k: nat, c: CallId, o: Outcome)
    requires Sound(m) && MayEndTool(m, aborted, k, c, o)
    ensures ToolsSound(m.reply, EndTool(m.tools, k, o))
  {
    var after := EndTool(m.tools, k, o);
    forall i | 0 <= i < |after.results| ensures IsResult(m.reply, after.outcomes, i, after.results[i]) {
      assert IsResult(m.reply, m.tools.outcomes, i, m.tools.results[i]);
    }
  }

  lemma ResultsStaySound(m: Monitor, x: Message)
    requires Sound(m) && MayEndMessage(m, x)
    ensures ToolsSound(EndMessage(m, x).reply, EndMessage(m, x).tools)
  {
    var after := EndMessage(m, x);
    forall i | 0 <= i < |after.tools.results| ensures IsResult(after.reply, after.tools.outcomes, i, after.tools.results[i]) {
      assert i < |m.tools.results| ==> IsResult(m.reply, m.tools.outcomes, i, m.tools.results[i]);
    }
  }

  lemma ToolsStaySoundByEvent(m: Monitor, aborted: bool, e: Event)
    requires Sound(m) && MayEmit(m, aborted, e)
    ensures ToolsSound(React(m, e).reply, React(m, e).tools)
  {
    hide WantsMore, MayStartTurn, MayStartMessage, MayEndMessage, MayStartTool, MayEndTool, MayEndTurn, MayEndRun, Running, ToolsSound, PhaseSound;
    hide StartTool, EndTool, EndMessage;
    match e {
      case TurnStart => NoToolsSound(m.reply, false);
      case MessageEnd(x) => ResultsStaySound(m, x);
      case ToolStart(k, c) => StartStaysSound(m, aborted, k, c);
      case ToolEnd(k, c, o) => EndStaysSound(m, aborted, k, c, o);
      case _ =>
    }
  }

  lemma ToolsStaySound(m: Monitor, aborted: bool, e: Entry)
    requires Sound(m) && Allowed(m, aborted, e)
    ensures ToolsSound(Step(m, e).reply, Step(m, e).tools)
  {
    hide MayEmit, React, MayDrain, ToolsSound, PhaseSound;
    match e {
      case Emit(event) => ToolsStaySoundByEvent(m, aborted, event);
      case Batch(sequential) => NoToolsSound(m.reply, sequential);
      case Prepared(k) => PreparedStaysSound(m, aborted, e, k);
      case Execute(k) => PreparedStaysSound(m, aborted, e, k);
      case _ =>
    }
  }

  lemma {:induction false} AcceptedIsSound(prompts: seq<Message>, log: seq<Entry>, m: Monitor)
    requires Accepts(prompts, log, m)
    ensures Sound(m)
    decreases |log|
  {
    hide PhaseSound, ToolsSound, Step, Allowed;
    if log != [] {
      var before, aborted := Earlier(prompts, log, m);
      AcceptedIsSound(prompts, log[..|log| - 1], before);
      PhaseStaysSound(before, aborted, log[|log| - 1]);
      ToolsStaySound(before, aborted, log[|log| - 1]);
    } else {
      StartIsSound(prompts);
    }
  }

  lemma StartIsSound(prompts: seq<Message>)
    ensures Sound(Start(prompts))
  {
  }

  // ---- tool calls ------------------------------------------------------------------------------

  /** Starts of call `k` since the last turn began. */
  function StartsOf(log: seq<Entry>, k: nat): nat
    decreases |log|
  {
    if log == [] then 0
    else
      var e := log[|log| - 1];
      if e.Emit? && e.event.TurnStart? then 0
      else StartsOf(log[..|log| - 1], k) + if e.Emit? && e.event.ToolStart? && e.event.index == k then 1 else 0
  }

  /** Ends of call `k` since the last turn began. */
  function EndsOf(log: seq<Entry>, k: nat): nat
    decreases |log|
  {
    if log == [] then 0
    else
      var e := log[|log| - 1];
      if e.Emit? && e.event.TurnStart? then 0
      else EndsOf(log[..|log| - 1], k) + if e.Emit? && e.event.ToolEnd? && e.event.index == k then 1 else 0
  }

  /** Some call of this turn has ended without asking to stop. */
  predicate Unterminated(log: seq<Entry>)
    decreases |log|
  {
    log != []
    && var e := log[|log| - 1];
       !(e.Emit? && e.event.TurnStart?)
       && ((e.Emit? && e.event.ToolEnd? && !e.event.outcome.terminate) || Unterminated(log[..|log| - 1]))
  }

  lemma {:induction false} CallsTracked(prompts: seq<Message>, log: seq<Entry>, m: Monitor, k: nat)
    requires Accepts(prompts, log, m)
    ensures StartsOf(log, k) == if k < m.tools.started then 1 else 0
    ensures EndsOf(log, k) == if k in m.tools.outcomes then 1 else 0
    decreases |log|
  {
    hide Step, Allowed, Sound;
    if log != [] {
      var before, aborted := Earlier(prompts, log, m);
      CallsTracked(prompts, log[..|log| - 1], before, k);
      AcceptedIsSound(prompts, log[..|log| - 1], before);
      CallMoves(before, aborted, log[|log| - 1], k);
      hide Check;
    }
  }

  lemma StartingMovesCalls(m: Monitor, aborted: bool, k: nat, c: CallId)
    requires Sound(m) && MayStartTool(m, aborted, k, c)
    ensures k == m.tools.started && StartTool(m.tools, k).started == k + 1
    ensures StartTool(m.tools, k).outcomes == m.tools.outcomes
  {
  }

  lemma EndingMovesCalls(m: Monitor, aborted: bool, k: nat, c: CallId, o: Outcome)
    requires Sound(m) && MayEndTool(m, aborted, k, c, o)
    ensures k !in m.tools.outcomes && EndTool(m.tools, k, o).outcomes == m.tools.outcomes[k := o]
    ensures EndTool(m.tools, k, o).started == m.tools.started
  {
  }

  lemma EndingKeepsCalls(m: Monitor, x: Message)
    ensures EndMessage(m, x).tools == m.tools.(results := EndMessage(m, x).tools.results)
  {
  }

  /** What an event does to the calls of a turn. */
  lemma EventMovesTools(m: Monitor, e: Event)
    ensures var t := React(m, e).tools;
            match e
            case TurnStart => t == NoTools()
            case ToolStart(k, _) => t == StartTool(m.tools, k)
            case ToolEnd(k, _, o) => t == EndTool(m.tools, k, o)
            case MessageEnd(_) => t == m.tools.(results := t.results)
            case _ => t == m.tools
    ensures React(m, e).reply == if e.MessageEnd? then React(m, e).reply else m.reply
  {
    hide WantsMore, StartTool, EndTool;
  }

  lemma EventMovesCalls(m: Monitor, aborted: bool, e: Event, k: nat)
    requires MayEmit(m, aborted, e) && Sound(m)
    ensures var t := React(m, e).tools;
            if e.TurnStart? then t == NoTools()
            else if e.ToolStart? && e.index == k then k == m.tools.started && t.started == k + 1 && t.outcomes == m.tools.outcomes
            else if e.ToolEnd? && e.index == k then k !in m.tools.outcomes && k in t.outcomes && t.started == m.tools.started
            else (k < t.started <==> k < m.tools.started) && (k in t.outcomes <==> k in m.tools.outcomes)
  {
    EventMovesTools(m, e);
    match e {
      case ToolStart(i, c) => StartingMovesCalls(m, aborted, i, c);
      case ToolEnd(i, c, o) => EndingMovesCalls(m, aborted, i, c, o);
      case _ =>
    }
    hide React, Sound, StartTool, EndTool, MayStartTurn, MayStartMessage, MayEndMessage, MayStartTool, MayEndTool, MayEndTurn, MayEndRun;
  }

  lemma CallMoves(m: Monitor, aborted: bool, e: Entry, k: nat)
    requires Allowed(m, aborted, e) && Sound(m)
    ensures var t := Step(m, e).tools;
            if e.Emit? && e.event.TurnStart? then t == NoTools()
            else if e.Emit? && e.event.ToolStart? && e.event.index == k then
              k == m.tools.started && t.started == k + 1 && t.outcomes == m.tools.outcomes
            else if e.Emit? && e.event.ToolEnd? && e.event.index == k then
              k !in m.tools.outcomes && k in t.outcomes && t.started == m.tools.started
            else
              (k < t.started <==> k < m.tools.started) && (k in t.outcomes <==> k in m.tools.outcomes)
  {
    hide Sound, MayEmit, React, MayDrain;
    if e.Emit? {
      EventMovesCalls(m, aborted, e.event, k);
    }
  }

  /** Preparations of call `k` since the last turn began. */
  function PreparationsOf(log: seq<Entry>, k: nat): nat
    decreases |log|
  {
    if log == [] then 0
    else
      var e := log[|log| - 1];
      if e.Emit? && e.event.TurnStart? then 0
      else PreparationsOf(log[..|log| - 1], k) + if e == Prepared(k) then 1 else 0
  }

  /** Executions of call `k` since the last turn began. */
  function ExecutionsOf(log: seq<Entry>, k: nat): nat
    decreases |log|
  {
    if log == [] then 0
    else
      var e := log[|log| - 1];
      if e.Emit? && e.event.TurnStart? then 0
      else ExecutionsOf(log[..|log| - 1], k) + if e == Execute(k) then 1 else 0
  }

  lemma {:induction false} ExecutionsTracked(prompts: seq<Message>, log: seq<Entry>, m: Monitor, k: nat)
    requires Accepts(prompts, log, m)
    ensures PreparationsOf(log, k) == if k in m.tools.prepared then 1 else 0
    ensures ExecutionsOf(log, k) == if k in m.tools.executed then 1 else 0
    decreases |log|
  {
    hide Step, Allowed;
    if log != [] {
      var before, aborted := Earlier(prompts, log, m);
      ExecutionsTracked(prompts, log[..|log| - 1], before, k);
      ExecutedMoves(before, aborted, log[|log| - 1], k);
      hide Check;
    }
  }

  lemma ExecutedMoves(m: Monitor, aborted: bool, e: Entry, k: nat)
    requires Allowed(m, aborted, e)
    ensures if e.Emit? && e.event.TurnStart? then Step(m, e).tools == NoTools()
            else && (k in Step(m, e).tools.prepared <==> k in m.tools.prepared || e == Prepared(k))
                 && (k in Step(m, e).tools.executed <==> k in m.tools.executed || e == Execute(k))
                 && (e == Prepared(k) ==> k !in m.tools.prepared) && (e == Execute(k) ==> k !in m.tools.executed)
  {
    hide MayEmit, React, MayDrain;
    if e.Emit? {
      EventExecutesNothing(m, e.event);
    }
  }

  lemma EventExecutesNothing(m: Monitor, e: Event)
    ensures if e.TurnStart? then React(m, e).tools == NoTools()
            else React(m, e).tools.prepared == m.tools.prepared && React(m, e).tools.executed == m.tools.executed
  {
    hide WantsMore;
  }

  /** The rule of the batch of this turn. */
  function OneByOne(log: seq<Entry>): bool
    decreases |log|
  {
    log != []
    && var e := log[|log| - 1];
       if e.Emit? && e.event.TurnStart? then false
       else if e.Batch? then e.sequential else OneByOne(log[..|log| - 1])
  }

  lemma {:induction false} RuleTracked(prompts: seq<Message>, log: seq<Entry>, m: Monitor)
    requires Accepts(prompts, log, m)
    ensures OneByOne(log) == m.tools.sequential
    decreases |log|
  {
    hide Step, Allowed;
    if log != [] {
      var before, aborted := Earlier(prompts, log, m);
      RuleTracked(prompts, log[..|log| - 1], before);
      RuleMoves(before, aborted, log[|log| - 1]);
      hide Check;
    }
  }

  lemma RuleMoves(m: Monitor, aborted: bool, e: Entry)
    requires Allowed(m, aborted, e)
    ensures Step(m, e).tools.sequential == if e.Emit? && e.event.TurnStart? then false
                                           else if e.Batch? then e.sequential else m.tools.sequential
  {
    hide WantsMore, EndMessage, StartTool, EndTool, Allowed;
    match e {
      case Emit(MessageEnd(x)) => EndingKeepsCalls(m, x);
      case Emit(ToolStart(k, _)) => ToolsKeepRule(m.tools, k, Outcome(0, true, false));
      case Emit(ToolEnd(k, _, o)) => ToolsKeepRule(m.tools, k, o);
      case _ =>
    }
  }

  lemma ToolsKeepRule(t: Tools, k: nat, o: Outcome)
    ensures StartTool(t, k).sequential == EndTool(t, k, o).sequential == t.sequential
  {
  }

  /** Once the run is aborted no call is prepared any more, none but the first of a batch starts, unless the
      reply was cut off and none is executed anyway, and none begins to execute but in a batch that runs one
      by one. And in such a batch a call starts only when every call before it has its result. */
  lemma AfterAnAbort(prompts: seq<Message>, log: seq<Entry>, e: Entry, m: Monitor)
    requires Accepts(prompts, log + [e], m)
    ensures Abort in log ==> !e.Prepared? && (e.Execute? ==> OneByOne(log))
    ensures Abort in log && e.Emit? && e.event.ToolStart? && e.event.index > 0 ==> m.reply.Assistant? && m.reply.stop == Length
    ensures e.Emit? && e.event.ToolStart? && OneByOne(log) ==> |m.tools.results| == e.event.index
  {
    var before, aborted := Earlier(prompts, log + [e], m);
    assert (log + [e])[..|log|] == log;
    RuleTracked(prompts, log, before);
    AbortTracked(prompts, log, before, aborted);
    hide Check, WantsMore;
  }

  /** Prepared calls that have ended without being executed owe it to an abort. */
  predicate SkippedByAbort(t: Tools, aborted: bool) {
    forall k :: k in t.outcomes && k in t.prepared && k !in t.executed ==> aborted && !t.sequential
  }

  lemma {:induction false} SkippedTracked(prompts: seq<Message>, log: seq<Entry>, m: Monitor, aborted: bool)
    requires Check(prompts, log) == Some(Status(m, aborted))
    ensures SkippedByAbort(m.tools, aborted)
    decreases |log|
  {
    hide Step, Allowed;
    if log != [] {
      hide SkippedByAbort;
      var status := Check(prompts, log[..|log| - 1]).value;
      SkippedTracked(prompts, log[..|log| - 1], status.monitor, status.aborted);
      AcceptedIsSound(prompts, log[..|log| - 1], status.monitor);
      SkippedMoves(status.monitor, status.aborted, log[|log| - 1]);
    }
  }

  lemma SkippedByEvent(m: Monitor, aborted: bool, e: Event)
    requires MayEmit(m, aborted, e) && Sound(m) && SkippedByAbort(m.tools, aborted)
    ensures SkippedByAbort(React(m, e).tools, aborted)
  {
    EventMovesTools(m, e);
    hide React, PhaseSound, MayStartTurn, MayStartMessage, MayEndMessage, MayStartTool, MayEndTurn, MayEndRun;
  }

  lemma SkippedMoves(m: Monitor, aborted: bool, e: Entry)
    requires Allowed(m, aborted, e) && Sound(m) && SkippedByAbort(m.tools, aborted)
    ensures SkippedByAbort(Step(m, e).tools, aborted || e.Abort?)
  {
    if e.Emit? {
      SkippedByEvent(m, aborted, e.event);
    }
    hide MayEmit, React, MayDrain, PhaseSound;
  }

  lemma {:induction false} UnterminatedTracked(prompts: seq<Message>, log: seq<Entry>, m: Monitor)
    requires Accepts(prompts, log, m)
    ensures Unterminated(log) <==> exists k {:trigger m.tools.outcomes[k]} :: k in m.tools.outcomes && !m.tools.outcomes[k].terminate
    decreases |log|
  {
    hide Step, Allowed, Sound;
    if log != [] {
      var before, aborted := Earlier(prompts, log, m);
      UnterminatedTracked(prompts, log[..|log| - 1], before);
      AcceptedIsSound(prompts, log[..|log| - 1], before);
      OutcomesMove(before, aborted, log[|log| - 1]);
      hide Check;
      var e := log[|log| - 1];
      if e.Emit? && e.event.ToolEnd? {
        assert m.tools.outcomes[e.event.index] == e.event.outcome;
        forall k | k in before.tools.outcomes ensures m.tools.outcomes[k] == before.tools.outcomes[k] {
        }
      }
    }
  }

  lemma OutcomesMove(m: Monitor, aborted: bool, e: Entry)
    requires Allowed(m, aborted, e) && Sound(m)
    ensures Step(m, e).tools.outcomes ==
              if e.Emit? && e.event.TurnStart? then map[]
              else if e.Emit? && e.event.ToolEnd? then m.tools.outcomes[e.event.index := e.event.outcome]
              else m.tools.outcomes
    ensures e.Emit? && e.event.ToolEnd? ==> e.event.index !in m.tools.outcomes
  {
    hide WantsMore, EndMessage, StartTool, EndTool, Sound, MayStartTurn, MayStartMessage, MayEndMessage, MayStartTool, MayEndTool, MayEndTurn, MayEndRun, MayDrain, MayExecute;
    match e {
      case Emit(MessageEnd(x)) => EndingKeepsCalls(m, x);
      case Emit(ToolStart(i, c)) => StartingMovesCalls(m, aborted, i, c);
      case Emit(ToolEnd(i, c, o)) => EndingMovesCalls(m, aborted, i, c, o);
      case _ =>
    }
  }

  /** A turn that has just ended: every call that was started ended once and has one result, in the
      order of the reply; the results cover all the calls, or after an abort a nonempty part of them
      from the front; another turn is wanted exactly if some call did not ask to stop. */
  lemma BatchAtTurnEnd(prompts: seq<Message>, log: seq<Entry>, m: Monitor, reply: Message, results: seq<Message>)
    requires Accepts(prompts, log + [Emit(TurnEnd(reply, results))], m)
    ensures reply.Assistant? && |results| <= |reply.calls|
    ensures forall k :: 0 <= k < |reply.calls| ==>
              StartsOf(log, k) == EndsOf(log, k) == if k < |results| then 1 else 0
    ensures forall k :: 0 <= k < |results| ==> results[k].ToolResult? && results[k].call == reply.calls[k]
    ensures reply.Failed() ==> results == []
    ensures !reply.Failed() && |results| < |reply.calls| ==> Abort in log && results != []
    ensures m.more <==> Unterminated(log)
  {
    var longer := log + [Emit(TurnEnd(reply, results))];
    var before, aborted := Earlier(prompts, longer, m);
    assert longer[..|longer| - 1] == log && longer[|longer| - 1] == Emit(TurnEnd(reply, results));
    AcceptedIsSound(prompts, log, before);
    AbortTracked(prompts, log, before, aborted);
    forall k | 0 <= k < |reply.calls|
      ensures StartsOf(log, k) == EndsOf(log, k) == if k < |results| then 1 else 0
    {
      CallsTracked(prompts, log, before, k);
    }
    UnterminatedTracked(prompts, log, before);
    hide Check, StartsOf, EndsOf, Unterminated;
  }

  /** By the end of a turn a call has been executed at most once, and only if it was prepared; and exactly if
      it was prepared, unless the run was aborted and the batch ran side by side. A result that is no error
      is that of a call that was executed. If the reply was cut off by the token limit none was. */
  lemma ExecutedIffPrepared(prompts: seq<Message>, log: seq<Entry>, m: Monitor, reply: Message, results: seq<Message>, k: nat)
    requires Accepts(prompts, log + [Emit(TurnEnd(reply, results))], m)
    ensures ExecutionsOf(log, k) <= PreparationsOf(log, k) <= 1
    ensures Abort !in log || OneByOne(log) ==> ExecutionsOf(log, k) == PreparationsOf(log, k)
    ensures k < |results| && results[k].ToolResult? && !results[k].isError ==> ExecutionsOf(log, k) == 1
    ensures reply.Assistant? && reply.stop == Length ==> ExecutionsOf(log, k) == 0
  {
    var longer := log + [Emit(TurnEnd(reply, results))];
    var before, aborted := Earlier(prompts, longer, m);
    assert longer[..|longer| - 1] == log && longer[|longer| - 1] == Emit(TurnEnd(reply, results));
    AcceptedIsSound(prompts, log, before);
    AbortTracked(prompts, log, before, aborted);
    SkippedTracked(prompts, log, before, aborted);
    RuleTracked(prompts, log, before);
    ExecutionsTracked(prompts, log, before, k);
    PreparedIsOver(before, aborted, reply, results, k);
    hide Check, PreparationsOf, ExecutionsOf, OneByOne, Allowed, Sound;
  }

  lemma PreparedIsOver(m: Monitor, aborted: bool, reply: Message, results: seq<Message>, k: nat)
    requires Sound(m) && Allowed(m, aborted, Emit(TurnEnd(reply, results)))
    ensures k in m.tools.executed ==> k in m.tools.prepared
    ensures k in m.tools.prepared ==> k in m.tools.outcomes
    ensures k < |results| && results[k].ToolResult? && !results[k].isError ==> k in m.tools.executed
    ensures reply.Assistant? && reply.stop == Length ==> k !in m.tools.executed
  {
    if k < |results| {
      assert IsResult(m.reply, m.tools.outcomes, k, m.tools.results[k]);
    }
    hide WantsMore;
  }

  lemma {:induction false} AbortTracked(prompts: seq<Message>, log: seq<Entry>, m: Monitor, aborted: bool)
    requires Check(prompts, log) == Some(Status(m, aborted))
    ensures aborted <==> Abort in log
    decreases |log|
  {
    hide Step, Allowed;
    if log != [] {
      var status := Check(prompts, log[..|log| - 1]).value;
      AbortTracked(prompts, log[..|log| - 1], status.monitor, status.aborted);
      assert log == log[..|log| - 1] + [log[|log| - 1]];
    }
  }

  // ---- the agent's state -----------------------------------------------------------------------

  /** A call id counts as pending only if a call with that id is running. */
  predicate PendingIsRunning(m: Monitor, pending: set<CallId>) {
    forall c :: c in pending ==>
      m.reply.Assistant? && exists k {:trigger m.reply.calls[k]} :: 0 <= k < |m.reply.calls| && k in m.tools.running && m.reply.calls[k] == c
  }

  lemma {:induction false} PendingTracked(prompts: seq<Message>, log: seq<Entry>, m: Monitor, s: AgentState)
    requires Accepts(prompts, log, m) && s.pendingToolCalls == {}
    ensures PendingIsRunning(m, ReduceAll(s, log).pendingToolCalls)
    decreases |log|
  {
    hide Step, Allowed, Sound;
    if log != [] {
      var before, aborted := Earlier(prompts, log, m);
      PendingTracked(prompts, log[..|log| - 1], before, s);
      AcceptedIsSound(prompts, log[..|log| - 1], before);
      PendingMoves(before, aborted, log[|log| - 1], ReduceAll(s, log[..|log| - 1]));
      hide Check, PendingIsRunning;
    }
  }

  lemma PendingByEvent(m: Monitor, aborted: bool, e: Event, s: AgentState)
    requires MayEmit(m, aborted, e) && Sound(m) && PendingIsRunning(m, s.pendingToolCalls)
    ensures PendingIsRunning(React(m, e), Reduce(s, e).pendingToolCalls)
  {
    hide WantsMore, NextResult, BatchDone, MayEndRun, MayEndTurn;
    match e {
      case TurnStart =>
      case MessageEnd(_) =>
      case ToolStart(_, _) =>
      case ToolEnd(_, _, _) =>
      case _ =>
    }
  }

  lemma PendingMoves(m: Monitor, aborted: bool, e: Entry, s: AgentState)
    requires Allowed(m, aborted, e) && Sound(m) && PendingIsRunning(m, s.pendingToolCalls)
    ensures PendingIsRunning(Step(m, e), if e.Emit? then Reduce(s, e.event).pendingToolCalls else s.pendingToolCalls)
  {
    hide Sound, MayEmit, React, MayDrain, Reduce;
    if e.Emit? {
      PendingByEvent(m, aborted, e.event, s);
      hide PendingIsRunning;
    }
  }

  predicate Distinct(calls: seq<CallId>) {
    forall i, j :: 0 <= i < j < |calls| ==> calls[i] != calls[j]
  }

  /** The calls that are running count as pending. */
  predicate RunningCounts(m: Monitor, pending: set<CallId>) {
    m.reply.Assistant? && Distinct(m.reply.calls) ==>
      forall k :: k in m.tools.running ==> k < |m.reply.calls| && m.reply.calls[k] in pending
  }

  lemma PendingGrowsByEvent(m: Monitor, aborted: bool, e: Event, s: AgentState)
    requires MayEmit(m, aborted, e) && Sound(m) && RunningCounts(m, s.pendingToolCalls)
    ensures RunningCounts(React(m, e), Reduce(s, e).pendingToolCalls)
  {
    hide WantsMore, NextResult, BatchDone, MayEndRun, MayEndTurn;
    match e {
      case TurnStart =>
      case MessageEnd(_) =>
      case ToolStart(_, _) =>
      case ToolEnd(_, _, _) =>
      case _ =>
    }
  }

  lemma PendingGrows(m: Monitor, aborted: bool, e: Entry, s: AgentState)
    requires Allowed(m, aborted, e) && Sound(m) && RunningCounts(m, s.pendingToolCalls)
    ensures RunningCounts(Step(m, e), if e.Emit? then Reduce(s, e.event).pendingToolCalls else s.pendingToolCalls)
  {
    hide Sound, MayEmit, React, MayDrain, Reduce;
    if e.Emit? {
      PendingGrowsByEvent(m, aborted, e.event, s);
      hide RunningCounts;
    }
  }

  lemma {:induction false} RunningCountsTracked(prompts: seq<Message>, log: seq<Entry>, m: Monitor, s: AgentState)
    requires Accepts(prompts, log, m)
    ensures RunningCounts(m, ReduceAll(s, log).pendingToolCalls)
    decreases |log|
  {
    hide Step, Allowed, Sound;
    if log != [] {
      hide Check, RunningCounts, Reduce;
      var before, aborted := Earlier(prompts, log, m);
      RunningCountsTracked(prompts, log[..|log| - 1], before, s);
      AcceptedIsSound(prompts, log[..|log| - 1], before);
      PendingGrows(before, aborted, log[|log| - 1], ReduceAll(s, log[..|log| - 1]));
    }
  }

  /** If the calls of the reply have distinct ids, the ids that count as pending are exactly those of the
      calls that are running. */
  lemma RunningIsPending(prompts: seq<Message>, log: seq<Entry>, m: Monitor, s: AgentState)
    requires Accepts(prompts, log, m) && s.pendingToolCalls == {} && m.reply.Assistant? && Distinct(m.reply.calls)
    ensures forall k :: k in m.tools.running ==> k < |m.reply.calls| && m.reply.calls[k] in ReduceAll(s, log).pendingToolCalls
    ensures PendingIsRunning(m, ReduceAll(s, log).pendingToolCalls)
  {
    PendingTracked(prompts, log, m, s);
    RunningCountsTracked(prompts, log, m, s);
  }

  /** No tool call is left pending at the end of a turn or of the run. */
  lemma NothingPendingBetweenTurns(prompts: seq<Message>, log: seq<Entry>, m: Monitor, s: AgentState)
    requires Accepts(prompts, log, m) && s.pendingToolCalls == {}
    requires m.phase == Between || m.phase == Ended
    ensures ReduceAll(s, log).pendingToolCalls == {}
  {
    PendingTracked(prompts, log, m, s);
    AcceptedIsSound(prompts, log, m);
  }

  lemma EventStopsStreaming(m: Monitor, aborted: bool, e: Event, s: AgentState)
    requires MayEmit(m, aborted, e) && !Streaming(React(m, e)) && (!Streaming(m) ==> s.streamingMessage == None)
    ensures Reduce(s, e).streamingMessage == None
  {
    hide WantsMore, NextResult, BatchDone, StartTool, EndTool, MayStartTool, MayEndTool;
  }

  lemma {:induction false} NothingStreamingBetweenMessages(prompts: seq<Message>, log: seq<Entry>, m: Monitor, s: AgentState)
    requires Accepts(prompts, log, m) && s.streamingMessage == None
    ensures !Streaming(m) ==> ReduceAll(s, log).streamingMessage == None
    decreases |log|
  {
    hide MayEmit, React;
    if log != [] {
      hide Check;
      var before, aborted := Earlier(prompts, log, m);
      var rest, e := log[..|log| - 1], log[|log| - 1];
      NothingStreamingBetweenMessages(prompts, rest, before, s);
      if !Streaming(m) && e.Emit? {
        EventStopsStreaming(before, aborted, e.event, ReduceAll(s, rest));
      }
      hide Reduce;
    }
  }

  /** The event starts or updates this message. */
  predicate Shows(e: Entry, x: Message) {
    e == Emit(MessageStart(x)) || e == Emit(MessageUpdate(x))
  }

  predicate Streaming(m: Monitor) {
    m.phase == Injecting || m.phase == Replying || m.phase == Reporting
  }

  lemma ShowingByEvent(m: Monitor, aborted: bool, e: Event, s: AgentState)
    requires MayEmit(m, aborted, e) && Streaming(React(m, e))
    ensures var streaming := Reduce(s, e).streamingMessage;
            || (streaming.Some? && Shows(Emit(e), streaming.value))
            || (streaming == s.streamingMessage && Streaming(m) && forall x :: !Shows(Emit(e), x))
  {
    hide WantsMore, EndMessage, StartTool, EndTool, MayStartMessage, MayStartTool, MayEndTool, MayEndMessage, MayEndTurn;
    if e.MessageEnd? {
      EndingPasses(m, e.message);
    }
  }

  lemma ShowingMoves(m: Monitor, aborted: bool, e: Entry, s: AgentState)
    requires Allowed(m, aborted, e) && Streaming(Step(m, e))
    ensures var streaming := if e.Emit? then Reduce(s, e.event).streamingMessage else s.streamingMessage;
            || (streaming.Some? && Shows(e, streaming.value))
            || (streaming == s.streamingMessage && Streaming(m) && forall x :: !Shows(e, x))
  {
    hide MayEmit, React, Reduce;
    if e.Emit? {
      ShowingByEvent(m, aborted, e.event, s);
    }
  }

  lemma EndingPasses(m: Monitor, x: Message)
    ensures EndMessage(m, x).phase == Turn || EndMessage(m, x).phase == Replied
  {
  }

  /** While a message is under way the state shows it as it was last reported. */
  lemma {:induction false} ShowsWhatStreams(prompts: seq<Message>, log: seq<Entry>, m: Monitor, s: AgentState) returns (i: nat)
    requires Accepts(prompts, log, m) && Streaming(m)
    ensures i < |log| && ReduceAll(s, log).streamingMessage.Some? && Shows(log[i], ReduceAll(s, log).streamingMessage.value)
    ensures forall j, x :: i < j < |log| ==> !Shows(log[j], x)
    decreases |log|
  {
    var before, aborted := Earlier(prompts, log, m);
    var rest, e := log[..|log| - 1], log[|log| - 1];
    ShowingMoves(before, aborted, e, ReduceAll(s, rest));
    hide Check, Step, Allowed, Shows, Reduce;
    var streaming := ReduceAll(s, log).streamingMessage;
    if streaming.Some? && Shows(e, streaming.value) {
      i := |log| - 1;
    } else {
      i := ShowsWhatStreams(prompts, rest, before, s);
      assert rest[i] == log[i];
      forall j, x | i < j < |log| ensures !Shows(log[j], x) {
        if j < |rest| { assert log[j] == rest[j]; }
      }
    }
  }

  // ---- turns and the run -----------------------------------------------------------------------

  /** The events that frame the run and its turns, as letters: run start and end `(` and `)`, turn start
      and end `[` and `]`. */
  function Frame(log: seq<Entry>): string
    decreases |log|
  {
    if log == [] then ""
    else Frame(log[..|log| - 1]) + Letter(log[|log| - 1])
  }

  function Turns(n: nat): string {
    if n == 0 then "" else Turns(n - 1) + "[]"
  }

  /** What the frame of a run that has got this far looks like. */
  function FrameAt(m: Monitor): string {
    match m.phase
    case Idle => ""
    case Between => "(" + Turns(m.turns)
    case Ended => "(" + Turns(m.turns) + ")"
    case _ => if m.turns > 0 then "(" + Turns(m.turns - 1) + "[" else ""
  }

  function Letter(e: Entry): string {
    if !e.Emit? then ""
    else
      match e.event
      case AgentStart => "("
      case AgentEnd(_) => ")"
      case TurnStart => "["
      case TurnEnd(_, _) => "]"
      case _ => ""
  }

  lemma FrameSteps(m: Monitor, t: Monitor, e: Entry)
    requires if e.Emit? && e.event.AgentStart? then m.phase == Idle && t.phase == Between && t.turns == m.turns == 0
             else if e.Emit? && e.event.AgentEnd? then m.phase == Between && t.phase == Ended && t.turns == m.turns
             else if e.Emit? && e.event.TurnStart? then m.phase == Between && InTurn(t) && t.turns == m.turns + 1
             else if e.Emit? && e.event.TurnEnd? then InTurn(m) && t.phase == Between && t.turns == m.turns > 0
             else t.turns == m.turns && (if InTurn(m) then InTurn(t) else t.phase == m.phase)
    ensures FrameAt(t) == FrameAt(m) + Letter(e)
  {
    if e.Emit? && e.event.TurnEnd? {
      assert "(" + Turns(m.turns - 1) + "[" + "]" == "(" + (Turns(m.turns - 1) + "[]");
    }
  }

  lemma FrameMoves(m: Monitor, aborted: bool, e: Entry)
    requires Allowed(m, aborted, e) && Sound(m)
    ensures FrameAt(Step(m, e)) == FrameAt(m) + Letter(e)
  {
    hide Step, Allowed, Sound;
    PhaseMoves(m, aborted, e);
    FrameSteps(m, Step(m, e), e);
  }

  /** The trace is one `agent_start`, then turns one after the other, then one `agent_end`. */
  lemma {:induction false} TraceShape(prompts: seq<Message>, log: seq<Entry>, m: Monitor)
    requires Accepts(prompts, log, m)
    ensures Frame(log) == FrameAt(m)
    ensures m.phase == Ended ==> Frame(log) == "(" + Turns(m.turns) + ")"
    decreases |log|
  {
    hide Step, Allowed, Sound;
    if log != [] {
      var before, aborted := Earlier(prompts, log, m);
      TraceShape(prompts, log[..|log| - 1], before);
      AcceptedIsSound(prompts, log[..|log| - 1], before);
      FrameMoves(before, aborted, log[|log| - 1]);
      hide Check;
    }
  }

  lemma EventMovesPhase(m: Monitor, aborted: bool, e: Event)
    requires MayEmit(m, aborted, e) && PhaseSound(m)
    ensures var t := React(m, e);
            if e.AgentStart? then m.phase == Idle && t.phase == Between && t.turns == m.turns == 0
            else if e.AgentEnd? then m.phase == Between && t.phase == Ended && t.turns == m.turns
            else if e.TurnStart? then m.phase == Between && InTurn(t) && t.turns == m.turns + 1
            else if e.TurnEnd? then InTurn(m) && t.phase == Between && t.turns == m.turns > 0
            else t.turns == m.turns && (if InTurn(m) then InTurn(t) else t.phase == m.phase)
  {
    hide WantsMore, NextResult, BatchDone, StartTool, EndTool;
  }

  lemma PhaseMoves(m: Monitor, aborted: bool, e: Entry)
    requires Allowed(m, aborted, e) && Sound(m)
    ensures var t := Step(m, e);
            if e.Emit? && e.event.AgentStart? then m.phase == Idle && t.phase == Between && t.turns == m.turns == 0
            else if e.Emit? && e.event.AgentEnd? then m.phase == Between && t.phase == Ended && t.turns == m.turns
            else if e.Emit? && e.event.TurnStart? then m.phase == Between && InTurn(t) && t.turns == m.turns + 1
            else if e.Emit? && e.event.TurnEnd? then InTurn(m) && t.phase == Between && t.turns == m.turns > 0
            else t.turns == m.turns && (if InTurn(m) then InTurn(t) else t.phase == m.phase)
  {
    SoundPhase(m);
    hide MayEmit, React, Sound, PhaseSound;
    if e.Emit? {
      EventMovesPhase(m, aborted, e.event);
    }
  }

  /** The log ends in an `agent_end` that carries every message of the run; only an abort may follow. */
  predicate EndsProperly(log: seq<Entry>)
    decreases |log|
  {
    log != []
    && var rest := log[..|log| - 1];
       (log[|log| - 1] == Emit(AgentEnd(MessageEnds(rest))) || (log[|log| - 1] == Abort && EndsProperly(rest)))
  }

  lemma LastIsAgentEnd(m: Monitor, aborted: bool, e: Entry)
    requires Allowed(m, aborted, e) && Step(m, e).phase == Ended
    ensures e == Emit(AgentEnd(m.ended)) || (e == Abort && m.phase == Ended)
  {
    hide MayEmit, React;
    if e.Emit? {
      LastEventIsAgentEnd(m, aborted, e.event);
    }
  }

  lemma LastEventIsAgentEnd(m: Monitor, aborted: bool, e: Event)
    requires MayEmit(m, aborted, e) && React(m, e).phase == Ended
    ensures e == AgentEnd(m.ended)
  {
    hide WantsMore, NextResult, BatchDone, StartTool, EndTool;
  }

  /** After `agent_end` nothing else is emitted, and it carried every message of the run. */
  lemma {:induction false} EndIsFinal(prompts: seq<Message>, log: seq<Entry>, m: Monitor)
    requires Accepts(prompts, log, m) && m.phase == Ended
    ensures EndsProperly(log)
    decreases |log|
  {
    hide Step, Allowed;
    var before, aborted := Earlier(prompts, log, m);
    LastIsAgentEnd(before, aborted, log[|log| - 1]);
    TranscriptIsPayloads(prompts, log[..|log| - 1], before, AgentState([], None, {}));
    if before.phase == Ended {
      EndIsFinal(prompts, log[..|log| - 1], before);
    }
  }

  /** A run that has ended leaves no call pending and no message streaming, and the transcript longer by
      exactly its messages: finishing it has nothing to clean up. */
  lemma RunLeavesNothing(prompts: seq<Message>, log: seq<Entry>, m: Monitor, s: AgentState)
    requires Accepts(prompts, log, m) && m.phase == Ended && s.pendingToolCalls == {} && s.streamingMessage == None
    ensures ReduceAll(s, log) == AgentState(s.messages + MessageEnds(log), None, {})
    ensures m.ended == MessageEnds(log)
  {
    NothingPendingBetweenTurns(prompts, log, m, s);
    NothingStreamingBetweenMessages(prompts, log, m, s);
    TranscriptIsPayloads(prompts, log, m, s);
  }
}
