/** What shutdown waits for. */
module SessionRouterShutdown {
  import opened Wrappers
  import opened SessionRouterSpec
  import opened SessionRouterProof
  import opened SessionRouterTheorems
  import opened SessionRouterHistory
  import opened SessionRouterRemovals

  /** The lease was refused, or `release` has been called, has settled and the books are clear of it. */
  predicate Released(t: Attachment) {
    t.acquiring.Refused? || (t.acquiring.Leased? && t.releaseCalls == 1 && t.Cleared())
  }

  // ---- an unreleased lease is always in somebody's hands ---------------------------------------

  predicate WaitsFor(step: Step, a: AttachmentId) {
    step == AwaitLease(a) || Awaits(step, a)
  }

  /** Until it is cleared an attachment is its client's current one, or an operation of the client waits
      for it. */
  predicate Attended(a: AttachmentId, t: Attachment, byClient: map<ClientId, AttachmentId>, operations: seq<Operation>) {
    !t.Cleared() && !t.acquiring.Refused? ==>
      || Lookup(byClient, t.client) == Some(a)
      || exists o {:trigger operations[o]} ::
           0 <= o < |operations| && operations[o].client == t.client && WaitsFor(operations[o].step, a)
  }

  predicate AllAttended(s: Router) {
    forall a {:trigger s.attachments[a]} :: 0 <= a < |s.attachments| ==>
      Attended(a, s.attachments[a], s.attachmentsByClient, s.operations)
  }

  lemma MapOnlyLosesCleared(s: Router, e: Event, c: ClientId)
    requires Inv(s) && Enabled(s, e) && !e.CloseHandlesSettled? && c in s.attachmentsByClient
    ensures KeepsEntry(Next(s, e), c, s.attachmentsByClient[c])
  {
    UntouchedFields(s, e);
    InvGivesRefs(s);
    hide Inv, Refs, Next, Enabled;
    if e.LeaseArrives? {
      ArrivalKeepsEntry(s, e.op, c);
    } else if e.LeaseForRelease? || e.ReleaseSettles? {
      ReleaseKeepsEntry(s, e, c);
    }
  }

  predicate KeepsEntry(t: Router, c: ClientId, a: AttachmentId) {
    Lookup(t.attachmentsByClient, c) == Some(a) || (a < |t.attachments| && t.attachments[a].Cleared())
  }

  lemma ClearKeepsEntry(s: Router, b: AttachmentId, ok: bool, c: ClientId)
    requires b < |s.attachments| && s.attachments[b].handle < |s.handles| && c in s.attachmentsByClient
    ensures KeepsEntry(Clear(s, b, ok), c, s.attachmentsByClient[c])
    ensures KeepsEntry(CallRelease(s, b), c, s.attachmentsByClient[c])
  {
  }

  lemma ReleaseKeepsEntry(s: Router, e: Event, c: ClientId)
    requires Inv(s) && Enabled(s, e) && (e.LeaseForRelease? || e.ReleaseSettles?) && c in s.attachmentsByClient
    ensures KeepsEntry(Next(s, e), c, s.attachmentsByClient[c])
  {
    InvGivesRefs(s);
    HandleInRange(s, e.att);
    ReleaseShape(s, e);
    ClearKeepsEntry(s, e.att, e.ReleaseSettles? && e.ok, c);
    hide Inv, Refs, Clear, CallRelease, KeepsEntry, Next;
  }

  lemma WaitingIsUnmapped(s: Router, o: OperationId, a: AttachmentId)
    requires Inv(s) && o < |s.operations| && s.operations[o].step == AwaitLease(a)
    ensures a < |s.attachments| && s.attachments[a].handle < |s.handles| && s.attachments[a].client !in s.attachmentsByClient
  {
    hide Inv;
    OperationFacts(s, o);
    HandleInRange(s, a);
  }

  lemma ArrivalLeavesOthers(s: Router, o: OperationId, a: AttachmentId, c: ClientId)
    requires Refs(s) && o < |s.operations| && s.operations[o].step == AwaitLease(a) && a < |s.attachments|
    requires s.attachments[a].handle < |s.handles| && s.attachments[a].client !in s.attachmentsByClient
    requires c in s.attachmentsByClient
    ensures Lookup(ArriveLease(s, o).attachmentsByClient, c) == Some(s.attachmentsByClient[c])
  {
    hide Refs, ArriveLease, IsHosted, Barred;
    ArrivingShape(s, o, a);
  }

  lemma ArrivalKeepsEntry(s: Router, o: OperationId, c: ClientId)
    requires Inv(s) && Refs(s) && Enabled(s, LeaseArrives(o)) && c in s.attachmentsByClient
    ensures Lookup(Next(s, LeaseArrives(o)).attachmentsByClient, c) == Some(s.attachmentsByClient[c])
  {
    hide Inv, Refs, ArriveLease, Next;
    ArriveIsNext(s, o);
    WaitingIsUnmapped(s, o, s.operations[o].step.attachment);
    ArrivalLeavesOthers(s, o, s.operations[o].step.attachment, c);
  }

  /** What becomes of an attachment whose lease has arrived. */
  lemma ArrivalOutcome(s: Router, o: OperationId)
    requires Inv(s) && Enabled(s, LeaseArrives(o))
    ensures var t, a := Next(s, LeaseArrives(o)), s.operations[o].step.attachment;
            && a < |s.attachments| && o < |t.operations|
            && (s.attachments[a].acquiring.Leased? ==>
                 t.operations[o].step == AwaitRelease(a) || Lookup(t.attachmentsByClient, s.attachments[a].client) == Some(a))
  {
    var a := s.operations[o].step.attachment;
    HandleInRange(s, a);
    InvGivesRefs(s);
    StepContinues(s, LeaseArrives(o));
    hide Inv, Refs, Continues, ArriveLease;
    if s.attachments[a].acquiring.Leased? {
      LeasedOutcome(s, o, a);
    }
  }

  lemma LeasedOutcome(s: Router, o: OperationId, a: AttachmentId)
    requires Refs(s) && o < |s.operations| && s.operations[o].step == AwaitLease(a) && a < |s.attachments|
    requires s.attachments[a].handle < |s.handles| && s.attachments[a].acquiring.Leased?
    ensures var t := ArriveLease(s, o);
            && o < |t.operations|
            && (t.operations[o].step == AwaitRelease(a) || Lookup(t.attachmentsByClient, s.attachments[a].client) == Some(a))
  {
    StartReleaseMoves(s.(attachments := s.attachments[a := s.attachments[a].(lease := true)]), a, o);
    hide AttachmentRefs, ValuesBelow, OperationRefs, OpenRefs, RemovalRefs, Barred, StartRelease;
  }

  lemma StartReleaseMoves(s: Router, a: AttachmentId, o: OperationId)
    requires a < |s.attachments| && o < |s.operations|
    ensures At(StartRelease(s, a, true, Some(o)), o, AwaitRelease(a)).operations == Moved(s.operations, o, AwaitRelease(a))
  {
  }

  lemma MoverNoLongerWaits(s: Router, e: Event, o: OperationId, a: AttachmentId)
    requires Inv(s) && Enabled(s, e) && Actor(e) == Some(o)
    requires a < |s.attachments| && WaitsFor(s.operations[o].step, a) && !s.attachments[a].Cleared()
    ensures e == LeaseArrives(o) && s.operations[o].step == AwaitLease(a)
  {
    hide Inv;
  }

  lemma StepKeepsAttended(s: Router, e: Event, a: AttachmentId)
    requires Inv(s) && AllAttended(s) && Enabled(s, e) && !e.CloseHandlesSettled? && a < |s.attachments|
    ensures a < |Next(s, e).attachments|
    ensures Attended(a, Next(s, e).attachments[a], Next(s, e).attachmentsByClient, Next(s, e).operations)
  {
    var t := Next(s, e);
    StepContinues(s, e);
    assert AttachmentContinues(s.attachments[a], t.attachments[a]);
    var c := s.attachments[a].client;
    hide Inv, Next, Enabled, RemovalsContinue, HandlesContinue;
    if !t.attachments[a].Cleared() && !t.attachments[a].acquiring.Refused? {
      assert Attended(a, s.attachments[a], s.attachmentsByClient, s.operations);
      if Lookup(s.attachmentsByClient, c) == Some(a) {
        MapOnlyLosesCleared(s, e, c);
      } else {
        var o :| 0 <= o < |s.operations| && s.operations[o].client == c && WaitsFor(s.operations[o].step, a);
        assert t.operations[o].client == c;
        if Actor(e) == Some(o) {
          MoverNoLongerWaits(s, e, o, a);
          ArrivalOutcome(s, o);
          ArrivalHasSettled(s, o);
        } else {
          assert t.operations[o] == s.operations[o];
        }
      }
    }
  }

  lemma ArrivalHasSettled(s: Router, o: OperationId)
    requires Enabled(s, LeaseArrives(o))
    ensures !s.attachments[s.operations[o].step.attachment].acquiring.InFlight?
  {
  }

  lemma NewIsAttended(s: Router, a: AttachmentId)
    requires Inv(s) && !s.shutdown.Complete? && a < |s.attachments| && s.attachments[a].release.phase == NotStarted
    ensures Attended(a, s.attachments[a], s.attachmentsByClient, s.operations)
  {
    AttachmentFacts(s, a);
    var o := s.attachments[a].opener;
    assert s.operations[o].client == s.attachments[a].client;
    hide Inv;
  }

  lemma CreatedIsIdle(s: Router, e: Event, a: AttachmentId)
    requires Inv(s) && Enabled(s, e) && |s.attachments| <= a < |Next(s, e).attachments|
    ensures Next(s, e).attachments[a].release.phase == NotStarted
  {
    InvGivesRefs(s);
    hide Inv, Refs, Next, Enabled, Continues, OnlyMoves, OnlyCreates;
    StepContinues(s, e);
    CreatedShape(s.attachments, Next(s, e).attachments, s.operations, Actor(e), a);
  }

  lemma CreatedIsAttended(s: Router, e: Event, a: AttachmentId)
    requires Inv(s) && Enabled(s, e) && !Next(s, e).shutdown.Complete? && |s.attachments| <= a < |Next(s, e).attachments|
    ensures Attended(a, Next(s, e).attachments[a], Next(s, e).attachmentsByClient, Next(s, e).operations)
  {
    InvGivesRefs(s);
    hide Inv, Refs, Next, Enabled, Attended;
    CreatedIsIdle(s, e, a);
    Preserved(s, e);
    NewIsAttended(Next(s, e), a);
  }

  lemma StepKeepsAllAttended(s: Router, e: Event)
    requires Inv(s) && AllAttended(s) && Enabled(s, e) && !Next(s, e).shutdown.Complete?
    ensures AllAttended(Next(s, e))
  {
    CompletionCompletes(s, e);
    InvGivesRefs(s);
    hide Inv, Refs, Next, Enabled, Attended;
    forall a | 0 <= a < |Next(s, e).attachments|
      ensures Attended(a, Next(s, e).attachments[a], Next(s, e).attachmentsByClient, Next(s, e).operations)
    {
      if a < |s.attachments| {
        hide AllAttended;
        StepKeepsAttended(s, e, a);
      } else {
        CreatedIsAttended(s, e, a);
      }
    }
  }

  lemma CompletionCompletes(s: Router, e: Event)
    requires Inv(s) && Enabled(s, e)
    ensures e.CloseHandlesSettled? ==> Next(s, e).shutdown.Complete?
    ensures s.shutdown.Complete? ==> Next(s, e).shutdown.Complete?
  {
    InvGivesRefs(s);
    UntouchedFields(s, e);
    hide Inv, Refs;
  }

  lemma UnreleasedIsAttended(s: Router, a: AttachmentId)
    requires Inv(s) && AllAttended(s) && a < |s.attachments| && !Released(s.attachments[a])
    ensures || Lookup(s.attachmentsByClient, s.attachments[a].client) == Some(a)
            || exists o {:trigger s.operations[o]} :: 0 <= o < |s.operations|
                 && s.operations[o].client == s.attachments[a].client && WaitsFor(s.operations[o].step, a)
  {
    AttachmentFacts(s, a);
    hide Inv;
    assert Attended(a, s.attachments[a], s.attachmentsByClient, s.operations);
  }

  lemma {:induction false} RunKeepsAttended(s: Router, events: seq<Event>, t: Router)
    requires Inv(s) && (s.shutdown.Complete? || AllAttended(s)) && Execute(s, events) == Some(t)
    ensures Inv(t) && (t.shutdown.Complete? || AllAttended(t))
    decreases |events|
  {
    hide Inv, Next, Enabled, AllAttended;
    if events != [] {
      Preserved(s, events[0]);
      CompletionCompletes(s, events[0]);
      if !Next(s, events[0]).shutdown.Complete? {
        StepKeepsAllAttended(s, events[0]);
      }
      RunKeepsAttended(Next(s, events[0]), events[1..], t);
    }
  }

  /** Until shutdown is complete, an attachment whose lease has not been released, whoever may have begun to
      release it, is its client's current one or has an operation of the client waiting for it. */
  lemma UnreleasedLeaseIsAttended(events: seq<Event>, s: Router, a: AttachmentId)
    requires Reaches(events, s) && !s.shutdown.Complete? && a < |s.attachments| && !Released(s.attachments[a])
    ensures || Lookup(s.attachmentsByClient, s.attachments[a].client) == Some(a)
            || exists o {:trigger s.operations[o]} :: 0 <= o < |s.operations|
                 && s.operations[o].client == s.attachments[a].client && WaitsFor(s.operations[o].step, a)
  {
    InitialInv();
    RunKeepsAttended(Initial(), events, s);
    hide Inv, AllAttended;
    UnreleasedIsAttended(s, a);
  }

  // ---- shutdown waits for the queues -----------------------------------------------------------

  predicate QueuedBefore(operations: seq<Operation>, waited: set<OperationId>, o: OperationId)
    requires o < |operations|
  {
    exists q {:trigger operations[q]} ::
      o <= q < |operations| && q in waited && operations[q].client == operations[o].client
  }

  /** From `close` on the operation is waited for until it has finished. */
  predicate Awaited(shutdown: Shutdown, operations: seq<Operation>, o: OperationId)
    requires o < |operations|
  {
    match shutdown
    case NotRequested => true
    case AwaitOperations(waited, _) => operations[o].step.Finished? || QueuedBefore(operations, waited, o)
    case _ => operations[o].step.Finished?
  }

  lemma CloseAwaits(s: Router, o: OperationId)
    requires Inv(s) && Enabled(s, Close) && o < |s.operations|
    ensures s.operations[o].step.Finished? || QueuedBefore(s.operations, s.clientOperations.Values, o)
  {
    assert Tailed(o, s.operations[o], s.clientOperations);
    var c := s.operations[o].client;
    if c in s.clientOperations {
      var q := s.clientOperations[c];
      assert s.operations[q].client == c && q in s.clientOperations.Values;
    }
  }

  lemma FinishedQueue(operations: seq<Operation>, waited: set<OperationId>, o: OperationId)
    requires Chain(operations) && o < |operations| && QueuedBefore(operations, waited, o)
    requires forall q :: q in waited && q < |operations| ==> operations[q].step.Finished?
    ensures operations[o].step.Finished?
  {
    var q :| o <= q < |operations| && q in waited && operations[q].client == operations[o].client;
    if o < q {
      assert Chained(o, operations[o], operations[q]);
    }
  }

  lemma SettledQueuesFinished(s: Router, o: OperationId)
    requires Inv(s) && Enabled(s, CloseOperationsSettled) && o < |s.operations|
    requires Awaited(s.shutdown, s.operations, o)
    ensures s.operations[o].step.Finished?
  {
    ChainHolds(s);
    hide Inv, Chain, QueuedBefore;
    if QueuedBefore(s.operations, s.shutdown.operations, o) {
      FinishedQueue(s.operations, s.shutdown.operations, o);
    }
  }

  lemma ChainHolds(s: Router)
    requires Inv(s) && !s.shutdown.Complete?
    ensures Chain(s.operations)
  {
  }

  lemma AwaitedContinues(s: Router, t: Router, o: OperationId)
    requires o < |s.operations| && OperationsContinue(s.operations, t.operations) && t.shutdown == s.shutdown
    requires Awaited(s.shutdown, s.operations, o)
    ensures Awaited(t.shutdown, t.operations, o)
  {
    assert t.operations[o].client == s.operations[o].client;
    if s.shutdown.AwaitOperations? && QueuedBefore(s.operations, s.shutdown.operations, o) {
      var q :| o <= q < |s.operations| && q in s.shutdown.operations && s.operations[q].client == s.operations[o].client;
      assert t.operations[q].client == s.operations[q].client;
    }
  }

  lemma ShutdownMoves(s: Router, e: Event)
    requires Refs(s) && Enabled(s, e)
    requires e.Close? || e.CloseOperationsSettled? || e.CloseAttachmentsSettled? || e.CloseHandlesSettled?
    ensures var t := Next(s, e);
            && t.operations == s.operations
            && (e.Close? ==> t.shutdown == AwaitOperations(s.clientOperations.Values, s.openingSessions.Values))
            && (e.CloseOperationsSettled? ==> t.shutdown == AwaitAttachments(AllAttachments(s)))
            && (e.CloseAttachmentsSettled? ==> t.shutdown == AwaitHandles(s.hostedSessions.Values))
            && (e.CloseHandlesSettled? ==> t.shutdown == Complete)
  {
    ShutdownFrame(s, e);
    hide AttachmentRefs, ValuesBelow, OperationRefs, OpenRefs, RemovalRefs, StartReleases, AllAttachments;
  }

  lemma StepKeepsAwaited(s: Router, e: Event, o: OperationId)
    requires Inv(s) && Enabled(s, e) && o < |s.operations| && Awaited(s.shutdown, s.operations, o)
    ensures o < |Next(s, e).operations| && Awaited(Next(s, e).shutdown, Next(s, e).operations, o)
  {
    StepContinues(s, e);
    InvGivesRefs(s);
    if e.Close? {
      CloseAwaits(s, o);
    } else if e.CloseOperationsSettled? {
      SettledQueuesFinished(s, o);
    }
    if e.Close? || e.CloseOperationsSettled? || e.CloseAttachmentsSettled? || e.CloseHandlesSettled? {
      ShutdownMoves(s, e);
      ShutdownInOrder(s, e);
      hide Inv, Refs, Next, Enabled, Continues;
    } else {
      UntouchedFields(s, e);
      hide Inv, Refs, Next, Enabled;
      AwaitedContinues(s, Next(s, e), o);
    }
  }

  lemma ShutdownInOrder(s: Router, e: Event)
    requires Refs(s) && Enabled(s, e)
    ensures e.Close? ==> s.shutdown.NotRequested?
    ensures e.CloseOperationsSettled? ==> s.shutdown.AwaitOperations?
    ensures e.CloseAttachmentsSettled? ==> s.shutdown.AwaitAttachments?
    ensures e.CloseHandlesSettled? ==> s.shutdown.AwaitHandles?
  {
    hide Refs;
  }

  lemma {:induction false} RunKeepsAwaited(s: Router, events: seq<Event>, t: Router, o: OperationId)
    requires Inv(s) && o < |s.operations| && Awaited(s.shutdown, s.operations, o) && Execute(s, events) == Some(t)
    ensures o < |t.operations| && Awaited(t.shutdown, t.operations, o)
    decreases |events|
  {
    hide Inv, Next, Enabled, Awaited;
    if events != [] {
      Preserved(s, events[0]);
      StepKeepsAwaited(s, events[0], o);
      RunKeepsAwaited(Next(s, events[0]), events[1..], t, o);
    }
  }

  predicate PastOperations(s: Router) {
    !s.shutdown.NotRequested? && !s.shutdown.AwaitOperations?
  }

  /** Shutdown waits for every operation that any client queued before it was requested. */
  lemma ShutdownAwaitsOperations(before: seq<Event>, u: Router, after: seq<Event>, s: Router, o: OperationId)
    requires Reaches(before, u) && u.shutdown.NotRequested? && o < |u.operations|
    requires Execute(u, after) == Some(s) && PastOperations(s)
    ensures o < |s.operations| && s.operations[o].step.Finished?
  {
    ReachedKeepsInv(before, u);
    hide Inv;
    RunKeepsAwaited(u, after, s, o);
  }

  // ---- attaches that are over ------------------------------------------------------------------

  predicate AttachesAwaited(s: Router) {
    forall o {:trigger s.operations[o]} :: 0 <= o < |s.operations| && s.operations[o].kind.Attach? ==>
      Awaited(s.shutdown, s.operations, o)
  }

  lemma StepKeepsAttachesAwaited(s: Router, e: Event)
    requires Inv(s) && Enabled(s, e) && AttachesAwaited(s)
    ensures AttachesAwaited(Next(s, e))
  {
    var t := Next(s, e);
    StepContinues(s, e);
    UntouchedFields(s, e);
    NewComesBeforeClose(s, e);
    hide Inv, Next, Enabled, AttachmentsContinue, HandlesContinue, RemovalsContinue, Awaited;
    forall o | 0 <= o < |t.operations| && t.operations[o].kind.Attach?
      ensures Awaited(t.shutdown, t.operations, o)
    {
      if o < |s.operations| {
        assert s.operations[o].kind == t.operations[o].kind;
        StepKeepsAwaited(s, e, o);
      } else {
        NothingAwaited(t.shutdown, t.operations, o);
      }
    }
  }

  lemma NothingAwaited(shutdown: Shutdown, operations: seq<Operation>, o: OperationId)
    requires shutdown.NotRequested? && o < |operations|
    ensures Awaited(shutdown, operations, o)
  {
  }

  lemma NewComesBeforeClose(s: Router, e: Event)
    requires Inv(s) && Enabled(s, e)
    ensures forall o {:trigger Next(s, e).operations[o]} ::
              |s.operations| <= o < |Next(s, e).operations| && Next(s, e).operations[o].kind.Attach? ==>
                Next(s, e).shutdown.NotRequested?
  {
    StepContinues(s, e);
    UntouchedFields(s, e);
    Preserved(s, e);
    ClosingFacts(s);
    InvGivesRefs(s);
    if e.Close? || e.CloseOperationsSettled? || e.CloseAttachmentsSettled? || e.CloseHandlesSettled? {
      ShutdownMoves(s, e);
    }
    hide Inv, Refs, Next, Enabled, Continues;
  }

  lemma ClosingFacts(s: Router)
    requires Inv(s)
    ensures !s.shutdown.NotRequested? ==> s.closing
  {
  }

  lemma {:induction false} RunKeepsAttachesAwaited(s: Router, events: seq<Event>, t: Router)
    requires Inv(s) && AttachesAwaited(s) && Execute(s, events) == Some(t)
    ensures Inv(t) && AttachesAwaited(t)
    decreases |events|
  {
    hide Inv, Next, Enabled, AttachesAwaited;
    if events != [] {
      Preserved(s, events[0]);
      StepKeepsAttachesAwaited(s, events[0]);
      RunKeepsAttachesAwaited(Next(s, events[0]), events[1..], t);
    }
  }

  /** Once shutdown has waited for the queues every attach is over: what has not been released by then
      is its client's current attachment, or the client is already leaving it. */
  lemma AttachesAreOver(events: seq<Event>, s: Router)
    requires Reaches(events, s) && PastOperations(s)
    ensures forall o {:trigger s.operations[o]} ::
              0 <= o < |s.operations| && s.operations[o].kind.Attach? ==> s.operations[o].step.Finished?
    ensures !s.shutdown.Complete? ==> forall a {:trigger s.attachments[a]} ::
              0 <= a < |s.attachments| && !Released(s.attachments[a]) ==>
                || Lookup(s.attachmentsByClient, s.attachments[a].client) == Some(a)
                || exists o {:trigger s.operations[o]} :: 0 <= o < |s.operations|
                     && s.operations[o].client == s.attachments[a].client && s.operations[o].step == AwaitRelease(a)
  {
    InitialInv();
    RunKeepsAttachesAwaited(Initial(), events, s);
    RunKeepsAttended(Initial(), events, s);
    hide Inv, AllAttended;
    if !s.shutdown.Complete? {
      forall a | 0 <= a < |s.attachments| && !Released(s.attachments[a])
        ensures || Lookup(s.attachmentsByClient, s.attachments[a].client) == Some(a)
                || exists o {:trigger s.operations[o]} :: 0 <= o < |s.operations|
                     && s.operations[o].client == s.attachments[a].client && s.operations[o].step == AwaitRelease(a)
      {
        UnreleasedIsAttended(s, a);
        WaiterIsLeaving(s, a);
      }
    }
  }

  lemma WaiterIsLeaving(s: Router, a: AttachmentId)
    requires Inv(s) && AttachesAwaited(s) && PastOperations(s) && a < |s.attachments|
    ensures forall o {:trigger s.operations[o]} :: 0 <= o < |s.operations| && WaitsFor(s.operations[o].step, a) ==>
              s.operations[o].step == AwaitRelease(a)
  {
    hide Inv;
    forall o | 0 <= o < |s.operations| && WaitsFor(s.operations[o].step, a)
      ensures s.operations[o].step == AwaitRelease(a)
    {
      OperationFacts(s, o);
    }
  }
}
