/** Safety of the session router over whole runs, and the runs in which its promises end. */
module SessionRouterTheorems {
  import opened Wrappers
  import opened SessionRouterSpec
  import opened SessionRouterProof

  /** The state after `events`, or None if one of them was not enabled when its turn came. */
  function Execute(s: Router, events: seq<Event>): Option<Router>
    decreases |events|
  {
    if events == [] then Some(s)
    else if Refs(s) && Enabled(s, events[0]) then Execute(Next(s, events[0]), events[1..])
    else None
  }

  predicate Reaches(events: seq<Event>, s: Router) {
    Execute(Initial(), events) == Some(s)
  }

  lemma {:induction false} ExecutionKeepsInv(s: Router, events: seq<Event>, t: Router)
    requires Inv(s) && Execute(s, events) == Some(t)
    ensures Inv(t)
    decreases |events|
  {
    hide Inv, Next, Enabled;
    if events != [] {
      Preserved(s, events[0]);
      ExecutionKeepsInv(Next(s, events[0]), events[1..], t);
    }
  }

  lemma ReachedKeepsInv(events: seq<Event>, s: Router)
    requires Reaches(events, s)
    ensures Inv(s)
  {
    InitialInv();
    hide Inv;
    ExecutionKeepsInv(Initial(), events, s);
  }

  /** In every interleaving a lease is released at most once, and a lease that has been acquired stays
      in its session's attachment set until its release has been called. */
  lemma LeaseReleasedAtMostOnce(events: seq<Event>, s: Router, a: AttachmentId)
    requires Reaches(events, s) && a < |s.attachments|
    ensures s.attachments[a].releaseCalls <= 1
    ensures s.attachments[a].handle < |s.handles|
    ensures s.attachments[a].acquiring.Leased? && s.attachments[a].releaseCalls == 0 ==>
              a in s.handles[s.attachments[a].handle].attachments
  {
    ReachedKeepsInv(events, s);
    hide Inv;
    AttachmentFacts(s, a);
  }

  /** Every entry of the client map is that client's, holds a lease and is in its session's set. */
  lemma MappedAttachmentHoldsLease(events: seq<Event>, s: Router, c: ClientId)
    requires Reaches(events, s) && c in s.attachmentsByClient
    ensures var a := s.attachmentsByClient[c];
            && a < |s.attachments| && s.attachments[a].client == c && s.attachments[a].lease
            && s.attachments[a].handle < |s.handles| && a in s.handles[s.attachments[a].handle].attachments
  {
    ReachedKeepsInv(events, s);
    assert s.attachmentsByClient[c] < |s.attachments|;
    var a := s.attachmentsByClient[c];
    assert s.attachments[a].client == c;
    hide Inv;
    AttachmentFacts(s, a);
  }

  /** Until shutdown is complete no lease is lost: one that nobody has begun to release is the
      client's current one, or the operation that asked for it is still waiting. */
  lemma NoLeaseIsLost(events: seq<Event>, s: Router, a: AttachmentId)
    requires Reaches(events, s) && !s.shutdown.Complete? && a < |s.attachments|
    requires s.attachments[a].acquiring.Leased? && s.attachments[a].release.phase == NotStarted
    ensures || Lookup(s.attachmentsByClient, s.attachments[a].client) == Some(a)
            || (s.attachments[a].opener < |s.operations|
                && s.operations[s.attachments[a].opener].step == AwaitLease(a))
  {
    ReachedKeepsInv(events, s);
    hide Inv;
    AttachmentFacts(s, a);
  }

  /** When the client's own queue (detach, switch, disconnect) started the release, `lease.release`
      has been called only if every call ever admitted on the attachment has settled; and none is
      admitted afterwards. */
  lemma QueuedReleaseWaitsForCalls(events: seq<Event>, s: Router, a: AttachmentId)
    requires Reaches(events, s) && a < |s.attachments|
    requires s.attachments[a].release.starter.Some? && s.attachments[a].releaseCalls == 1
    ensures s.attachments[a].calls == {}
  {
    ReachedKeepsInv(events, s);
    hide Inv;
    AttachmentFacts(s, a);
  }

  /** Operations of one client never overlap while the router still chains them. */
  lemma ClientOperationsNeverOverlap(events: seq<Event>, s: Router, p: OperationId, o: OperationId)
    requires Reaches(events, s) && !s.shutdown.Complete? && p < o < |s.operations|
    requires s.operations[p].client == s.operations[o].client && !s.operations[o].step.Queued?
    ensures s.operations[p].step.Finished?
  {
    ReachedKeepsInv(events, s);
    StartedHasEarlierFinished(s.operations, o);
  }

  // ---- handles ---------------------------------------------------------------------------------

  /** `resolveSession` answers with the id it was asked for. */
  predicate Faithful(s: Router, e: Event) {
    e.SessionResolves? && e.metadata.Some? && e.open < |s.opens| ==> e.metadata.value == s.opens[e.open].session
  }

  predicate FaithfulRun(s: Router, events: seq<Event>)
    decreases |events|
  {
    events == []
    || (Faithful(s, events[0])
        && (Refs(s) && Enabled(s, events[0]) ==> FaithfulRun(Next(s, events[0]), events[1..])))
  }

  /** Every handle is hosted, has had `close` called, or has reported termination. */
  predicate Tracked(handles: seq<Handle>, hosted: map<SessionId, HandleId>) {
    forall h {:trigger handles[h]} :: 0 <= h < |handles| && handles[h].Live() ==>
      Lookup(hosted, handles[h].id) == Some(h)
  }

  /** An open in flight is the only one for its session, and that session is not hosted. */
  predicate Exclusive(n: OpenId, open: Open, opening: map<SessionId, OpenId>, hosted: map<SessionId, HandleId>) {
    !open.Done() ==>
      && Lookup(opening, open.session) == Some(n)
      && open.session !in hosted
      && (open.phase.Opening? ==> open.phase.metadata == open.session)
  }

  predicate AllExclusive(opens: seq<Open>, opening: map<SessionId, OpenId>, hosted: map<SessionId, HandleId>) {
    forall n {:trigger opens[n]} :: 0 <= n < |opens| ==> Exclusive(n, opens[n], opening, hosted)
  }

  predicate AllDone(opens: seq<Open>) {
    forall n {:trigger opens[n]} :: 0 <= n < |opens| ==> opens[n].Done()
  }

  predicate NoneLive(handles: seq<Handle>) {
    forall h {:trigger handles[h]} :: 0 <= h < |handles| ==> !handles[h].Live()
  }

  predicate OthersDone(opens: seq<Open>, waited: set<OpenId>) {
    forall n {:trigger opens[n]} :: 0 <= n < |opens| && !opens[n].Done() ==> n in waited
  }

  /** How far shutdown has got determines what can still be open. */
  predicate ShutdownProgress(shutdown: Shutdown, opens: seq<Open>, handles: seq<Handle>) {
    match shutdown
    case NotRequested => true
    case AwaitOperations(_, waited) => OthersDone(opens, waited)
    case AwaitAttachments(_) => AllDone(opens)
    case AwaitHandles(_) => AllDone(opens) && NoneLive(handles)
    case Complete => AllDone(opens) && NoneLive(handles)
  }

  predicate HandleInv(s: Router) {
    && Tracked(s.handles, s.hostedSessions)
    && AllExclusive(s.opens, s.openingSessions, s.hostedSessions)
    && ShutdownProgress(s.shutdown, s.opens, s.handles)
  }

  /** Removals past their first stage have had `close` called. */
  predicate RemovalsClosed(removals: seq<Removal>, handles: seq<Handle>) {
    forall r {:trigger removals[r]} :: 0 <= r < |removals| && !removals[r].step.AwaitReleases? ==>
      removals[r].handle < |handles| && handles[removals[r].handle].closed
  }

  /** The handles are the same but for who is attached to them. */
  predicate SameButAttachments(before: seq<Handle>, after: seq<Handle>) {
    && |after| == |before|
    && forall h {:trigger after[h]} :: 0 <= h < |after| ==>
         && after[h].id == before[h].id && after[h].closed == before[h].closed
         && after[h].terminated == before[h].terminated
  }

  lemma SameHandlesKeepHandleInv(s: Router, t: Router)
    requires HandleInv(s) && SameButAttachments(s.handles, t.handles)
    requires t.hostedSessions == s.hostedSessions && t.openingSessions == s.openingSessions
    requires t.opens == s.opens && t.shutdown == s.shutdown
    ensures HandleInv(t)
  {
  }

  lemma StartAttachKeepsHandleInv(s: Router, o: OperationId, session: SessionId, current: Option<AttachmentId>)
    requires HandleInv(s) && o < |s.operations| && !s.closing && ClosingInOrder(s)
    requires OpeningEntries(s.openingSessions, s.opens)
    ensures var t := Acquire(s, o, session, current);
            HandleInv(t) && t.removals == s.removals && t.handles == s.handles
  {
  }

  lemma UnchangedKeepsHandleInv(s: Router, t: Router)
    requires HandleInv(s) && t.handles == s.handles
    requires t.hostedSessions == s.hostedSessions && t.openingSessions == s.openingSessions
    requires t.opens == s.opens && t.shutdown == s.shutdown
    ensures HandleInv(t)
  {
  }

  /** Starting this operation gets as far as `acquire`. */
  predicate ReachesAcquire(s: Router, o: OperationId)
    requires Refs(s) && o < |s.operations|
  {
    var op := s.operations[o];
    var current := Lookup(s.attachmentsByClient, op.client);
    && op.kind.Attach? && !Barred(s, op.client)
    && !(current.Some? && s.handles[s.attachments[current.value].handle].id == op.kind.session)
  }

  lemma StartAttachKeepsRest(s: Router, o: OperationId)
    requires Refs(s) && o < |s.operations| && s.operations[o].kind.Attach? && !ReachesAcquire(s, o)
    ensures StartOperation(s, o) == Finish(s, o)
  {
    hide Begun, AttachmentRefs, ValuesBelow, OperationRefs, OpenRefs, RemovalRefs;
    hide Acquire;
  }

  lemma StartCallKeepsRest(s: Router, o: OperationId)
    requires Refs(s) && o < |s.operations| && s.operations[o].kind.Call?
    ensures StartOperation(s, o).handles == s.handles && RestUnchanged(s, StartOperation(s, o))
  {
    hide Begun, AttachmentRefs, ValuesBelow, OperationRefs, OpenRefs, RemovalRefs;
    hide Acquire;
  }

  lemma ReleaseKeepsRest(s: Router, a: AttachmentId, publish: bool, o: OperationId)
    requires a < |s.attachments| && o < |s.operations|
    ensures var t := At(StartRelease(s, a, publish, Some(o)), o, AwaitRelease(a));
            t.handles == s.handles && RestUnchanged(s, t)
  {
  }

  lemma StartLeavingKeepsRest(s: Router, o: OperationId)
    requires Refs(s) && o < |s.operations| && (s.operations[o].kind.Detach? || s.operations[o].kind.Disconnect?)
    ensures StartOperation(s, o).handles == s.handles && RestUnchanged(s, StartOperation(s, o))
  {
    var c := s.operations[o].client;
    if c in s.attachmentsByClient {
      assert s.attachmentsByClient[c] < |s.attachments|;
      ReleaseKeepsRest(s, s.attachmentsByClient[c], s.operations[o].kind.Detach?, o);
    }
    hide Begun, AttachmentRefs, ValuesBelow, OperationRefs, OpenRefs, RemovalRefs, Acquire, StartRelease, At, Barred;
    FinishKeepsRest(s, o);
    hide Finish;
  }

  lemma StartKeepsRest(s: Router, o: OperationId)
    requires Refs(s) && o < |s.operations| && !ReachesAcquire(s, o)
    ensures StartOperation(s, o).handles == s.handles && RestUnchanged(s, StartOperation(s, o))
  {
    hide Refs, StartOperation, ReachesAcquire;
    match s.operations[o].kind {
      case Attach(_) => StartAttachKeepsRest(s, o);
      case Detach => StartLeavingKeepsRest(s, o);
      case Disconnect => StartLeavingKeepsRest(s, o);
      case Call(_, _) => StartCallKeepsRest(s, o);
    }
  }

  lemma HandlePreservedStart(s: Router, e: Event)
    requires Inv(s) && HandleInv(s) && RemovalsClosed(s.removals, s.handles) && Enabled(s, e) && e.Start?
    ensures HandleInv(Next(s, e)) && RemovalsClosed(Next(s, e).removals, Next(s, e).handles)
  {
    hide Members, Hosted, AllOwned, Openers, Clients, Chain, Previous, TailEntries, Tails, AllConsistent,
         NoOrphans, AllQueueDrained, Delivered, Refs;
    hide Tracked, AllExclusive, ShutdownProgress, RemovalsClosed, HandleInv, Acquire, OpeningEntries, StartOperation;
    if ReachesAcquire(s, e.op) {
      StartReachesAcquire(s, e.op);
      StartAttachKeepsHandleInv(s, e.op, s.operations[e.op].kind.session,
                                Lookup(s.attachmentsByClient, s.operations[e.op].client));
    } else {
      StartKeepsRest(s, e.op);
      UnchangedKeepsHandleInv(s, Next(s, e));
    }
  }

  lemma StartReachesAcquire(s: Router, o: OperationId)
    requires Refs(s) && o < |s.operations| && ReachesAcquire(s, o)
    ensures !s.closing && StartOperation(s, o)
            == Acquire(s, o, s.operations[o].kind.session, Lookup(s.attachmentsByClient, s.operations[o].client))
  {
    hide AttachmentRefs, ValuesBelow, OperationRefs, OpenRefs, RemovalRefs, Acquire;
  }

  lemma HandlePreservedAcquireReturns(s: Router, e: Event)
    requires Inv(s) && HandleInv(s) && RemovalsClosed(s.removals, s.handles) && Enabled(s, e) && e.AcquireReturns?
    ensures HandleInv(Next(s, e)) && RemovalsClosed(Next(s, e).removals, Next(s, e).handles)
  {
    var o := e.op;
    var step := s.operations[o].step;
    var t := Next(s, e);
    OperationFacts(s, o);
    hide Members, Hosted, OpeningEntries, AllOwned, Openers, Clients, Chain, Previous, TailEntries, Tails, AllConsistent,
         NoOrphans, AllQueueDrained, Delivered, AttachmentRefs, ValuesBelow, OperationRefs, OpenRefs, RemovalRefs;
    DeleteDoneKeepsExclusive(s.opens, s.openingSessions, s.hostedSessions, s.opens[step.open].session, step.open);
    hide Tracked, AllExclusive, ShutdownProgress, RemovalsClosed;
  }

  lemma DeleteDoneKeepsExclusive(opens: seq<Open>, opening: map<SessionId, OpenId>, hosted: map<SessionId, HandleId>,
                                 session: SessionId, n: OpenId)
    requires AllExclusive(opens, opening, hosted) && n < |opens| && opens[n].Done()
    ensures AllExclusive(opens, DeleteIf(opening, session, n), hosted)
  {
    forall m | 0 <= m < |opens|
      ensures Exclusive(m, opens[m], DeleteIf(opening, session, n), hosted)
    {
      assert Exclusive(m, opens[m], opening, hosted);
    }
  }

  lemma HostKeepsTracked(handles: seq<Handle>, hosted: map<SessionId, HandleId>, h: Handle)
    requires Tracked(handles, hosted) && h.id !in hosted
    ensures Tracked(handles + [h], hosted[h.id := |handles|])
  {
  }

  lemma DeadHandleKeepsTracked(handles: seq<Handle>, hosted: map<SessionId, HandleId>, h: Handle)
    requires Tracked(handles, hosted) && !h.Live()
    ensures Tracked(handles + [h], hosted)
  {
  }

  lemma HostKeepsExclusive(opens: seq<Open>, opening: map<SessionId, OpenId>, hosted: map<SessionId, HandleId>,
                           n: OpenId, h: HandleId)
    requires AllExclusive(opens, opening, hosted) && n < |opens| && opens[n].phase.Opening?
    ensures AllExclusive(opens[n := opens[n].(phase := Opened(h))], opening, hosted[opens[n].phase.metadata := h])
  {
    var opens' := opens[n := opens[n].(phase := Opened(h))];
    var hosted' := hosted[opens[n].phase.metadata := h];
    assert Exclusive(n, opens[n], opening, hosted);
    forall m | 0 <= m < |opens'|
      ensures Exclusive(m, opens'[m], opening, hosted')
    {
      assert Exclusive(m, opens[m], opening, hosted);
    }
  }

  lemma PhaseKeepsExclusive(opens: seq<Open>, opening: map<SessionId, OpenId>, hosted: map<SessionId, HandleId>,
                            n: OpenId, phase: OpenPhase)
    requires AllExclusive(opens, opening, hosted) && n < |opens| && !opens[n].Done()
    requires phase.Opening? ==> phase.metadata == opens[n].session
    ensures AllExclusive(opens[n := opens[n].(phase := phase)], opening, hosted)
  {
    var opens' := opens[n := opens[n].(phase := phase)];
    assert Exclusive(n, opens[n], opening, hosted);
    forall m | 0 <= m < |opens'|
      ensures Exclusive(m, opens'[m], opening, hosted)
    {
      assert Exclusive(m, opens[m], opening, hosted);
    }
  }

  /** Hosting a freshly opened handle: nothing is lost, because the session was not hosted before. */
  lemma HandlePreservedHandleOpens(s: Router, e: Event)
    requires Inv(s) && HandleInv(s) && RemovalsClosed(s.removals, s.handles) && Enabled(s, e) && e.HandleOpens?
    ensures HandleInv(Next(s, e)) && RemovalsClosed(Next(s, e).removals, Next(s, e).handles)
  {
    hide Members, Hosted, OpeningEntries, AllOwned, Openers, Clients, Chain, Previous, TailEntries, Tails, AllConsistent,
         NoOrphans, AllQueueDrained, Delivered, AttachmentRefs, ValuesBelow, OperationRefs, OpenRefs, RemovalRefs;
    var n := e.open;
    var t := Next(s, e);
    var metadata := s.opens[n].phase.metadata;
    var h := Handle(metadata, {}, s.closing, false);
    assert Exclusive(n, s.opens[n], s.openingSessions, s.hostedSessions);
    MoreHandlesKeepRemovals(s.removals, s.handles, h);
    if e.ok && !s.closing {
      HostKeepsTracked(s.handles, s.hostedSessions, h);
      HostKeepsExclusive(s.opens, s.openingSessions, s.hostedSessions, n, |s.handles|);
    } else if e.ok {
      DeadHandleKeepsTracked(s.handles, s.hostedSessions, h);
      PhaseKeepsExclusive(s.opens, s.openingSessions, s.hostedSessions, n, ClosingAcquired(|s.handles|));
    } else {
      PhaseKeepsExclusive(s.opens, s.openingSessions, s.hostedSessions, n, OpenFailed);
    }
    hide Tracked, AllExclusive, RemovalsClosed, Exclusive;
  }

  lemma HandlePreservedUnhosting(s: Router, t: Router, session: SessionId, h: HandleId)
    requires HandleInv(s) && h < |s.handles| && !s.handles[h].Live()
    requires t.hostedSessions == DeleteIf(s.hostedSessions, session, h)
    requires t.handles == s.handles && t.openingSessions == s.openingSessions
    requires t.opens == s.opens && t.shutdown == s.shutdown
    ensures HandleInv(t)
  {
    forall m | 0 <= m < |t.opens|
      ensures Exclusive(m, t.opens[m], t.openingSessions, t.hostedSessions)
    {
      assert Exclusive(m, s.opens[m], s.openingSessions, s.hostedSessions);
    }
  }

  lemma HandlePreservedInvalidate(s: Router, e: Event)
    requires Inv(s) && HandleInv(s) && RemovalsClosed(s.removals, s.handles) && Enabled(s, e) && e.Invalidate?
    ensures HandleInv(Next(s, e)) && RemovalsClosed(Next(s, e).removals, Next(s, e).handles)
  {
    var h := e.handle;
    hide Members, Hosted, OpeningEntries, AllOwned, Openers, Clients, Chain, Previous, TailEntries, Tails, AllConsistent,
         NoOrphans, AllQueueDrained, Delivered, AttachmentRefs, ValuesBelow, OperationRefs, OpenRefs, RemovalRefs;
    hide HandleInv, RemovalsClosed, Begun;
    if Lookup(s.hostedSessions, s.handles[h].id) == Some(h) {
      HandlePreservedUnhosting(s, Next(s, e), s.handles[h].id, h);
    }
  }

  lemma SameHandlesKeepRemovals(removals: seq<Removal>, before: seq<Handle>, after: seq<Handle>)
    requires RemovalsClosed(removals, before) && SameButAttachments(before, after)
    ensures RemovalsClosed(removals, after)
  {
  }

  lemma MoreHandlesKeepRemovals(removals: seq<Removal>, handles: seq<Handle>, h: Handle)
    requires RemovalsClosed(removals, handles)
    ensures RemovalsClosed(removals, handles + [h])
  {
  }

  predicate RestUnchanged(s: Router, t: Router) {
    && t.hostedSessions == s.hostedSessions && t.openingSessions == s.openingSessions
    && t.opens == s.opens && t.shutdown == s.shutdown && t.removals == s.removals
  }

  lemma SetReleaseKeepsRest(s: Router, a: AttachmentId, phase: ReleasePhase, ok: bool)
    requires a < |s.attachments|
    ensures SetRelease(s, a, phase, ok).handles == s.handles && RestUnchanged(s, SetRelease(s, a, phase, ok))
    ensures CallRelease(s, a).handles == s.handles && RestUnchanged(s, CallRelease(s, a))
  {
  }

  lemma AttachmentStepKeepsRest(s: Router, e: Event)
    requires Refs(s) && Enabled(s, e) && (e.LeaseSettles? || e.CallSettles? || e.Drained? || e.ClearPublished?)
    ensures Next(s, e).handles == s.handles && RestUnchanged(s, Next(s, e))
  {
    hide Refs, SetRelease, CallRelease;
    match e {
      case LeaseSettles(_, _) =>
      case CallSettles(_, _) =>
      case Drained(a) => SetReleaseKeepsRest(s, a, AwaitingLease, true);
      case ClearPublished(a, ok) => SetReleaseKeepsRest(s, a, Settled, s.attachments[a].release.ok && ok);
    }
  }

  lemma QueueStepKeepsRest(s: Router, e: Event)
    requires Refs(s) && Enabled(s, e) && (e.Enqueue? || e.AttachPublished? || e.ReleaseAwaited? || e.BeginClosing?)
    ensures Next(s, e).handles == s.handles && RestUnchanged(s, Next(s, e))
  {
    hide AttachmentRefs, ValuesBelow, OperationRefs, OpenRefs, RemovalRefs;
  }

  lemma HandlePreservedElsewhere(s: Router, e: Event)
    requires Inv(s) && HandleInv(s) && RemovalsClosed(s.removals, s.handles) && Enabled(s, e)
    requires e.Enqueue? || e.AttachPublished? || e.ReleaseAwaited? || e.LeaseSettles? || e.CallSettles? || e.Drained?
             || e.ClearPublished? || e.BeginClosing?
    ensures HandleInv(Next(s, e)) && RemovalsClosed(Next(s, e).removals, Next(s, e).handles)
  {
    InvGivesRefs(s);
    hide Inv, Refs, HandleInv, RemovalsClosed, Next, Enabled;
    if e.LeaseSettles? || e.CallSettles? || e.Drained? || e.ClearPublished? {
      AttachmentStepKeepsRest(s, e);
    } else {
      QueueStepKeepsRest(s, e);
    }
    UnchangedKeepsHandleInv(s, Next(s, e));
  }

  lemma CreateKeepsHandles(s: Router, o: OperationId, h: HandleId)
    requires o < |s.operations| && h < |s.handles|
    ensures SameButAttachments(s.handles, CreateAttachment(s, o, h).handles)
    ensures RestUnchanged(s, CreateAttachment(s, o, h))
  {
  }

  lemma ClearKeepsHandles(s: Router, a: AttachmentId, ok: bool)
    requires a < |s.attachments| && s.attachments[a].handle < |s.handles|
    ensures SameButAttachments(s.handles, Clear(s, a, ok).handles)
    ensures SameButAttachments(s.handles, DropFromHandle(s, a).handles)
    ensures RestUnchanged(s, Clear(s, a, ok)) && RestUnchanged(s, DropFromHandle(s, a))
  {
  }

  lemma ResumingKeepsHandles(s: Router, o: OperationId)
    requires Refs(s) && o < |s.operations| && s.operations[o].step.AwaitHosted?
    requires StepRefs(s.operations[o].step, |s.opens|, |s.handles|, |s.attachments|)
    ensures SameButAttachments(s.handles, ResumeAttach(s, o).handles) && RestUnchanged(s, ResumeAttach(s, o))
  {
    hide Begun, AttachmentRefs, ValuesBelow, OperationRefs, OpenRefs, RemovalRefs;
    if s.operations[o].step.hosted.Some? {
      CreateKeepsHandles(s, o, s.operations[o].step.hosted.value);
    }
  }

  lemma ArrivingKeepsHandles(s: Router, o: OperationId, a: AttachmentId)
    requires Refs(s) && o < |s.operations| && s.operations[o].step == AwaitLease(a) && a < |s.attachments|
    requires s.attachments[a].handle < |s.handles|
    ensures SameButAttachments(s.handles, ArriveLease(s, o).handles) && RestUnchanged(s, ArriveLease(s, o))
  {
    hide Begun, AttachmentRefs, ValuesBelow, OperationRefs, OpenRefs, RemovalRefs, Barred;
    ClearKeepsHandles(s, a, true);
  }

  lemma AttachingKeepsHandles(s: Router, e: Event)
    requires Inv(s) && Enabled(s, e)
    requires e.AttachResumes? || e.CurrentReleased? || e.LeaseArrives? || e.LeaseForRelease? || e.ReleaseSettles?
    ensures SameButAttachments(s.handles, Next(s, e).handles) && RestUnchanged(s, Next(s, e))
  {
    hide Inv, Refs, SameButAttachments, ResumeAttach, ArriveLease, Clear, CreateAttachment, StepRefs, AllSettled;
    InvGivesRefs(s);
    match e {
      case AttachResumes(o) =>
        OperationFacts(s, o);
        ResumingKeepsHandles(s, o);
      case CurrentReleased(o) =>
        OperationFacts(s, o);
        StepHandleInRange(s, o);
        CreateKeepsHandles(s, o, s.operations[o].step.handle);
        FinishKeepsRest(s, o);
      case LeaseArrives(o) =>
        HandleInRange(s, s.operations[o].step.attachment);
        ArrivingKeepsHandles(s, o, s.operations[o].step.attachment);
      case LeaseForRelease(a) =>
        HandleInRange(s, a);
        ClearKeepsHandles(s, a, false);
        CallKeepsHandles(s, a);
      case ReleaseSettles(a, ok) =>
        HandleInRange(s, a);
        ClearKeepsHandles(s, a, ok);
    }
  }

  lemma CallKeepsHandles(s: Router, a: AttachmentId)
    requires a < |s.attachments|
    ensures SameButAttachments(s.handles, CallRelease(s, a).handles) && RestUnchanged(s, CallRelease(s, a))
  {
  }

  lemma FinishKeepsRest(s: Router, o: OperationId)
    requires o < |s.operations|
    ensures SameButAttachments(s.handles, Finish(s, o).handles) && RestUnchanged(s, Finish(s, o))
  {
  }

  lemma StepHandleInRange(s: Router, o: OperationId)
    requires Inv(s) && o < |s.operations| && s.operations[o].step.AwaitCurrent?
    ensures s.operations[o].step.handle < |s.handles|
  {
    hide Inv;
    OperationFacts(s, o);
  }

  lemma InvGivesRefs(s: Router)
    requires Inv(s)
    ensures Refs(s)
  {
    hide Refs;
  }

  lemma HandleInRange(s: Router, a: AttachmentId)
    requires Inv(s) && a < |s.attachments|
    ensures s.attachments[a].handle < |s.handles|
  {
    hide Inv;
    AttachmentFacts(s, a);
  }

  lemma HandlePreservedAttaching(s: Router, e: Event)
    requires Inv(s) && HandleInv(s) && RemovalsClosed(s.removals, s.handles) && Enabled(s, e)
    requires e.AttachResumes? || e.CurrentReleased? || e.LeaseArrives? || e.LeaseForRelease? || e.ReleaseSettles?
    ensures HandleInv(Next(s, e)) && RemovalsClosed(Next(s, e).removals, Next(s, e).handles)
  {
    var t := Next(s, e);
    AttachingKeepsHandles(s, e);
    hide Members, Hosted, OpeningEntries, AllOwned, Openers, Clients, Chain, Previous, TailEntries, Tails, AllConsistent,
         NoOrphans, AllQueueDrained, Delivered, AttachmentRefs, ValuesBelow, OperationRefs, OpenRefs, RemovalRefs;
    hide Tracked, AllExclusive, ShutdownProgress, RemovalsClosed, HandleInv, Next, SameButAttachments;
    SameHandlesKeepHandleInv(s, t);
    SameHandlesKeepRemovals(s.removals, s.handles, t.handles);
  }

  lemma HandlePreservedOpening(s: Router, e: Event)
    requires Inv(s) && HandleInv(s) && RemovalsClosed(s.removals, s.handles) && Enabled(s, e)
    requires e.SessionResolves? || e.AcquiredClosed?
    requires Faithful(s, e)
    ensures HandleInv(Next(s, e)) && RemovalsClosed(Next(s, e).removals, Next(s, e).handles)
  {
    hide Members, Hosted, OpeningEntries, AllOwned, Openers, Clients, Chain, Previous, TailEntries, Tails, AllConsistent,
         NoOrphans, AllQueueDrained, Delivered, AttachmentRefs, ValuesBelow, OperationRefs, OpenRefs, RemovalRefs;
    hide Tracked, RemovalsClosed;
    var n := e.open;
    if e.SessionResolves? && e.metadata.Some? {
      PhaseKeepsExclusive(s.opens, s.openingSessions, s.hostedSessions, n, Opening(e.metadata.value));
    } else {
      PhaseKeepsExclusive(s.opens, s.openingSessions, s.hostedSessions, n, OpenFailed);
    }
    hide AllExclusive;
  }

  lemma RemovalInRange(s: Router, r: RemovalId)
    requires Inv(s) && r < |s.removals|
    ensures s.removals[r].handle < |s.handles|
  {
  }

  lemma HandlePreservedClosing(s: Router, e: Event)
    requires Inv(s) && HandleInv(s) && RemovalsClosed(s.removals, s.handles) && Enabled(s, e)
    requires e.Terminates? || e.RemovalReleased? || e.Remove?
    ensures HandleInv(Next(s, e)) && RemovalsClosed(Next(s, e).removals, Next(s, e).handles)
  {
    hide Members, Hosted, OpeningEntries, AllOwned, Openers, Clients, Chain, Previous, TailEntries, Tails, AllConsistent,
         NoOrphans, AllQueueDrained, Delivered, AttachmentRefs, ValuesBelow, OperationRefs, OpenRefs, RemovalRefs;
    hide AllExclusive, Begun;
    if e.RemovalReleased? {
      RemovalInRange(s, e.removal);
    }
  }

  lemma HandlePreservedRemovalClosed(s: Router, e: Event)
    requires Inv(s) && HandleInv(s) && RemovalsClosed(s.removals, s.handles) && Enabled(s, e)
    requires e.RemovalClosed?
    ensures HandleInv(Next(s, e)) && RemovalsClosed(Next(s, e).removals, Next(s, e).handles)
  {
    var t := Next(s, e);
    hide Members, Hosted, OpeningEntries, AllOwned, Openers, Clients, Chain, Previous, TailEntries, Tails, AllConsistent,
         NoOrphans, AllQueueDrained, Delivered, AttachmentRefs, ValuesBelow, OperationRefs, OpenRefs, RemovalRefs;
    hide AllExclusive, Tracked, ShutdownProgress, HandleInv;
    HandlePreservedUnhosting(s, t, s.removals[e.removal].session, s.removals[e.removal].handle);
  }

  lemma OpensInFlightAreListed(opens: seq<Open>, opening: map<SessionId, OpenId>, hosted: map<SessionId, HandleId>)
    requires AllExclusive(opens, opening, hosted)
    ensures OthersDone(opens, opening.Values)
  {
    forall n | 0 <= n < |opens| && !opens[n].Done()
      ensures n in opening.Values
    {
      assert Exclusive(n, opens[n], opening, hosted);
      assert opening[opens[n].session] == n;
    }
  }

  lemma LiveHandlesAreHosted(s: Router)
    requires Tracked(s.handles, s.hostedSessions)
    ensures forall h {:trigger s.handles[h]} :: 0 <= h < |s.handles| && s.handles[h].Live() ==> h in s.hostedSessions.Values
  {
    forall h | 0 <= h < |s.handles| && s.handles[h].Live()
      ensures h in s.hostedSessions.Values
    {
      assert s.hostedSessions[s.handles[h].id] == h;
    }
  }

  lemma HandlePreservedShutdown(s: Router, e: Event)
    requires Inv(s) && HandleInv(s) && RemovalsClosed(s.removals, s.handles) && Enabled(s, e)
    requires e.Close? || e.CloseOperationsSettled? || e.CloseAttachmentsSettled?
    ensures HandleInv(Next(s, e)) && RemovalsClosed(Next(s, e).removals, Next(s, e).handles)
  {
    hide AllExclusive;
    hide Members, Hosted, OpeningEntries, AllOwned, Openers, Clients, Chain, Previous, TailEntries, Tails, AllConsistent,
         NoOrphans, AllQueueDrained, Delivered, AttachmentRefs, ValuesBelow, OperationRefs, OpenRefs, RemovalRefs;
    hide AllAttachments, Begun;
    if e.Close? {
      OpensInFlightAreListed(s.opens, s.openingSessions, s.hostedSessions);
    }
    if e.CloseAttachmentsSettled? {
      LiveHandlesAreHosted(s);
    }
  }

  lemma HandlePreservedComplete(s: Router, e: Event)
    requires Inv(s) && HandleInv(s) && RemovalsClosed(s.removals, s.handles) && Enabled(s, e)
    requires e.CloseHandlesSettled?
    ensures HandleInv(Next(s, e)) && RemovalsClosed(Next(s, e).removals, Next(s, e).handles)
  {
    var t := Next(s, e);
    hide Members, Hosted, OpeningEntries, AllOwned, Openers, Clients, Chain, Previous, TailEntries, Tails, AllConsistent,
         NoOrphans, AllQueueDrained, Delivered, AttachmentRefs, ValuesBelow, OperationRefs, OpenRefs, RemovalRefs;
    forall m | 0 <= m < |t.opens|
      ensures Exclusive(m, t.opens[m], t.openingSessions, t.hostedSessions)
    {
      assert Exclusive(m, s.opens[m], s.openingSessions, s.hostedSessions);
    }
    hide Exclusive;
  }

  lemma HandlePreserved(s: Router, e: Event)
    requires Inv(s) && HandleInv(s) && RemovalsClosed(s.removals, s.handles) && Enabled(s, e) && Faithful(s, e)
    ensures HandleInv(Next(s, e)) && RemovalsClosed(Next(s, e).removals, Next(s, e).handles)
  {
    hide Inv, HandleInv, RemovalsClosed, Next, Enabled, Faithful;
    match e {
      case Start(o) => HandlePreservedStart(s, e);
      case AcquireReturns(o) => HandlePreservedAcquireReturns(s, e);
      case HandleOpens(n, ok) => HandlePreservedHandleOpens(s, e);
      case Invalidate(h) => HandlePreservedInvalidate(s, e);
      case RemovalClosed(r) => HandlePreservedRemovalClosed(s, e);
      case CloseHandlesSettled(failed) => HandlePreservedComplete(s, e);
      case SessionResolves(n, m) => HandlePreservedOpening(s, e);
      case AcquiredClosed(n) => HandlePreservedOpening(s, e);
      case Terminates(h) => HandlePreservedClosing(s, e);
      case RemovalReleased(r) => HandlePreservedClosing(s, e);
      case Remove(session) => HandlePreservedClosing(s, e);
      case Close => HandlePreservedShutdown(s, e);
      case CloseOperationsSettled => HandlePreservedShutdown(s, e);
      case CloseAttachmentsSettled => HandlePreservedShutdown(s, e);
      case Enqueue(c, k) => HandlePreservedElsewhere(s, e);
      case AttachPublished(o) => HandlePreservedElsewhere(s, e);
      case ReleaseAwaited(o) => HandlePreservedElsewhere(s, e);
      case LeaseSettles(a, ok) => HandlePreservedElsewhere(s, e);
      case CallSettles(a, call) => HandlePreservedElsewhere(s, e);
      case Drained(a) => HandlePreservedElsewhere(s, e);
      case ClearPublished(a, ok) => HandlePreservedElsewhere(s, e);
      case BeginClosing => HandlePreservedElsewhere(s, e);
      case AttachResumes(o) => HandlePreservedAttaching(s, e);
      case CurrentReleased(o) => HandlePreservedAttaching(s, e);
      case LeaseArrives(o) => HandlePreservedAttaching(s, e);
      case LeaseForRelease(a) => HandlePreservedAttaching(s, e);
      case ReleaseSettles(a, ok) => HandlePreservedAttaching(s, e);
    }
  }

  lemma {:induction false} FaithfulRunKeepsHandles(s: Router, events: seq<Event>, t: Router)
    requires Inv(s) && HandleInv(s) && RemovalsClosed(s.removals, s.handles)
    requires FaithfulRun(s, events) && Execute(s, events) == Some(t)
    ensures Inv(t) && HandleInv(t)
    decreases |events|
  {
    hide Inv, HandleInv, RemovalsClosed, Next, Enabled, Faithful;
    if events != [] {
      Preserved(s, events[0]);
      HandlePreserved(s, events[0]);
      FaithfulRunKeepsHandles(Next(s, events[0]), events[1..], t);
    }
  }

  lemma FaithfulReachKeepsHandles(events: seq<Event>, s: Router)
    requires Reaches(events, s) && FaithfulRun(Initial(), events)
    ensures Inv(s) && HandleInv(s)
  {
    InitialInv();
    FaithfulRunKeepsHandles(Initial(), events, s);
  }

  /** If `resolveSession` returns the id it was asked for, every handle ever opened is hosted, has had
      `close` called or has reported termination; so no id has two live handles. */
  lemma OneLiveHandlePerSession(events: seq<Event>, s: Router, g: HandleId, h: HandleId)
    requires Reaches(events, s) && FaithfulRun(Initial(), events)
    requires g < |s.handles| && h < |s.handles| && s.handles[g].Live() && s.handles[h].Live()
    ensures Lookup(s.hostedSessions, s.handles[h].id) == Some(h)
    ensures s.handles[g].id == s.handles[h].id ==> g == h
  {
    FaithfulReachKeepsHandles(events, s);
    hide Inv;
  }

  /** If `resolveSession` answers faithfully, a session is not opened while it is hosted. */
  lemma OpeningIsNotHosted(events: seq<Event>, s: Router, n: OpenId)
    requires Reaches(events, s) && FaithfulRun(Initial(), events) && n < |s.opens| && !s.opens[n].Done()
    ensures s.opens[n].session !in s.hostedSessions
  {
    FaithfulReachKeepsHandles(events, s);
    hide Inv;
    assert Exclusive(n, s.opens[n], s.openingSessions, s.hostedSessions);
  }

  /** Once shutdown is complete no handle is left open and none is being opened. */
  lemma ShutdownLeavesNothingOpen(events: seq<Event>, s: Router)
    requires Reaches(events, s) && FaithfulRun(Initial(), events) && s.shutdown.Complete?
    ensures forall h :: 0 <= h < |s.handles| ==> !s.handles[h].Live()
    ensures forall n :: 0 <= n < |s.opens| ==> s.opens[n].Done()
  {
    FaithfulReachKeepsHandles(events, s);
    hide Inv;
  }

  // ---- where the promises end ------------------------------------------------------------------

  /** Hosting a handle that has just been opened loses no live handle exactly when the router is
      closing or no live handle is hosted under the id that `resolveSession` returned. */
  lemma HostingLosesNothingIff(s: Router, n: OpenId)
    requires Tracked(s.handles, s.hostedSessions) && n < |s.opens| && s.opens[n].phase.Opening?
    requires ValuesBelow(s.hostedSessions, |s.handles|)
    requires forall sid :: sid in s.hostedSessions ==> s.handles[s.hostedSessions[sid]].id == sid
    ensures var id := s.opens[n].phase.metadata;
            var t := OpenHandle(s, n, true);
            Tracked(t.handles, t.hostedSessions) <==>
              s.closing || id !in s.hostedSessions || !s.handles[s.hostedSessions[id]].Live()
  {
    var id := s.opens[n].phase.metadata;
    var t := OpenHandle(s, n, true);
    if !s.closing && id in s.hostedSessions {
      assert t.handles[s.hostedSessions[id]] == s.handles[s.hostedSessions[id]];
    }
  }

  lemma {:induction false} ExecuteAppend(s: Router, before: seq<Event>, t: Router, e: Event)
    requires Execute(s, before) == Some(t) && Refs(t) && Enabled(t, e)
    ensures Execute(s, before + [e]) == Some(Next(t, e))
    decreases |before|
  {
    hide Refs, Enabled, Next;
    if before == [] {
      assert Execute(Next(t, e), [e][1..]) == Some(Next(t, e));
    } else {
      ExecuteAppend(Next(s, before[0]), before[1..], t, e);
      assert (before + [e])[1..] == before[1..] + [e];
    }
  }

  lemma Extend(events: seq<Event>, s: Router, e: Event) returns (more: seq<Event>, t: Router)
    requires Reaches(events, s) && Enabled(s, e)
    ensures Refs(s) && t == Next(s, e) && more == events + [e] && Reaches(more, t)
  {
    ReachedKeepsInv(events, s);
    ExecuteAppend(Initial(), events, s, e);
    more, t := events + [e], Next(s, e);
  }

  lemma NoEvents() returns (events: seq<Event>, s: Router)
    ensures events == [] && s == Initial() && Reaches(events, s)
  {
    events, s := [], Initial();
  }

  /** Two clients ask for two sessions, and both are being resolved. */
  lemma ResolvingRun() returns (events: seq<Event>, s: Router)
    ensures Reaches(events, s) && s.handles == [] && !s.closing && s.hostedSessions == map[]
    ensures s.opens == [Open(1, Resolving), Open(2, Resolving)]
  {
    hide Refs, Reaches;
    events, s := NoEvents();
    events, s := Extend(events, s, Enqueue(0, Attach(1)));
    events, s := Extend(events, s, Enqueue(1, Attach(2)));
    events, s := Extend(events, s, Start(0));
    assert s.opens == [Open(1, Resolving)];
    events, s := Extend(events, s, Start(1));
  }

  /** The general promise cannot be had: when `resolveSession` answers two ids with the same one, the
      second handle displaces the first, which stays live and unhosted. */
  lemma AliasingLosesAHandle() returns (events: seq<Event>, s: Router)
    ensures Reaches(events, s) && |s.handles| == 2 && s.handles[0].Live()
    ensures Lookup(s.hostedSessions, s.handles[0].id) != Some(0)
  {
    hide Refs, Reaches;
    events, s := ResolvingRun();
    events, s := Extend(events, s, SessionResolves(0, Some(7)));
    events, s := Extend(events, s, HandleOpens(0, true));
    events, s := Extend(events, s, SessionResolves(1, Some(7)));
    events, s := Extend(events, s, HandleOpens(1, true));
  }

  /** Client 0 asks for session 1, which is opened for it. */
  lemma OpenedRun() returns (events: seq<Event>, s: Router)
    ensures Reaches(events, s)
    ensures s == Initial().(
      hostedSessions := map[1 := 0], clientOperations := map[0 := 0],
      handles := [Handle(1, {}, false, false)],
      operations := [Operation(0, Attach(1), None, AwaitHosted(Some(0), None))],
      opens := [Open(1, Opened(0))])
  {
    hide Refs, Reaches;
    events, s := NoEvents();
    events, s := Extend(events, s, Enqueue(0, Attach(1)));
    events, s := Extend(events, s, Start(0));
    assert s.operations == [Operation(0, Attach(1), None, AwaitOpen(0, true, None))];
    assert s.opens == [Open(1, Resolving)];
    events, s := Extend(events, s, SessionResolves(0, Some(1)));
    events, s := Extend(events, s, HandleOpens(0, true));
    assert s.handles == [Handle(1, {}, false, false)];
    events, s := Extend(events, s, AcquireReturns(0));
  }

  /** Client 0 attaches to session 1 and the attachment is published. */
  lemma AttachedRun() returns (events: seq<Event>, s: Router)
    ensures Reaches(events, s)
    ensures s == Initial().(
      notices := s.notices,
      hostedSessions := map[1 := 0], attachmentsByClient := map[0 := 0],
      handles := [Handle(1, {0}, false, false)],
      attachments := [Attachment(0, 0, 0, {}, Leased, true, Release(NotStarted, {}, false, None, true), 0)],
      operations := [Operation(0, Attach(1), None, Finished)],
      opens := [Open(1, Opened(0))])
    ensures s.notices == [Notice(0, Some(0))]
  {
    hide Refs, Reaches;
    events, s := OpenedRun();
    events, s := Extend(events, s, AttachResumes(0));
    assert {} + {0} == {0};
    assert s.handles == [Handle(1, {0}, false, false)];
    events, s := Extend(events, s, LeaseSettles(0, true));
    events, s := Extend(events, s, LeaseArrives(0));
    events, s := Extend(events, s, AttachPublished(0));
  }

  /** `removeSession` has called `release` on client 0's lease. */
  lemma ReleasingRun() returns (events: seq<Event>, s: Router)
    ensures Reaches(events, s)
    ensures s == Initial().(
      notices := s.notices,
      hostedSessions := map[1 := 0], attachmentsByClient := map[0 := 0],
      handles := [Handle(1, {0}, false, false)],
      attachments := [Attachment(0, 0, 0, {}, Leased, true, Release(Releasing, {}, true, None, true), 1)],
      operations := [Operation(0, Attach(1), None, Finished)],
      opens := [Open(1, Opened(0))],
      removals := [Removal(1, 0, AwaitReleases({0}))])
  {
    hide Refs, Reaches;
    events, s := AttachedRun();
    events, s := Extend(events, s, Remove(1));
    assert s.attachments == [Attachment(0, 0, 0, {}, Leased, true, Release(Draining, {}, true, None, true), 0)];
    events, s := Extend(events, s, Drained(0));
  }

  /** A release that `removeSession` started does not keep calls out: the lease has been released and
      a call is admitted to it afterwards. */
  lemma RemovalReleasesUnderACall() returns (events: seq<Event>, s: Router)
    ensures Reaches(events, s) && |s.attachments| == 1
    ensures s.attachments[0].releaseCalls == 1 && s.attachments[0].calls != {}
  {
    hide Refs, Reaches;
    events, s := ReleasingRun();
    events, s := Extend(events, s, Enqueue(0, Call(1, 0)));
    events, s := Extend(events, s, Start(1));
    assert 1 in s.attachments[0].calls;
  }

  /** That release has settled and its end has been published. */
  lemma ReleasedRun() returns (events: seq<Event>, s: Router)
    ensures Reaches(events, s)
    ensures s == Initial().(
      notices := s.notices,
      hostedSessions := map[1 := 0],
      handles := [Handle(1, {}, false, false)],
      attachments := [Attachment(0, 0, 0, {}, Leased, true, Release(Settled, {}, true, None, true), 1)],
      operations := [Operation(0, Attach(1), None, Finished)],
      opens := [Open(1, Opened(0))],
      removals := [Removal(1, 0, AwaitReleases({0}))])
  {
    hide Refs, Reaches;
    events, s := ReleasingRun();
    events, s := Extend(events, s, ReleaseSettles(0, true));
    assert s.attachments == [Attachment(0, 0, 0, {}, Leased, true, Release(Publishing, {}, true, None, true), 1)];
    assert {0} - {0} == {};
    assert s.handles == [Handle(1, {}, false, false)];
    events, s := Extend(events, s, ClearPublished(0, true));
  }

  /** Client 2 asks for the session while `removeSession` awaits `close`, and finds it hosted. */
  lemma LateClientRun() returns (events: seq<Event>, s: Router)
    ensures Reaches(events, s)
    ensures s == Initial().(
      notices := s.notices,
      hostedSessions := map[1 := 0], clientOperations := map[2 := 1],
      handles := [Handle(1, {}, true, false)],
      attachments := [Attachment(0, 0, 0, {}, Leased, true, Release(Settled, {}, true, None, true), 1)],
      operations := [Operation(0, Attach(1), None, Finished),
                     Operation(2, Attach(1), None, AwaitHosted(Some(0), None))],
      opens := [Open(1, Opened(0))],
      removals := [Removal(1, 0, AwaitClose)])
  {
    hide Refs, Reaches;
    events, s := ReleasedRun();
    events, s := Extend(events, s, RemovalReleased(0));
    events, s := Extend(events, s, Enqueue(2, Attach(1)));
    events, s := Extend(events, s, Start(1));
  }

  /** It has been given a lease. */
  lemma LateLeaseRun() returns (events: seq<Event>, s: Router)
    ensures Reaches(events, s)
    ensures s == Initial().(
      notices := s.notices,
      hostedSessions := map[1 := 0], clientOperations := map[2 := 1],
      handles := [Handle(1, {1}, true, false)],
      attachments := [Attachment(0, 0, 0, {}, Leased, true, Release(Settled, {}, true, None, true), 1),
                      Attachment(2, 0, 1, {}, Leased, false, Release(NotStarted, {}, false, None, true), 0)],
      operations := [Operation(0, Attach(1), None, Finished), Operation(2, Attach(1), None, AwaitLease(1))],
      opens := [Open(1, Opened(0))],
      removals := [Removal(1, 0, AwaitClose)])
  {
    hide Refs, Reaches;
    events, s := LateClientRun();
    events, s := Extend(events, s, AttachResumes(1));
    assert {} + {1} == {1};
    assert s.handles == [Handle(1, {1}, true, false)];
    events, s := Extend(events, s, LeaseSettles(1, true));
  }

  /** A client that attaches while `removeSession` awaits `close` keeps an attachment whose session is
      no longer hosted. */
  lemma AttachingDuringRemovalOutlivesTheSession() returns (events: seq<Event>, s: Router)
    ensures Reaches(events, s) && 2 in s.attachmentsByClient && s.attachmentsByClient[2] == 1
    ensures |s.attachments| == 2 && s.attachments[1].lease && s.attachments[1].release.phase == NotStarted
    ensures s.attachments[1].handle !in s.hostedSessions.Values
  {
    hide Refs, Reaches;
    events, s := LateLeaseRun();
    events, s := Extend(events, s, LeaseArrives(1));
    events, s := Extend(events, s, RemovalClosed(0));
    assert s.hostedSessions == map[];
  }
}
