/** An attach that nothing gets in the way of attaches its client to the session it names. */
module SessionRouterAttaching {
  import opened Wrappers
  import opened SessionRouterSpec
  import opened SessionRouterProof
  import opened SessionRouterTheorems
  import opened SessionRouterHistory
  import opened SessionRouterRemovals
  import opened SessionRouterShutdown
  import opened SessionRouterNotices
  import opened SessionRouterLeases
  import opened SessionRouterProgress

  // ---- runs in which nothing goes wrong --------------------------------------------------------

  /** What can get in the way of a client's attaching. */
  predicate Spoils(e: Event, c: ClientId) {
    match e
    case Enqueue(client, kind) => client == c && kind.Disconnect?
    case SessionResolves(_, metadata) => metadata.None?
    case HandleOpens(_, ok) => !ok
    case LeaseSettles(_, ok) => !ok
    case ReleaseSettles(_, ok) => !ok
    case ClearPublished(_, ok) => !ok
    case Terminates(_) => true
    case Remove(_) => true
    case BeginClosing => true
    case _ => false
  }

  predicate AllLive(handles: seq<Handle>) {
    forall h {:trigger handles[h]} :: 0 <= h < |handles| ==> handles[h].Live()
  }

  /** No open has failed, and those that are over have opened the session they were asked for. */
  predicate OpensGoWell(opens: seq<Open>, handles: seq<Handle>) {
    forall n {:trigger opens[n]} :: 0 <= n < |opens| ==>
      && (opens[n].phase.Resolving? || opens[n].phase.Opening? || opens[n].phase.Opened?)
      && (opens[n].phase.Opened? ==>
            opens[n].phase.handle < |handles| && handles[opens[n].phase.handle].id == opens[n].session)
  }

  /** No lease has been refused, no release has gone badly, and all were begun from the queues. */
  predicate GoesWell(a: Attachment) {
    !a.acquiring.Refused? && a.release.ok && (a.release.phase != NotStarted ==> a.release.starter.Some?)
  }

  predicate LeasesGoWell(attachments: seq<Attachment>) {
    forall a {:trigger attachments[a]} :: 0 <= a < |attachments| ==> GoesWell(attachments[a])
  }

  predicate Smooth(s: Router) {
    && !s.closing && s.shutdown.NotRequested? && s.removals == []
    && AllLive(s.handles) && OpensGoWell(s.opens, s.handles) && LeasesGoWell(s.attachments)
  }

  lemma StaysOpenForBusiness(s: Router, e: Event, c: ClientId)
    requires Inv(s) && Smooth(s) && Enabled(s, e) && !Spoils(e, c)
    ensures Refs(s)
    ensures !Next(s, e).closing && Next(s, e).shutdown.NotRequested? && Next(s, e).removals == []
    ensures !e.Close? && !e.CloseOperationsSettled? && !e.CloseAttachmentsSettled? && !e.CloseHandlesSettled?
            && !e.RemovalReleased? && !e.RemovalClosed? && !e.Invalidate? && !e.AcquiredClosed?
  {
    InvGivesRefs(s);
    UntouchedFields(s, e);
    hide Inv, Refs, Next, GoesWell;
  }

  lemma HandlesStayLive(s: Router, e: Event, c: ClientId)
    requires Inv(s) && Smooth(s) && Enabled(s, e) && !Spoils(e, c)
    ensures Refs(s) && AllLive(Next(s, e).handles)
  {
    InvGivesRefs(s);
    StaysOpenForBusiness(s, e, c);
    if e.HandleOpens? {
      hide Inv, Refs, GoesWell, OpensGoWell, LeasesGoWell;
    } else {
      SameHandles(s, e);
      hide Inv, Refs, Next, Enabled, OpensGoWell, LeasesGoWell, Spoils;
    }
  }

  /** Other steps leave the handles alone but for who is attached to them. */
  lemma SameHandles(s: Router, e: Event)
    requires Inv(s) && Enabled(s, e) && !e.HandleOpens? && !e.Terminates? && !e.RemovalReleased? && !e.CloseAttachmentsSettled?
    ensures Refs(s) && SameButAttachments(s.handles, Next(s, e).handles)
  {
    hide Inv, Refs, Next, Enabled;
    InvGivesRefs(s);
    if e.AttachResumes? || e.LeaseArrives? || e.CurrentReleased? || e.LeaseForRelease? || e.ReleaseSettles? {
      AttachingKeepsHandles(s, e);
    } else if e.Start? {
      StartLeavesHandles(s, e.op);
    } else if e.Enqueue? || e.AcquireReturns? || e.AttachPublished? || e.ReleaseAwaited? {
      QueueFrame(s, e);
    } else if e.LeaseSettles? || e.CallSettles? || e.Drained? || e.ClearPublished? {
      AttachmentFrame(s, e);
    } else if e.BeginClosing? || e.Close? || e.CloseOperationsSettled? || e.CloseHandlesSettled? {
      ShutdownFrame(s, e);
    } else {
      SessionFrame(s, e);
    }
  }

  lemma StartLeavesHandles(s: Router, o: OperationId)
    requires Refs(s) && Enabled(s, Start(o))
    ensures Next(s, Start(o)).handles == s.handles
  {
    StartIsNext(s, o);
    if s.operations[o].kind.Attach? {
      StartAttachFrame(s, o);
    } else if s.operations[o].kind.Call? {
      StartCallFrame(s, o);
    } else {
      StartLeavingFrame(s, o);
    }
    hide Refs, Next, StartOperation;
  }

  lemma FaresWell(e: Event, c: ClientId, a: AttachmentId, before: Attachment, after: Attachment)
    requires !Spoils(e, c) && GoesWell(before) && Fares(e, a, before, after)
    ensures !after.acquiring.Refused? && after.release.ok
  {
  }

  /** No release is begun but by an operation of the queue. */
  lemma BegunFromAQueue(s: Router, e: Event, c: ClientId, a: AttachmentId)
    requires Inv(s) && Smooth(s) && Enabled(s, e) && !Spoils(e, c)
    ensures Refs(s)
    ensures Begins(s, Next(s, e), a) ==>
              Actor(e).Some? && Next(s, e).attachments[a].release.starter == Actor(e)
  {
    InvGivesRefs(s);
    StaysOpenForBusiness(s, e, c);
    BegunHow(s, e, a);
    hide Inv, Refs, Next, Enabled, Smooth;
  }

  lemma LeaseStaysWell(s: Router, e: Event, c: ClientId, a: AttachmentId)
    requires Inv(s) && Smooth(s) && Enabled(s, e) && !Spoils(e, c)
    ensures Refs(s) && (a < |s.attachments| ==> a < |Next(s, e).attachments| && GoesWell(Next(s, e).attachments[a]))
  {
    InvGivesRefs(s);
    if a < |s.attachments| {
      StepFares(s, e);
      StepContinues(s, e);
      BegunFromAQueue(s, e, c, a);
      assert GoesWell(s.attachments[a]);
      hide Inv, Refs, Next, Enabled, Smooth, Spoils, Fares, OperationsContinue, HandlesContinue, RemovalsContinue, Local;
      FaresWell(e, c, a, s.attachments[a], Next(s, e).attachments[a]);
      assert AttachmentContinues(s.attachments[a], Next(s, e).attachments[a]);
    }
  }

  lemma NewLeaseIsWell(s: Router, e: Event, a: AttachmentId)
    requires Inv(s) && Enabled(s, e)
    ensures Refs(s) && (|s.attachments| <= a < |Next(s, e).attachments| ==> GoesWell(Next(s, e).attachments[a]))
  {
    InvGivesRefs(s);
    StepFares(s, e);
    NewIsNotBegun(s, e, a);
    hide Inv, Refs, Next, Enabled, Fares;
  }

  lemma LeasesStayWell(s: Router, e: Event, c: ClientId)
    requires Inv(s) && Smooth(s) && Enabled(s, e) && !Spoils(e, c)
    ensures Refs(s) && LeasesGoWell(Next(s, e).attachments)
  {
    InvGivesRefs(s);
    hide Inv, Refs, Next, Enabled, Smooth, Spoils, GoesWell;
    forall a | 0 <= a < |Next(s, e).attachments| ensures GoesWell(Next(s, e).attachments[a]) {
      LeaseStaysWell(s, e, c, a);
      NewLeaseIsWell(s, e, a);
    }
  }

  lemma OpensStayWell(s: Router, e: Event, c: ClientId)
    requires Inv(s) && HandleInv(s) && Smooth(s) && Enabled(s, e) && !Spoils(e, c)
    ensures Refs(s) && OpensGoWell(Next(s, e).opens, Next(s, e).handles)
  {
    InvGivesRefs(s);
    StepContinues(s, e);
    StaysOpenForBusiness(s, e, c);
    if e.HandleOpens? {
      OpeningIsFaithful(s, e.open);
      hide Inv, Refs, HandleInv, LeasesGoWell, AllLive;
    } else if e.SessionResolves? {
      hide Inv, Refs, HandleInv, LeasesGoWell, AllLive;
    } else if e.Start? {
      StartKeepsOpensWell(s, e.op);
      hide Inv, Refs, Next, HandleInv, LeasesGoWell, AllLive, Enabled, Spoils;
    } else {
      UntouchedFields(s, e);
      hide Inv, Refs, Next, HandleInv, LeasesGoWell, AllLive, Enabled, OperationsContinue, AttachmentsContinue, Local;
      if e.AcquireReturns? { ReturningKeepsOpens(s, e); }
    }
  }

  lemma OpeningIsFaithful(s: Router, n: OpenId)
    requires HandleInv(s) && n < |s.opens| && s.opens[n].phase.Opening?
    ensures s.opens[n].phase.metadata == s.opens[n].session && s.opens[n].session !in s.hostedSessions
  {
    assert Exclusive(n, s.opens[n], s.openingSessions, s.hostedSessions);
  }

  lemma StartKeepsOpensWell(s: Router, o: OperationId)
    requires Refs(s) && Enabled(s, Start(o)) && OpensGoWell(s.opens, s.handles)
    ensures OpensGoWell(Next(s, Start(o)).opens, Next(s, Start(o)).handles)
  {
    StartLeavesHandles(s, o);
    StartIsNext(s, o);
    if s.operations[o].kind.Attach? {
      AttachKeepsOpensWell(s, o);
    } else if s.operations[o].kind.Call? {
      StartCallFrame(s, o);
    } else {
      StartLeavingFrame(s, o);
    }
    hide Refs, Next, StartOperation, OpensGoWell;
  }

  lemma AttachKeepsOpensWell(s: Router, o: OperationId)
    requires Refs(s) && o < |s.operations| && s.operations[o].kind.Attach? && OpensGoWell(s.opens, s.handles)
    ensures OpensGoWell(StartOperation(s, o).opens, s.handles)
  {
    hide Refs, Barred;
  }

  lemma ReturningKeepsOpens(s: Router, e: Event)
    requires Refs(s) && Enabled(s, e) && e.AcquireReturns?
    ensures Next(s, e).opens == s.opens
  {
    hide Refs;
  }

  lemma StepStaysSmooth(s: Router, e: Event, c: ClientId)
    requires Inv(s) && HandleInv(s) && Smooth(s) && Enabled(s, e) && !Spoils(e, c)
    ensures Refs(s) && Smooth(Next(s, e))
  {
    InvGivesRefs(s);
    StaysOpenForBusiness(s, e, c);
    HandlesStayLive(s, e, c);
    LeasesStayWell(s, e, c);
    OpensStayWell(s, e, c);
    hide Inv, HandleInv, Refs, Next, Enabled, OpensGoWell, LeasesGoWell, AllLive;
  }

  // ---- how far an attach has got ---------------------------------------------------------------

  /** The client is attached to the session, and nobody has begun to release it. */
  predicate AttachedTo(s: Router, c: ClientId, session: SessionId) {
    && c in s.attachmentsByClient && s.attachmentsByClient[c] < |s.attachments|
    && s.attachments[s.attachmentsByClient[c]].release.phase == NotStarted
    && s.attachments[s.attachmentsByClient[c]].handle < |s.handles|
    && s.handles[s.attachments[s.attachmentsByClient[c]].handle].id == session
  }

  /** An operation the client has queued later has started. */
  predicate LaterStarted(operations: seq<Operation>, o: OperationId)
    requires o < |operations|
  {
    exists p {:trigger operations[p]} :: o < p < |operations| && operations[p].client == operations[o].client
                                          && !operations[p].step.Queued?
  }

  predicate ForSession(handles: seq<Handle>, h: HandleId, session: SessionId) {
    h < |handles| && handles[h].id == session
  }

  /** Wherever the attach is, it is on its way to its session. */
  predicate GettingThere(s: Router, o: OperationId, session: SessionId)
    requires o < |s.operations|
  {
    match s.operations[o].step
    case Queued => true
    case AwaitOpen(n, _, _) => n < |s.opens| && s.opens[n].session == session
    case AwaitHosted(hosted, _) => hosted.Some? && ForSession(s.handles, hosted.value, session)
    case AwaitCurrent(h, _) => ForSession(s.handles, h, session)
    case AwaitLease(a) =>
      && a < |s.attachments| && ForSession(s.handles, s.attachments[a].handle, session)
      && s.attachments[a].client == s.operations[o].client && s.attachments[a].release.phase == NotStarted
    case AwaitRelease(_) => false
    case AwaitPublish => AttachedTo(s, s.operations[o].client, session)
    case Finished => LaterStarted(s.operations, o) || AttachedTo(s, s.operations[o].client, session)
  }

  // ---- steps of others -------------------------------------------------------------------------

  /** A release of one of the client's attachments is begun by one of its own operations. */
  lemma BegunByItsOwn(s: Router, e: Event, c: ClientId, a: AttachmentId)
    requires Inv(s) && Smooth(s) && Enabled(s, e) && !Spoils(e, c) && a < |s.attachments|
    ensures Refs(s)
    ensures Begins(s, Next(s, e), a) ==>
              Actor(e).Some? && Actor(e).value < |s.operations|
              && s.operations[Actor(e).value].client == s.attachments[a].client
  {
    InvGivesRefs(s);
    BegunFromAQueue(s, e, c, a);
    StepContinues(s, e);
    Preserved(s, e);
    if Begins(s, Next(s, e), a) {
      AttachmentFacts(Next(s, e), a);
      ActorIsThere(s, e);
      assert AttachmentContinues(s.attachments[a], Next(s, e).attachments[a]);
    }
    hide Inv, Refs, Next, Enabled, Smooth, Spoils, HandlesContinue, RemovalsContinue, Local;
  }

  lemma ActorIsThere(s: Router, e: Event)
    requires Enabled(s, e) && Actor(e).Some?
    ensures Actor(e).value < |s.operations|
  {
  }

  lemma StaysAttached(s: Router, e: Event, c: ClientId, session: SessionId)
    requires Inv(s) && Smooth(s) && Enabled(s, e) && !Spoils(e, c) && AttachedTo(s, c, session)
    requires Actor(e).Some? ==> Actor(e).value < |s.operations| && s.operations[Actor(e).value].client != c
    ensures Refs(s) && AttachedTo(Next(s, e), c, session)
  {
    InvGivesRefs(s);
    var a, t := s.attachmentsByClient[c], Next(s, e);
    StaysOpenForBusiness(s, e, c);
    BegunByItsOwn(s, e, c, a);
    StepContinues(s, e);
    OwnerIs(s, c);
    hide Inv, Refs, Next, Enabled, Smooth, Spoils, OperationsContinue, RemovalsContinue, Local;
    MapOnlyLosesCleared(s, e, c);
    assert AttachmentContinues(s.attachments[a], t.attachments[a]);
    assert t.handles[s.attachments[a].handle].id == s.handles[s.attachments[a].handle].id;
  }

  lemma OwnerIs(s: Router, c: ClientId)
    requires Inv(s) && c in s.attachmentsByClient
    ensures s.attachmentsByClient[c] < |s.attachments| && s.attachments[s.attachmentsByClient[c]].client == c
  {
    hide Members, Hosted, OpeningEntries, AllOwned, Openers, Chain, Previous, TailEntries, Tails, AllConsistent, NoOrphans,
         AllQueueDrained, Delivered, Refs;
  }

  lemma LaterStays(before: seq<Operation>, after: seq<Operation>, o: OperationId)
    requires OperationsContinue(before, after) && o < |before| && LaterStarted(before, o)
    ensures LaterStarted(after, o)
  {
    var p :| o < p < |before| && before[p].client == before[o].client && !before[p].step.Queued?;
    assert after[p].client == after[o].client && !after[p].step.Queued?;
  }

  /** They leave the operation and the handles' identities alone. */
  lemma OthersLeave(s: Router, e: Event, o: OperationId)
    requires Inv(s) && Enabled(s, e) && o < |s.operations| && Actor(e) != Some(o)
    ensures Refs(s) && o < |Next(s, e).operations| && Next(s, e).operations[o] == s.operations[o]
    ensures OperationsContinue(s.operations, Next(s, e).operations)
    ensures AttachmentsContinue(s.attachments, Next(s, e).attachments) && HandlesContinue(s.handles, Next(s, e).handles)
  {
    InvGivesRefs(s);
    StepContinues(s, e);
    hide Inv, Refs, Next, Enabled, OperationsContinue, AttachmentsContinue, HandlesContinue, RemovalsContinue, OnlyCreates;
    assert Next(s, e).operations[o] == s.operations[o];
  }

  lemma StaysForSession(before: seq<Handle>, after: seq<Handle>, h: HandleId, session: SessionId)
    requires HandlesContinue(before, after) && ForSession(before, h, session)
    ensures ForSession(after, h, session)
  {
    assert after[h].id == before[h].id;
  }

  /** An attach that waits for a lease goes on waiting for it. */
  lemma OthersLeaveLease(s: Router, e: Event, o: OperationId, a: AttachmentId, session: SessionId)
    requires Inv(s) && Smooth(s) && Enabled(s, e) && o < |s.operations| && !Spoils(e, s.operations[o].client)
    requires s.operations[o].step == AwaitLease(a) && GettingThere(s, o, session)
    requires Actor(e).Some? ==> Actor(e).value < |s.operations| && s.operations[Actor(e).value].client != s.operations[o].client
    ensures Refs(s) && o < |Next(s, e).operations| && GettingThere(Next(s, e), o, session)
  {
    hide Inv, Refs, Next, Enabled, Smooth, Spoils, LaterStarted, AttachedTo, OperationsContinue, HandlesContinue;
    OthersLeave(s, e, o);
    BegunByItsOwn(s, e, s.operations[o].client, a);
    StaysForSession(s.handles, Next(s, e).handles, s.attachments[a].handle, session);
    assert AttachmentContinues(s.attachments[a], Next(s, e).attachments[a]);
  }

  /** Other clients, and the outside, do not get in the way. */
  lemma OthersStepGettingThere(s: Router, e: Event, o: OperationId, session: SessionId)
    requires Inv(s) && Smooth(s) && Enabled(s, e) && o < |s.operations| && !Spoils(e, s.operations[o].client)
    requires GettingThere(s, o, session)
    requires Actor(e).Some? ==> Actor(e).value < |s.operations| && s.operations[Actor(e).value].client != s.operations[o].client
    ensures Refs(s) && o < |Next(s, e).operations| && GettingThere(Next(s, e), o, session)
  {
    hide Inv, Refs, Next, Enabled, Smooth, Spoils, LaterStarted, AttachedTo, ForSession, OperationsContinue, AttachmentsContinue, HandlesContinue;
    OthersLeave(s, e, o);
    match s.operations[o].step {
      case AwaitOpen(n, _, _) => SameOpens(s, e, n);
      case AwaitHosted(h, _) => StaysForSession(s.handles, Next(s, e).handles, h.value, session);
      case AwaitCurrent(h, _) => StaysForSession(s.handles, Next(s, e).handles, h, session);
      case AwaitLease(a) => OthersLeaveLease(s, e, o, a, session);
      case AwaitPublish => StaysAttached(s, e, s.operations[o].client, session);
      case Finished =>
        if LaterStarted(s.operations, o) {
          LaterStays(s.operations, Next(s, e).operations, o);
        } else {
          StaysAttached(s, e, s.operations[o].client, session);
        }
      case _ =>
    }
  }

  lemma SameOpens(s: Router, e: Event, n: OpenId)
    requires Inv(s) && Enabled(s, e) && n < |s.opens|
    ensures Refs(s) && n < |Next(s, e).opens| && Next(s, e).opens[n].session == s.opens[n].session
  {
    InvGivesRefs(s);
    if e.SessionResolves? || e.HandleOpens? || e.AcquiredClosed? {
      PhasesKeepSessions(s, e, n);
      hide Inv, Refs, Next;
    } else if e.Start? {
      if s.operations[e.op].kind.Attach? { StartKeepsSessions(s, e.op, n); } else { StartKeepsOpens(s, e.op); }
      hide Inv, Refs, Next;
    } else {
      UntouchedFields(s, e);
      if e.AcquireReturns? { ReturningKeepsOpens(s, e); }
      hide Inv, Refs, Next;
    }
  }

  lemma PhasesKeepSessions(s: Router, e: Event, n: OpenId)
    requires Refs(s) && Enabled(s, e) && n < |s.opens| && (e.SessionResolves? || e.HandleOpens? || e.AcquiredClosed?)
    ensures n < |Next(s, e).opens| && Next(s, e).opens[n].session == s.opens[n].session
  {
    if e.HandleOpens? {
      OpenKeepsSessions(s, e.open, e.ok, n);
      hide Refs, OpenHandle;
    } else {
      hide Refs;
    }
  }

  lemma OpenKeepsSessions(s: Router, m: OpenId, ok: bool, n: OpenId)
    requires m < |s.opens| && s.opens[m].phase.Opening? && n < |s.opens|
    ensures n < |OpenHandle(s, m, ok).opens| && OpenHandle(s, m, ok).opens[n].session == s.opens[n].session
  {
  }

  lemma StartKeepsSessions(s: Router, o: OperationId, n: OpenId)
    requires Refs(s) && Enabled(s, Start(o)) && s.operations[o].kind.Attach? && n < |s.opens|
    ensures n < |Next(s, Start(o)).opens| && Next(s, Start(o)).opens[n] == s.opens[n]
  {
    hide Refs, Barred;
  }

  lemma StartKeepsOpens(s: Router, o: OperationId)
    requires Refs(s) && Enabled(s, Start(o)) && !s.operations[o].kind.Attach?
    ensures Next(s, Start(o)).opens == s.opens
  {
    StartIsNext(s, o);
    if s.operations[o].kind.Call? { StartCallFrame(s, o); } else { StartLeavingFrame(s, o); }
    hide Refs, Next, StartOperation;
  }

  // ---- the client's own steps ------------------------------------------------------------------

  /** A later operation of the same client moves: the attach was over. */
  lemma LaterStepGettingThere(s: Router, e: Event, o: OperationId, p: OperationId, session: SessionId)
    requires Inv(s) && !s.shutdown.Complete? && Enabled(s, e) && o < |s.operations| && GettingThere(s, o, session)
    requires Actor(e) == Some(p) && p != o && p < |s.operations| && s.operations[p].client == s.operations[o].client
    ensures Refs(s) && o < |Next(s, e).operations| && GettingThere(Next(s, e), o, session)
  {
    InvGivesRefs(s);
    var t := Next(s, e);
    StepContinues(s, e);
    assert t.operations[o] == s.operations[o];
    ActorInTurn(s, e, p);
    OthersIdle(s, p, o);
    if s.operations[o].step.Finished? {
      OnlyLaterMoves(s, o, p);
      assert t.operations[p].client == t.operations[o].client && !t.operations[p].step.Queued?;
      assert LaterStarted(t.operations, o);
    }
    hide Inv, Refs, Next, Enabled, AttachmentsContinue, HandlesContinue, RemovalsContinue, OnlyCreates, AttachedTo;
  }

  lemma ActorInTurn(s: Router, e: Event, p: OperationId)
    requires Inv(s) && Enabled(s, e) && Actor(e) == Some(p)
    ensures p < |s.operations| && InTurn(s, p)
  {
    if e.Start? {
      StartableInTurn(s, p);
    } else {
      UnderWayInTurn(s, p);
    }
    hide Inv;
  }

  lemma OnlyLaterMoves(s: Router, o: OperationId, p: OperationId)
    requires Inv(s) && !s.shutdown.Complete? && o < |s.operations| && p < |s.operations| && p != o
    requires s.operations[p].client == s.operations[o].client && s.operations[o].step.Finished? && !s.operations[p].step.Finished?
    ensures o < p
  {
    ChainHolds(s);
    hide Inv;
    assert p < o ==> Chained(p, s.operations[p], s.operations[o]);
  }

  /** The client's current attachment is not being released while an operation of its is in turn that does
      not wait for it. */
  lemma CurrentIsUnreleased(s: Router, o: OperationId)
    requires Inv(s) && Smooth(s) && o < |s.operations| && InTurn(s, o) && s.operations[o].client in s.attachmentsByClient
    requires !s.operations[o].step.AwaitRelease? && !s.operations[o].step.AwaitCurrent?
    ensures s.attachmentsByClient[s.operations[o].client] < |s.attachments|
    ensures s.attachments[s.attachmentsByClient[s.operations[o].client]].release.phase == NotStarted
  {
    var c := s.operations[o].client;
    var a := s.attachmentsByClient[c];
    OwnerIs(s, c);
    AttachmentFacts(s, a);
    assert GoesWell(s.attachments[a]);
    if s.attachments[a].release.phase != NotStarted {
      var p := s.attachments[a].release.starter.value;
      assert p != o;
      OthersIdle(s, o, p);
    }
    hide Inv, Smooth, InTurn;
  }

  lemma FinishGets(s: Router, o: OperationId, session: SessionId)
    requires o < |s.operations| && AttachedTo(s, s.operations[o].client, session)
    ensures o < |Finish(s, o).operations| && GettingThere(Finish(s, o), o, session)
  {
    hide LaterStarted;
  }

  lemma AcquireGets(s: Router, o: OperationId, session: SessionId, current: Option<AttachmentId>)
    requires o < |s.operations| && Hosted(s.hostedSessions, s.handles) && OpeningEntries(s.openingSessions, s.opens)
    ensures o < |Acquire(s, o, session, current).operations| && GettingThere(Acquire(s, o, session, current), o, session)
  {
    hide LaterStarted, AttachedTo, Hosted, OpeningEntries;
    if session in s.hostedSessions {
      HostedIsFor(s.hostedSessions, s.handles, session);
    } else if session in s.openingSessions {
      OpeningIsFor(s.openingSessions, s.opens, session);
    }
  }

  lemma HostedIsFor(hosted: map<SessionId, HandleId>, handles: seq<Handle>, session: SessionId)
    requires Hosted(hosted, handles) && session in hosted
    ensures ForSession(handles, hosted[session], session)
  {
  }

  lemma OpeningIsFor(opening: map<SessionId, OpenId>, opens: seq<Open>, session: SessionId)
    requires OpeningEntries(opening, opens) && session in opening
    ensures opening[session] < |opens| && opens[opening[session]].session == session
  {
  }

  lemma StartGettingThere(s: Router, o: OperationId, session: SessionId)
    requires Inv(s) && Smooth(s) && Enabled(s, Start(o)) && s.operations[o].kind == Attach(session)
    requires s.operations[o].client !in s.disconnectedClients
    ensures Refs(s) && o < |Next(s, Start(o)).operations| && GettingThere(Next(s, Start(o)), o, session)
  {
    InvGivesRefs(s);
    StartableInTurn(s, o);
    HostedHolds(s);
    OpeningHolds(s);
    var c := s.operations[o].client;
    if c in s.attachmentsByClient {
      CurrentIsUnreleased(s, o);
      HandleInRange(s, s.attachmentsByClient[c]);
    }
    if AttachedTo(s, c, session) { FinishGets(s, o, session); }
    AcquireGets(s, o, session, Lookup(s.attachmentsByClient, c));
    StartIsNext(s, o);
    assert !s.closing;
    hide Inv, Refs, Smooth, InTurn, Next, Finish, Acquire, GettingThere, Hosted, OpeningEntries, Enabled, StartOperation;
    AttachGets(s, o, session);
  }

  /** An attach whose turn has come is over if its client is attached to the session, or asks for a lease. */
  lemma AttachGets(s: Router, o: OperationId, session: SessionId)
    requires Refs(s) && o < |s.operations| && s.operations[o].kind == Attach(session)
    requires !Barred(s, s.operations[o].client)
    requires var c := s.operations[o].client;
             c in s.attachmentsByClient ==>
               && s.attachmentsByClient[c] < |s.attachments| && s.attachments[s.attachmentsByClient[c]].handle < |s.handles|
               && s.attachments[s.attachmentsByClient[c]].release.phase == NotStarted
    requires AttachedTo(s, s.operations[o].client, session) ==>
               o < |Finish(s, o).operations| && GettingThere(Finish(s, o), o, session)
    requires var t := Acquire(s, o, session, Lookup(s.attachmentsByClient, s.operations[o].client));
             o < |t.operations| && GettingThere(t, o, session)
    ensures o < |StartOperation(s, o).operations| && GettingThere(StartOperation(s, o), o, session)
  {
    hide Refs, Finish, Acquire, GettingThere, Barred;
  }

  lemma OpeningHolds(s: Router)
    requires Inv(s)
    ensures OpeningEntries(s.openingSessions, s.opens)
  {
    hide Members, Hosted, AllOwned, Openers, Clients, Chain, Previous, TailEntries, Tails, AllConsistent, NoOrphans,
         AllQueueDrained, Delivered, Refs;
  }

  lemma ReturnGettingThere(s: Router, o: OperationId, session: SessionId)
    requires Inv(s) && Smooth(s) && Enabled(s, AcquireReturns(o)) && GettingThere(s, o, session)
    ensures Refs(s) && o < |Next(s, AcquireReturns(o)).operations| && GettingThere(Next(s, AcquireReturns(o)), o, session)
  {
    InvGivesRefs(s);
    hide Inv, Refs, AllLive, LeasesGoWell, LaterStarted;
  }

  lemma CreatedGettingThere(s: Router, o: OperationId, h: HandleId, session: SessionId)
    requires o < |s.operations| && h < |s.handles| && ForSession(s.handles, h, session)
    ensures GettingThere(CreateAttachment(s, o, h), o, session)
  {
    hide LaterStarted, AttachedTo;
  }

  lemma ResumeGettingThere(s: Router, o: OperationId, session: SessionId)
    requires Inv(s) && Smooth(s) && Enabled(s, AttachResumes(o)) && GettingThere(s, o, session)
    requires s.operations[o].client !in s.disconnectedClients
    ensures Refs(s) && o < |Next(s, AttachResumes(o)).operations| && GettingThere(Next(s, AttachResumes(o)), o, session)
  {
    InvGivesRefs(s);
    OperationFacts(s, o);
    CreatedGettingThere(s, o, s.operations[o].step.hosted.value, session);
    assert !s.closing;
    hide Inv, Refs, Smooth, LaterStarted, AttachedTo, CreateAttachment, Begun, Next;
    ResumeIs(s, o);
    hide ResumeAttach;
    ResumeGets(s, o, session);
  }

  lemma ResumeIs(s: Router, o: OperationId)
    requires Refs(s) && Enabled(s, AttachResumes(o))
    ensures o < |s.operations| && s.operations[o].step.AwaitHosted? && Next(s, AttachResumes(o)) == ResumeAttach(s, o)
  {
    hide Refs, ResumeAttach;
  }

  lemma ResumeGets(s: Router, o: OperationId, session: SessionId)
    requires Refs(s) && o < |s.operations| && s.operations[o].step.AwaitHosted? && GettingThere(s, o, session)
    requires !Barred(s, s.operations[o].client) && s.operations[o].step.hosted.Some?
    requires var t := CreateAttachment(s, o, s.operations[o].step.hosted.value); o < |t.operations| && GettingThere(t, o, session)
    ensures o < |ResumeAttach(s, o).operations| && GettingThere(ResumeAttach(s, o), o, session)
  {
    hide Refs, LaterStarted, AttachedTo, CreateAttachment, Begun, Barred;
  }

  lemma SwitchGettingThere(s: Router, o: OperationId, session: SessionId)
    requires Inv(s) && Smooth(s) && Enabled(s, CurrentReleased(o)) && GettingThere(s, o, session)
    ensures Refs(s) && o < |Next(s, CurrentReleased(o)).operations| && GettingThere(Next(s, CurrentReleased(o)), o, session)
  {
    InvGivesRefs(s);
    assert GoesWell(s.attachments[s.operations[o].step.released]);
    CreatedGettingThere(s, o, s.operations[o].step.handle, session);
    hide Inv, Refs, Smooth, LaterStarted, AttachedTo, CreateAttachment;
  }

  lemma LeaseGettingThere(s: Router, o: OperationId, session: SessionId)
    requires Inv(s) && HandleInv(s) && Smooth(s) && Enabled(s, LeaseArrives(o)) && GettingThere(s, o, session)
    requires s.operations[o].client !in s.disconnectedClients
    ensures Refs(s) && o < |Next(s, LeaseArrives(o)).operations| && GettingThere(Next(s, LeaseArrives(o)), o, session)
  {
    hide ArriveLease;
    InvGivesRefs(s);
    var a := s.operations[o].step.attachment;
    var h := s.attachments[a].handle;
    AttachmentFacts(s, a);
    assert GoesWell(s.attachments[a]) && s.handles[h].Live();
    assert Lookup(s.hostedSessions, s.handles[h].id) == Some(h);
    hide Inv, HandleInv, Refs, AllLive, OpensGoWell, LeasesGoWell, LaterStarted, Next;
    LeaseIsNext(s, o);
    LeaseGets(s, o, session);
  }

  lemma LeaseIsNext(s: Router, o: OperationId)
    requires Refs(s) && Enabled(s, LeaseArrives(o))
    ensures o < |s.operations| && s.operations[o].step.AwaitLease? && Next(s, LeaseArrives(o)) == ArriveLease(s, o)
  {
    hide Refs, ArriveLease;
  }

  /** A lease that is granted and wanted becomes the client's. */
  lemma LeaseGets(s: Router, o: OperationId, session: SessionId)
    requires Refs(s) && o < |s.operations| && s.operations[o].step.AwaitLease? && GettingThere(s, o, session)
    requires var a := s.operations[o].step.attachment;
             && a < |s.attachments| && s.attachments[a].acquiring.Leased? && s.attachments[a].handle < |s.handles|
             && Lookup(s.hostedSessions, s.handles[s.attachments[a].handle].id) == Some(s.attachments[a].handle)
             && a in s.handles[s.attachments[a].handle].attachments && !Barred(s, s.attachments[a].client)
    ensures o < |ArriveLease(s, o).operations| && GettingThere(ArriveLease(s, o), o, session)
  {
    hide Refs, LaterStarted, Barred;
  }

  lemma FinishIsNext(s: Router, e: Event, o: OperationId)
    requires Refs(s) && Enabled(s, e) && (e == AttachPublished(o) || e == ReleaseAwaited(o))
    ensures o < |s.operations| && Next(s, e) == Finish(s, o)
    ensures e == AttachPublished(o) ==> s.operations[o].step.AwaitPublish?
    ensures e == ReleaseAwaited(o) ==> s.operations[o].step.AwaitRelease?
  {
    hide Refs, Finish;
  }

  lemma FinishGettingThere(s: Router, e: Event, o: OperationId, session: SessionId)
    requires Inv(s) && Enabled(s, e) && (e == AttachPublished(o) || e == ReleaseAwaited(o))
    requires o < |s.operations| && GettingThere(s, o, session)
    ensures Refs(s) && o < |Next(s, e).operations| && GettingThere(Next(s, e), o, session)
  {
    InvGivesRefs(s);
    FinishIsNext(s, e, o);
    assert AttachedTo(s, s.operations[o].client, session);
    FinishGets(s, o, session);
    hide Inv, Refs, Next, Finish, GettingThere;
  }

  lemma OwnStepGettingThere(s: Router, e: Event, o: OperationId, session: SessionId)
    requires Inv(s) && HandleInv(s) && Smooth(s) && Enabled(s, e) && Actor(e) == Some(o)
    requires o < |s.operations| && s.operations[o].kind == Attach(session) && s.operations[o].client !in s.disconnectedClients
    requires GettingThere(s, o, session)
    ensures Refs(s) && o < |Next(s, e).operations| && GettingThere(Next(s, e), o, session)
  {
    hide Inv, HandleInv, Refs, Smooth, Enabled, Next, GettingThere;
    InvGivesRefs(s);
    match e {
      case Start(_) => StartGettingThere(s, o, session);
      case AcquireReturns(_) => ReturnGettingThere(s, o, session);
      case AttachResumes(_) => ResumeGettingThere(s, o, session);
      case CurrentReleased(_) => SwitchGettingThere(s, o, session);
      case LeaseArrives(_) => LeaseGettingThere(s, o, session);
      case AttachPublished(_) => FinishGettingThere(s, e, o, session);
      case ReleaseAwaited(_) => FinishGettingThere(s, e, o, session);
    }
  }

  // ---- over every such run ---------------------------------------------------------------------

  /** Every attach of the client is over or on its way, and the client is not barred. */
  predicate AllGettingThere(s: Router, c: ClientId) {
    && c !in s.disconnectedClients
    && forall o {:trigger s.operations[o]} :: 0 <= o < |s.operations| && s.operations[o].client == c && s.operations[o].kind.Attach? ==>
         GettingThere(s, o, s.operations[o].kind.session)
  }

  lemma StaysAdmitted(s: Router, e: Event, c: ClientId)
    requires Inv(s) && Enabled(s, e) && !Spoils(e, c) && c !in s.disconnectedClients
    ensures Refs(s) && c !in Next(s, e).disconnectedClients
  {
    InvGivesRefs(s);
    if e.Enqueue? {
      EnqueueIs(s, e);
    } else if Actor(e).Some? {
      ActorMoves(s, e, Actor(e).value);
    } else {
      NobodyMoves(s, e);
    }
    hide Inv, Refs, Next, Enabled;
  }

  lemma NewIsQueued(s: Router, e: Event, o: OperationId)
    requires Inv(s) && Enabled(s, e)
    ensures Refs(s) && (|s.operations| <= o < |Next(s, e).operations| ==> Next(s, e).operations[o].step.Queued?)
  {
    InvGivesRefs(s);
    StepContinues(s, e);
    hide Inv, Refs, Next, Enabled, Continues, OnlyCreates;
  }

  lemma OneStepGettingThere(s: Router, e: Event, o: OperationId)
    requires Inv(s) && HandleInv(s) && Smooth(s) && Enabled(s, e) && o < |s.operations| && s.operations[o].kind.Attach?
    requires !Spoils(e, s.operations[o].client) && s.operations[o].client !in s.disconnectedClients
    requires GettingThere(s, o, s.operations[o].kind.session)
    ensures Refs(s) && o < |Next(s, e).operations| && Next(s, e).operations[o].kind == s.operations[o].kind
    ensures GettingThere(Next(s, e), o, s.operations[o].kind.session)
  {
    InvGivesRefs(s);
    StepContinues(s, e);
    var session := s.operations[o].kind.session;
    assert !s.shutdown.Complete? by { assert Smooth(s); }
    if Actor(e).Some? { ActorIsThere(s, e); }
    hide Inv, HandleInv, Refs, Smooth, Enabled, Next, GettingThere, Spoils, AttachmentsContinue, HandlesContinue, RemovalsContinue, Local;
    if Actor(e) == Some(o) {
      OwnStepGettingThere(s, e, o, session);
    } else if Actor(e).Some? && s.operations[Actor(e).value].client == s.operations[o].client {
      LaterStepGettingThere(s, e, o, Actor(e).value, session);
    } else {
      OthersStepGettingThere(s, e, o, session);
    }
  }

  lemma StepAllGettingThere(s: Router, e: Event, c: ClientId)
    requires Inv(s) && HandleInv(s) && Smooth(s) && Enabled(s, e) && !Spoils(e, c) && AllGettingThere(s, c)
    ensures Refs(s) && AllGettingThere(Next(s, e), c)
  {
    InvGivesRefs(s);
    var t := Next(s, e);
    StepContinues(s, e);
    StaysAdmitted(s, e, c);
    hide Inv, HandleInv, Refs, Smooth, Enabled, Next, GettingThere, Spoils, AttachmentsContinue, HandlesContinue, RemovalsContinue, Local;
    forall o | 0 <= o < |t.operations| && t.operations[o].client == c && t.operations[o].kind.Attach?
      ensures GettingThere(t, o, t.operations[o].kind.session)
    {
      if o < |s.operations| {
        assert t.operations[o] == s.operations[o].(step := t.operations[o].step);
        OneStepGettingThere(s, e, o);
      } else {
        NewIsQueued(s, e, o);
        QueuedGetsThere(t, o, t.operations[o].kind.session);
      }
    }
  }

  lemma QueuedGetsThere(s: Router, o: OperationId, session: SessionId)
    requires o < |s.operations| && s.operations[o].step.Queued?
    ensures GettingThere(s, o, session)
  {
  }

  lemma {:induction false} RunGettingThere(s: Router, events: seq<Event>, t: Router, c: ClientId)
    requires Inv(s) && HandleInv(s) && RemovalsClosed(s.removals, s.handles) && Smooth(s) && AllGettingThere(s, c)
    requires Execute(s, events) == Some(t) && FaithfulRun(s, events)
    requires forall i :: 0 <= i < |events| ==> !Spoils(events[i], c)
    ensures AllGettingThere(t, c) && Smooth(t)
    decreases |events|
  {
    if events != [] {
      InvGivesRefs(s);
      hide Inv, HandleInv, RemovalsClosed, Refs, Smooth, AllGettingThere, Next, Enabled, Faithful, Spoils;
      assert !Spoils(events[0], c);
      Preserved(s, events[0]);
      HandlePreserved(s, events[0]);
      StepStaysSmooth(s, events[0], c);
      StepAllGettingThere(s, events[0], c);
      RunGettingThere(Next(s, events[0]), events[1..], t, c);
    }
  }

  /** In a run in which sessions resolve to themselves and nothing gets in the way, a client whose last
      operation to have started is an attach that is over is attached to the session it named; and has been
      told so. */
  lemma UnspoiledAttachAttaches(events: seq<Event>, s: Router, o: OperationId)
    requires Reaches(events, s) && FaithfulRun(Initial(), events)
    requires o < |s.operations| && s.operations[o].kind.Attach? && s.operations[o].step.Finished?
    requires forall i :: 0 <= i < |events| ==> !Spoils(events[i], s.operations[o].client)
    requires !LaterStarted(s.operations, o)
    ensures AttachedTo(s, s.operations[o].client, s.operations[o].kind.session)
    ensures Told(s.notices, s.operations[o].client) == Some(s.attachmentsByClient[s.operations[o].client])
  {
    var c := s.operations[o].client;
    InitialInv();
    RunGettingThere(Initial(), events, s, c);
    assert GettingThere(s, o, s.operations[o].kind.session);
    ClientsAreTold(events, s, c);
  }

  /** Attaching to the session the client is attached to already is over at once and changes nothing. */
  lemma ReattachingChangesNothing(events: seq<Event>, s: Router, o: OperationId)
    requires Reaches(events, s) && Refs(s) && Enabled(s, Start(o)) && s.operations[o].kind.Attach?
    requires AttachedTo(s, s.operations[o].client, s.operations[o].kind.session)
    ensures var t := Next(s, Start(o));
            && t == s.(operations := t.operations, clientOperations := t.clientOperations)
            && o < |t.operations| && t.operations == s.operations[o := s.operations[o].(step := Finished)]
  {
  }
}
