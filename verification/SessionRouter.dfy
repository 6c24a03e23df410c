/** The session router itself: the fields the program keeps, updated in place, one method for each
    stretch of code between two awaits. Every method takes exactly the step of the state machine. */
module SessionRouting {
  import opened Wrappers
  import opened SessionRouterSpec
  import opened SessionRouterProof
  import opened SessionRouterTheorems

  class SessionRouter {
    var hostedSessions: map<SessionId, HandleId>
    var openingSessions: map<SessionId, OpenId>
    var attachmentsByClient: map<ClientId, AttachmentId>
    var disconnectedClients: set<ClientId>
    var clientOperations: map<ClientId, OperationId>
    var closing: bool
    var shutdown: Shutdown

    // The objects these refer to, by identity.
    var handles: seq<Handle>
    var attachments: seq<Attachment>
    var operations: seq<Operation>
    var opens: seq<Open>
    var removals: seq<Removal>

    // Calls handed to a lease so far.
    ghost var deliveries: seq<Delivery>
    ghost var notices: seq<Notice>

    ghost function Model(): Router
      reads this
    {
      Router(hostedSessions, openingSessions, attachmentsByClient, disconnectedClients, clientOperations, closing,
             shutdown, handles, attachments, operations, opens, removals, deliveries, notices)
    }

    ghost predicate Valid()
      reads this
    {
      Inv(Model())
    }

    constructor ()
      ensures Valid() && Model() == Initial()
    {
      hostedSessions, openingSessions, attachmentsByClient := map[], map[], map[];
      disconnectedClients, clientOperations := {}, map[];
      closing, shutdown := false, NotRequested;
      handles, attachments, operations, opens, removals, deliveries, notices := [], [], [], [], [], [], [];
      new;
      InitialInv();
    }

    // ---- bookkeeping shared by the steps -------------------------------------------------------

    method MoveTo(o: OperationId, step: Step)
      requires o < |operations|
      modifies this`operations
      ensures Model() == At(old(Model()), o, step)
    {
      operations := operations[o := operations[o].(step := step)];
    }

    /** The operation's promise settles; `runForClient` and `disconnect` tidy up after it. */
    method Settle(o: OperationId)
      requires o < |operations|
      modifies this`operations, this`clientOperations, this`disconnectedClients
      ensures Model() == Finish(old(Model()), o)
    {
      var op := operations[o];
      MoveTo(o, Finished);
      if op.client in clientOperations && clientOperations[op.client] == o {
        clientOperations := clientOperations - {op.client};
      }
      if op.kind.Disconnect? {
        disconnectedClients := disconnectedClients - {op.client};
      }
    }

    /** `attachment.releasing ??= …`: the first caller decides, later ones share its promise. */
    method ReleaseAttachment(a: AttachmentId, publish: bool, starter: Option<OperationId>)
      requires a < |attachments|
      modifies this`attachments
      ensures Model() == SessionRouterSpec.StartRelease(old(Model()), a, publish, starter)
    {
      var att := attachments[a];
      if att.release.phase == NotStarted {
        attachments := attachments[a := att.(release := Release(Draining, att.calls, publish, starter, true))];
      } else {
        assert attachments[a := att] == attachments;
      }
    }

    method ReleaseAll(targets: set<AttachmentId>)
      requires forall a :: a in targets ==> a < |attachments|
      modifies this`attachments
      ensures Model() == StartReleases(old(Model()), targets)
    {
      var todo := targets;
      while todo != {}
        invariant todo <= targets && |attachments| == |old(attachments)|
        invariant forall a :: 0 <= a < |attachments| ==>
          attachments[a] == if a in targets - todo then Begun(old(attachments[a]), true, None) else old(attachments[a])
        decreases |todo|
      {
        var a :| a in todo;
        ReleaseAttachment(a, true, None);
        todo := todo - {a};
      }
      assert attachments == StartReleases(old(Model()), targets).attachments;
    }

    method DropFromSession(a: AttachmentId)
      requires a < |attachments| && attachments[a].handle < |handles|
      modifies this`handles
      ensures Model() == DropFromHandle(old(Model()), a)
    {
      var h := attachments[a].handle;
      handles := handles[h := handles[h].(attachments := handles[h].attachments - {a})];
    }

    /** `clearAttachment`, up to its await. */
    method ClearAttachment(a: AttachmentId, ok: bool)
      requires a < |attachments| && attachments[a].handle < |handles|
      modifies this`handles, this`attachments, this`attachmentsByClient, this`notices
      ensures Model() == Clear(old(Model()), a, ok)
    {
      var att := attachments[a];
      DropFromSession(a);
      var phase := Settled;
      if att.client in attachmentsByClient && attachmentsByClient[att.client] == a {
        attachmentsByClient := attachmentsByClient - {att.client};
        if att.release.publish {
          phase := Publishing;
          notices := notices + [Notice(att.client, None)];
        }
      }
      attachments := attachments[a := att.(release := att.release.(phase := phase, ok := ok))];
    }

    method CallLeaseRelease(a: AttachmentId)
      requires a < |attachments|
      modifies this`attachments
      ensures Model() == CallRelease(old(Model()), a)
    {
      var att := attachments[a];
      attachments := attachments[a :=
        att.(release := att.release.(phase := Releasing), releaseCalls := att.releaseCalls + 1)];
    }

    method AddAttachment(o: OperationId, h: HandleId)
      requires o < |operations| && h < |handles|
      modifies this`operations, this`attachments, this`handles
      ensures Model() == CreateAttachment(old(Model()), o, h)
    {
      var a := |attachments|;
      var attachment := Attachment(operations[o].client, h, o, {}, InFlight, false,
                                   Release(NotStarted, {}, false, None, true), 0);
      handles := handles[h := handles[h].(attachments := handles[h].attachments + {a})];
      attachments := attachments + [attachment];
      MoveTo(o, AwaitLease(a));
    }

    // ---- the client's queue --------------------------------------------------------------------

    /** `runForClient`, with the checks `attachClient` and `disconnect` make before they queue. */
    method RunForClient(client: ClientId, kind: Kind) returns (queued: Option<OperationId>)
      requires Valid()
      modifies this
      ensures Valid() && Model() == Next(old(Model()), Enqueue(client, kind))
      ensures queued.None? <==> kind.Attach? && old(closing)
      ensures queued.Some? ==> queued.value == |old(operations)| && operations[queued.value].step == Queued
    {
      hide Inv;
      Preserved(Model(), Enqueue(client, kind));
      InvGivesRefs(Model());
      if kind.Attach? && closing {
        return None;
      }
      if kind.Disconnect? {
        disconnectedClients := disconnectedClients + {client};
      }
      var previous := Lookup(clientOperations, client);
      var o := |operations|;
      operations := operations + [Operation(client, kind, previous, Queued)];
      clientOperations := clientOperations[client := o];
      return Some(o);
    }

    /** The operation's turn has come. */
    method Start(o: OperationId)
      requires Valid() && Enabled(Model(), Event.Start(o))
      modifies this
      ensures Valid() && Model() == Next(old(Model()), Event.Start(o))
    {
      hide Inv;
      Preserved(Model(), Event.Start(o));
      InvGivesRefs(Model());
      match operations[o].kind {
        case Attach(session) => AttachClientNow(o, session);
        case Detach => LeaveCurrent(o, true);
        case Disconnect => LeaveCurrent(o, false);
        case Call(session, target) => StartServiceCall(o, session, target);
      }
    }

    method AttachClientNow(o: OperationId, session: SessionId)
      requires Refs(Model()) && o < |operations| && operations[o].kind == Attach(session)
      modifies this
      ensures Model() == StartOperation(old(Model()), o)
    {
      hide AttachmentRefs, OperationRefs, OpenRefs, RemovalRefs, ValuesBelow;
      var client := operations[o].client;
      if closing || client in disconnectedClients {
        Settle(o);
        return;
      }
      var current := Lookup(attachmentsByClient, client);
      if current.Some? {
        CurrentInRange(Model(), client);
        if handles[attachments[current.value].handle].id == session {
          Settle(o);
          return;
        }
      }
      AcquireSession(o, session, current);
    }

    method AcquireSession(o: OperationId, session: SessionId, current: Option<AttachmentId>)
      requires o < |operations|
      modifies this`operations, this`opens, this`openingSessions
      ensures Model() == Acquire(old(Model()), o, session, current)
    {
      if session in hostedSessions {
        MoveTo(o, AwaitHosted(Some(hostedSessions[session]), current));
      } else if session in openingSessions {
        MoveTo(o, AwaitOpen(openingSessions[session], false, current));
      } else {
        var n := |opens|;
        opens := opens + [Open(session, Resolving)];
        openingSessions := openingSessions[session := n];
        MoveTo(o, AwaitOpen(n, true, current));
      }
    }

    /** The body of `detachClient` (which publishes the change) and of `disconnect` (which does not). */
    method LeaveCurrent(o: OperationId, publish: bool)
      requires Refs(Model()) && o < |operations|
      requires operations[o].kind == if publish then Detach else Disconnect
      modifies this
      ensures Model() == StartOperation(old(Model()), o)
    {
      hide AttachmentRefs, OperationRefs, OpenRefs, RemovalRefs, ValuesBelow;
      var client := operations[o].client;
      if client in attachmentsByClient {
        CurrentInRange(Model(), client);
        var a := attachmentsByClient[client];
        ReleaseAttachment(a, publish, Some(o));
        MoveTo(o, AwaitRelease(a));
      } else {
        Settle(o);
      }
    }

    method StartServiceCall(o: OperationId, session: SessionId, target: AttachmentId)
      requires Refs(Model()) && o < |operations| && operations[o].kind == Call(session, target)
      modifies this
      ensures Model() == StartOperation(old(Model()), o)
    {
      hide AttachmentRefs, OperationRefs, OpenRefs, RemovalRefs, ValuesBelow;
      var client := operations[o].client;
      if closing || client in disconnectedClients || client !in attachmentsByClient {
        Settle(o);
        return;
      }
      CurrentInRange(Model(), client);
      var a := attachmentsByClient[client];
      var att := attachments[a];
      if handles[att.handle].id != session || a != target {
        Settle(o);
        return;
      }
      deliveries := deliveries + [Delivery(o, target, a)];
      attachments := attachments[a := att.(calls := att.calls + {o})];
      Settle(o);
    }

    // ---- attaching, after each await -----------------------------------------------------------

    /** `acquire` returns from its own or from a shared open. */
    method AcquireReturned(o: OperationId)
      requires Valid() && Enabled(Model(), AcquireReturns(o))
      modifies this
      ensures Valid() && Model() == Next(old(Model()), AcquireReturns(o))
    {
      hide Inv;
      Preserved(Model(), AcquireReturns(o));
      InvGivesRefs(Model());
      var step := operations[o].step;
      var open := opens[step.open];
      if step.owner && open.session in openingSessions && openingSessions[open.session] == step.open {
        openingSessions := openingSessions - {open.session};
      }
      var hosted := None;
      if open.phase.Opened? {
        hosted := Some(open.phase.handle);
      }
      MoveTo(o, AwaitHosted(hosted, step.current));
    }

    method ResumeAttachClient(o: OperationId)
      requires Valid() && Enabled(Model(), AttachResumes(o))
      modifies this
      ensures Valid() && Model() == Next(old(Model()), AttachResumes(o))
    {
      hide Inv, OperationRefs, AttachmentRefs, OpenRefs, RemovalRefs, ValuesBelow;
      Preserved(Model(), AttachResumes(o));
      InvGivesRefs(Model());
      StepInRange(Model(), o);
      var client, step := operations[o].client, operations[o].step;
      if step.hosted.None? || closing || client in disconnectedClients {
        Settle(o);
      } else if step.current.Some? {
        ReleaseAttachment(step.current.value, false, Some(o));
        MoveTo(o, AwaitCurrent(step.hosted.value, step.current.value));
      } else {
        AddAttachment(o, step.hosted.value);
      }
    }

    method CurrentAttachmentReleased(o: OperationId)
      requires Valid() && Enabled(Model(), CurrentReleased(o))
      modifies this
      ensures Valid() && Model() == Next(old(Model()), CurrentReleased(o))
    {
      hide Inv, OperationRefs, AttachmentRefs, OpenRefs, RemovalRefs, ValuesBelow;
      Preserved(Model(), CurrentReleased(o));
      InvGivesRefs(Model());
      StepInRange(Model(), o);
      var step := operations[o].step;
      if attachments[step.released].release.ok {
        AddAttachment(o, step.handle);
      } else {
        Settle(o);
      }
    }

    method LeaseArrived(o: OperationId)
      requires Valid() && Enabled(Model(), LeaseArrives(o))
      modifies this
      ensures Valid() && Model() == Next(old(Model()), LeaseArrives(o))
    {
      hide Inv, OperationRefs, AttachmentRefs, OpenRefs, RemovalRefs, ValuesBelow;
      Preserved(Model(), LeaseArrives(o));
      InvGivesRefs(Model());
      var a := operations[o].step.attachment;
      HandleInRange(Model(), a);
      var att := attachments[a];
      if !att.acquiring.Leased? {
        DropFromSession(a);
        Settle(o);
        return;
      }
      InstallLease(o, a);
    }

    /** `attachClientNow` once it has the lease: keep it, or give it back if nobody wants it any more. */
    method InstallLease(o: OperationId, a: AttachmentId)
      requires Refs(Model()) && o < |operations| && operations[o].step == AwaitLease(a)
      requires a < |attachments| && attachments[a].acquiring.Leased? && attachments[a].handle < |handles|
      modifies this
      ensures Model() == ArriveLease(old(Model()), o)
    {
      hide OperationRefs, AttachmentRefs, OpenRefs, RemovalRefs, ValuesBelow;
      var att := attachments[a];
      attachments := attachments[a := att.(lease := true)];
      var hosted := handles[att.handle];
      if Lookup(hostedSessions, hosted.id) != Some(att.handle) || a !in hosted.attachments
         || att.client in disconnectedClients || closing
      {
        ReleaseAttachment(a, true, Some(o));
        MoveTo(o, AwaitRelease(a));
      } else {
        attachmentsByClient := attachmentsByClient[att.client := a];
        notices := notices + [Notice(att.client, Some(a))];
        MoveTo(o, AwaitPublish);
      }
    }

    /** The last await of an operation has returned. */
    method OperationReturns(o: OperationId, e: Event)
      requires e == AttachPublished(o) || e == ReleaseAwaited(o)
      requires Valid() && Enabled(Model(), e)
      modifies this
      ensures Valid() && Model() == Next(old(Model()), e)
    {
      hide Inv;
      Preserved(Model(), e);
      InvGivesRefs(Model());
      Settle(o);
    }

    // ---- one attachment ------------------------------------------------------------------------

    method LeaseSettled(a: AttachmentId, ok: bool)
      requires Valid() && Enabled(Model(), LeaseSettles(a, ok))
      modifies this
      ensures Valid() && Model() == Next(old(Model()), LeaseSettles(a, ok))
    {
      hide Inv;
      Preserved(Model(), LeaseSettles(a, ok));
      InvGivesRefs(Model());
      attachments := attachments[a := attachments[a].(acquiring := if ok then Leased else Refused)];
    }

    method CallSettled(a: AttachmentId, call: OperationId)
      requires Valid() && Enabled(Model(), CallSettles(a, call))
      modifies this
      ensures Valid() && Model() == Next(old(Model()), CallSettles(a, call))
    {
      hide Inv;
      Preserved(Model(), CallSettles(a, call));
      InvGivesRefs(Model());
      attachments := attachments[a := attachments[a].(calls := attachments[a].calls - {call})];
    }

    /** Every call the release waited for has settled. */
    method CallsDrained(a: AttachmentId)
      requires Valid() && Enabled(Model(), Drained(a))
      modifies this
      ensures Valid() && Model() == Next(old(Model()), Drained(a))
    {
      hide Inv;
      Preserved(Model(), Drained(a));
      InvGivesRefs(Model());
      if attachments[a].lease {
        CallLeaseRelease(a);
      } else {
        attachments := attachments[a :=
          attachments[a].(release := attachments[a].release.(phase := AwaitingLease, ok := true))];
      }
    }

    /** `await attachment.acquiring` inside a release. */
    method LeaseAwaited(a: AttachmentId)
      requires Valid() && Enabled(Model(), LeaseForRelease(a))
      modifies this
      ensures Valid() && Model() == Next(old(Model()), LeaseForRelease(a))
    {
      hide Inv, OperationRefs, AttachmentRefs, OpenRefs, RemovalRefs, ValuesBelow;
      Preserved(Model(), LeaseForRelease(a));
      InvGivesRefs(Model());
      HandleInRange(Model(), a);
      if attachments[a].acquiring.Leased? {
        CallLeaseRelease(a);
      } else {
        ClearAttachment(a, false);
      }
    }

    method ReleaseSettled(a: AttachmentId, ok: bool)
      requires Valid() && Enabled(Model(), ReleaseSettles(a, ok))
      modifies this
      ensures Valid() && Model() == Next(old(Model()), ReleaseSettles(a, ok))
    {
      hide Inv, OperationRefs, AttachmentRefs, OpenRefs, RemovalRefs, ValuesBelow;
      Preserved(Model(), ReleaseSettles(a, ok));
      InvGivesRefs(Model());
      HandleInRange(Model(), a);
      ClearAttachment(a, ok);
    }

    /** The release rejects if the publication does. */
    method ClearedPublished(a: AttachmentId, ok: bool)
      requires Valid() && Enabled(Model(), ClearPublished(a, ok))
      modifies this
      ensures Valid() && Model() == Next(old(Model()), ClearPublished(a, ok))
    {
      hide Inv;
      Preserved(Model(), ClearPublished(a, ok));
      InvGivesRefs(Model());
      var release := attachments[a].release;
      attachments := attachments[a := attachments[a].(release := release.(phase := Settled, ok := release.ok && ok))];
    }

    // ---- opening, termination and removal of sessions ------------------------------------------

    method SessionResolved(n: OpenId, metadata: Option<SessionId>)
      requires Valid() && Enabled(Model(), SessionResolves(n, metadata))
      modifies this
      ensures Valid() && Model() == Next(old(Model()), SessionResolves(n, metadata))
    {
      hide Inv;
      Preserved(Model(), SessionResolves(n, metadata));
      InvGivesRefs(Model());
      opens := opens[n := opens[n].(phase := if metadata.None? then OpenFailed else Opening(metadata.value))];
    }

    method HandleOpened(n: OpenId, ok: bool)
      requires Valid() && Enabled(Model(), HandleOpens(n, ok))
      modifies this
      ensures Valid() && Model() == Next(old(Model()), HandleOpens(n, ok))
    {
      hide Inv;
      Preserved(Model(), HandleOpens(n, ok));
      InvGivesRefs(Model());
      var id, h := opens[n].phase.metadata, |handles|;
      if !ok {
        opens := opens[n := opens[n].(phase := OpenFailed)];
        return;
      }
      handles := handles + [Handle(id, {}, closing, false)];
      if closing {
        opens := opens[n := opens[n].(phase := ClosingAcquired(h))];
      } else {
        hostedSessions := hostedSessions[id := h];
        opens := opens[n := opens[n].(phase := Opened(h))];
      }
    }

    method AcquiredHandleClosed(n: OpenId)
      requires Valid() && Enabled(Model(), AcquiredClosed(n))
      modifies this
      ensures Valid() && Model() == Next(old(Model()), AcquiredClosed(n))
    {
      hide Inv;
      Preserved(Model(), AcquiredClosed(n));
      InvGivesRefs(Model());
      opens := opens[n := opens[n].(phase := OpenFailed)];
    }

    method HandleTerminated(h: HandleId)
      requires Valid() && Enabled(Model(), Terminates(h))
      modifies this
      ensures Valid() && Model() == Next(old(Model()), Terminates(h))
    {
      hide Inv;
      Preserved(Model(), Terminates(h));
      InvGivesRefs(Model());
      handles := handles[h := handles[h].(terminated := true)];
    }

    method InvalidateSession(h: HandleId)
      requires Valid() && Enabled(Model(), Invalidate(h))
      modifies this
      ensures Valid() && Model() == Next(old(Model()), Invalidate(h))
    {
      hide Inv;
      Preserved(Model(), Invalidate(h));
      InvGivesRefs(Model());
      MembersInRange(Model(), h);
      var id := handles[h].id;
      if id in hostedSessions && hostedSessions[id] == h {
        hostedSessions := hostedSessions - {id};
        ReleaseAll(handles[h].attachments);
      }
    }

    method RemoveSession(session: SessionId)
      requires Valid()
      modifies this
      ensures Valid() && Model() == Next(old(Model()), Remove(session))
    {
      hide Inv, OperationRefs, AttachmentRefs, OpenRefs, RemovalRefs;
      Preserved(Model(), Remove(session));
      InvGivesRefs(Model());
      if closing || session !in hostedSessions {
        return;
      }
      var h := hostedSessions[session];
      MembersInRange(Model(), h);
      removals := removals + [Removal(session, h, AwaitReleases(handles[h].attachments))];
      ReleaseAll(handles[h].attachments);
    }

    method RemovalReleasesSettled(r: RemovalId)
      requires Valid() && Enabled(Model(), RemovalReleased(r))
      modifies this
      ensures Valid() && Model() == Next(old(Model()), RemovalReleased(r))
    {
      hide Inv;
      Preserved(Model(), RemovalReleased(r));
      InvGivesRefs(Model());
      var h := removals[r].handle;
      handles := handles[h := handles[h].(closed := true)];
      removals := removals[r := removals[r].(step := AwaitClose)];
    }

    method RemovalHandleClosed(r: RemovalId)
      requires Valid() && Enabled(Model(), RemovalClosed(r))
      modifies this
      ensures Valid() && Model() == Next(old(Model()), RemovalClosed(r))
    {
      hide Inv;
      Preserved(Model(), RemovalClosed(r));
      InvGivesRefs(Model());
      var removal := removals[r];
      if removal.session in hostedSessions && hostedSessions[removal.session] == removal.handle {
        hostedSessions := hostedSessions - {removal.session};
      }
      removals := removals[r := removal.(step := Removed)];
    }

    // ---- shutdown ------------------------------------------------------------------------------

    method CloseRouter(e: Event)
      requires e.BeginClosing? || e.Close?
      requires Valid() && Enabled(Model(), e)
      modifies this
      ensures Valid() && Model() == Next(old(Model()), e)
    {
      hide Inv;
      Preserved(Model(), e);
      InvGivesRefs(Model());
      if e.BeginClosing? {
        closing := true;
      } else {
        shutdown := AwaitOperations(clientOperations.Values, openingSessions.Values);
      }
    }

    method ShutdownOperationsSettled()
      requires Valid() && Enabled(Model(), CloseOperationsSettled)
      modifies this
      ensures Valid() && Model() == Next(old(Model()), CloseOperationsSettled)
    {
      hide Inv, OperationRefs, AttachmentRefs, OpenRefs, RemovalRefs, ValuesBelow;
      Preserved(Model(), CloseOperationsSettled);
      InvGivesRefs(Model());
      var targets := set a | 0 <= a < |attachments|
                             && attachments[a].handle in hostedSessions.Values
                             && attachments[a].handle < |handles|
                             && a in handles[attachments[a].handle].attachments;
      ReleaseAll(targets);
      shutdown := AwaitAttachments(targets);
    }

    /** Calls `close` on every hosted handle. */
    method CloseHosted()
      modifies this`handles
      ensures |handles| == |old(handles)|
      ensures forall i :: 0 <= i < |handles| ==>
        handles[i] == if i in hostedSessions.Values then old(handles[i]).(closed := true) else old(handles[i])
    {
      var h := 0;
      while h < |handles|
        invariant 0 <= h <= |handles| == |old(handles)|
        invariant forall i :: 0 <= i < |handles| ==>
          handles[i] == if i < h && i in hostedSessions.Values then old(handles[i]).(closed := true) else old(handles[i])
      {
        if h in hostedSessions.Values {
          handles := handles[h := handles[h].(closed := true)];
        }
        h := h + 1;
      }
    }

    /** Drops the sessions whose handles are closed. */
    method ForgetClosed(closed: set<HandleId>)
      modifies this`hostedSessions
      ensures hostedSessions == map id | id in old(hostedSessions) && old(hostedSessions)[id] !in closed
                                :: old(hostedSessions)[id]
    {
      var todo := hostedSessions.Keys;
      while todo != {}
        invariant todo <= hostedSessions.Keys <= old(hostedSessions).Keys
        invariant forall id :: id in old(hostedSessions) ==>
          (id in hostedSessions <==> id in todo || old(hostedSessions)[id] !in closed)
        invariant forall id :: id in hostedSessions ==> hostedSessions[id] == old(hostedSessions)[id]
        decreases |todo|
      {
        var id :| id in todo;
        if hostedSessions[id] in closed {
          hostedSessions := hostedSessions - {id};
        }
        todo := todo - {id};
      }
    }

    method ShutdownAttachmentsSettled()
      requires Valid() && Enabled(Model(), CloseAttachmentsSettled)
      modifies this
      ensures Valid() && Model() == Next(old(Model()), CloseAttachmentsSettled)
    {
      hide Inv, OperationRefs, AttachmentRefs, OpenRefs, RemovalRefs, ValuesBelow;
      Preserved(Model(), CloseAttachmentsSettled);
      InvGivesRefs(Model());
      CloseHosted();
      assert handles == Next(old(Model()), CloseAttachmentsSettled).handles;
      shutdown := AwaitHandles(hostedSessions.Values);
    }

    method ShutdownHandlesSettled(failed: set<HandleId>)
      requires Valid() && Enabled(Model(), CloseHandlesSettled(failed))
      modifies this
      ensures Valid() && Model() == Next(old(Model()), CloseHandlesSettled(failed))
    {
      hide Inv, OperationRefs, AttachmentRefs, OpenRefs, RemovalRefs, ValuesBelow;
      Preserved(Model(), CloseHandlesSettled(failed));
      InvGivesRefs(Model());
      ForgetClosed(shutdown.handles - failed);
      assert hostedSessions == Next(old(Model()), CloseHandlesSettled(failed)).hostedSessions;
      attachmentsByClient, clientOperations := map[], map[];
      shutdown := Complete;
    }
  }

  lemma CurrentInRange(s: Router, client: ClientId)
    requires Refs(s) && client in s.attachmentsByClient
    ensures s.attachmentsByClient[client] < |s.attachments|
    ensures s.attachments[s.attachmentsByClient[client]].handle < |s.handles|
  {
  }

  lemma StepInRange(s: Router, o: OperationId)
    requires Refs(s) && o < |s.operations|
    ensures StepRefs(s.operations[o].step, |s.opens|, |s.handles|, |s.attachments|)
  {
  }

  lemma MembersInRange(s: Router, h: HandleId)
    requires Inv(s) && h < |s.handles|
    ensures forall a :: a in s.handles[h].attachments ==> a < |s.attachments|
  {
  }
}
