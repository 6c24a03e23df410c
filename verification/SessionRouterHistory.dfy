/** What each step of the router can change at all, and what no step ever changes back. */
module SessionRouterHistory {
  import opened Wrappers
  import opened SessionRouterSpec
  import opened SessionRouterProof
  import opened SessionRouterTheorems

  // ---- the fields a step can touch -------------------------------------------------------------

  lemma QueueFrame(s: Router, e: Event)
    requires Refs(s) && Enabled(s, e) && (e.Enqueue? || e.AcquireReturns? || e.AttachPublished? || e.ReleaseAwaited?)
    ensures var t := Next(s, e);
            t == s.(operations := t.operations, clientOperations := t.clientOperations,
                    disconnectedClients := t.disconnectedClients, openingSessions := t.openingSessions)
  {
    hide AttachmentRefs, ValuesBelow, OperationRefs, OpenRefs, RemovalRefs;
  }

  lemma AttachmentFrame(s: Router, e: Event)
    requires Refs(s) && Enabled(s, e) && (e.LeaseSettles? || e.CallSettles? || e.Drained? || e.ClearPublished?)
    ensures Next(s, e) == s.(attachments := Next(s, e).attachments)
  {
    hide AttachmentRefs, ValuesBelow, OperationRefs, OpenRefs, RemovalRefs;
  }

  lemma ClearFrame(s: Router, a: AttachmentId, ok: bool)
    requires a < |s.attachments| && s.attachments[a].handle < |s.handles|
    ensures var t := Clear(s, a, ok);
            t == s.(attachments := t.attachments, handles := t.handles, attachmentsByClient := t.attachmentsByClient,
                    notices := t.notices)
    ensures CallRelease(s, a) == s.(attachments := CallRelease(s, a).attachments)
  {
  }

  lemma ReleaseFrame(s: Router, e: Event)
    requires Inv(s) && Enabled(s, e) && (e.LeaseForRelease? || e.ReleaseSettles?)
    ensures var t := Next(s, e);
            t == s.(attachments := t.attachments, handles := t.handles, attachmentsByClient := t.attachmentsByClient,
                    notices := t.notices)
  {
    HandleInRange(s, e.att);
    InvGivesRefs(s);
    ClearFrame(s, e.att, e.ReleaseSettles? && e.ok);
    hide Inv, Refs, Clear, CallRelease;
  }

  lemma OpenFrame(s: Router, n: OpenId, ok: bool)
    requires n < |s.opens| && s.opens[n].phase.Opening?
    ensures var t := OpenHandle(s, n, ok);
            t == s.(opens := t.opens, handles := t.handles, hostedSessions := t.hostedSessions)
  {
  }

  lemma SessionFrame(s: Router, e: Event)
    requires Refs(s) && Enabled(s, e)
    requires e.SessionResolves? || e.AcquiredClosed? || e.HandleOpens? || e.Terminates? || e.Invalidate? || e.Remove?
             || e.RemovalReleased? || e.RemovalClosed?
    ensures var t := Next(s, e);
            t == s.(opens := t.opens, handles := t.handles, hostedSessions := t.hostedSessions, attachments := t.attachments,
                    removals := t.removals)
    ensures var t := Next(s, e);
            && (e.HandleOpens? || e.SessionResolves? || e.AcquiredClosed? || t.opens == s.opens)
            && (e.HandleOpens? || e.Terminates? || e.RemovalReleased? || t.handles == s.handles)
            && (e.HandleOpens? || e.Invalidate? || e.RemovalClosed? || t.hostedSessions == s.hostedSessions)
            && (e.Invalidate? || e.Remove? || t.attachments == s.attachments)
            && (e.Remove? || e.RemovalReleased? || e.RemovalClosed? || t.removals == s.removals)
  {
    hide AttachmentRefs, ValuesBelow, OperationRefs, OpenRefs, RemovalRefs, Begun;
    if e.HandleOpens? { OpenFrame(s, e.open, e.ok); }
    hide OpenHandle;
  }

  lemma ShutdownFrame(s: Router, e: Event)
    requires Refs(s) && Enabled(s, e)
    requires e.BeginClosing? || e.Close? || e.CloseOperationsSettled? || e.CloseAttachmentsSettled? || e.CloseHandlesSettled?
    ensures var t := Next(s, e);
            t == s.(closing := t.closing, shutdown := t.shutdown, attachments := t.attachments, handles := t.handles,
                    hostedSessions := t.hostedSessions, attachmentsByClient := t.attachmentsByClient,
                    clientOperations := t.clientOperations)
    ensures var t := Next(s, e);
            && (e.BeginClosing? || t.closing == s.closing) && (!e.BeginClosing? || t.shutdown == s.shutdown)
            && (e.CloseOperationsSettled? || t.attachments == s.attachments)
            && (e.CloseAttachmentsSettled? || t.handles == s.handles)
            && (e.CloseHandlesSettled? || (t.hostedSessions == s.hostedSessions && t.attachmentsByClient == s.attachmentsByClient))
  {
    hide AttachmentRefs, ValuesBelow, OperationRefs, OpenRefs, RemovalRefs, Begun, AllAttachments;
  }

  /** Only the queue's own fields differ. */
  predicate QueueMoves(s: Router, t: Router) {
    t == s.(operations := t.operations, clientOperations := t.clientOperations, disconnectedClients := t.disconnectedClients)
  }

  lemma FinishFrame(s: Router, o: OperationId)
    requires o < |s.operations|
    ensures QueueMoves(s, Finish(s, o))
  {
  }

  lemma StartReleaseFrame(s: Router, a: AttachmentId, publish: bool, o: OperationId, step: Step)
    requires a < |s.attachments| && o < |s.operations|
    ensures var t := At(StartRelease(s, a, publish, Some(o)), o, step);
            QueueMoves(s.(attachments := t.attachments), t)
  {
    hide Begun;
  }

  lemma AcquireFrame(s: Router, o: OperationId, session: SessionId, current: Option<AttachmentId>)
    requires o < |s.operations|
    ensures var t := Acquire(s, o, session, current);
            QueueMoves(s.(opens := t.opens, openingSessions := t.openingSessions), t)
  {
  }

  lemma StartAttachFrame(s: Router, o: OperationId)
    requires Refs(s) && o < |s.operations| && s.operations[o].kind.Attach?
    ensures var t := StartOperation(s, o);
            QueueMoves(s.(opens := t.opens, openingSessions := t.openingSessions), t)
  {
    hide AttachmentRefs, ValuesBelow, OperationRefs, OpenRefs, RemovalRefs, Finish, Acquire, Barred;
    FinishFrame(s, o);
    AcquireFrame(s, o, s.operations[o].kind.session, Lookup(s.attachmentsByClient, s.operations[o].client));
  }

  lemma StartLeavingFrame(s: Router, o: OperationId)
    requires Refs(s) && o < |s.operations| && (s.operations[o].kind.Detach? || s.operations[o].kind.Disconnect?)
    ensures QueueMoves(s.(attachments := StartOperation(s, o).attachments), StartOperation(s, o))
  {
    var client := s.operations[o].client;
    if client in s.attachmentsByClient {
      assert s.attachmentsByClient[client] < |s.attachments|;
      StartReleaseFrame(s, s.attachmentsByClient[client], s.operations[o].kind.Detach?, o,
                        AwaitRelease(s.attachmentsByClient[client]));
    }
    hide AttachmentRefs, ValuesBelow, OperationRefs, OpenRefs, RemovalRefs, Finish, StartRelease, At;
    FinishFrame(s, o);
  }

  lemma StartCallFrame(s: Router, o: OperationId)
    requires Refs(s) && o < |s.operations| && s.operations[o].kind.Call?
    ensures var t := StartOperation(s, o);
            QueueMoves(s.(attachments := t.attachments, deliveries := t.deliveries), t)
  {
    hide AttachmentRefs, ValuesBelow, OperationRefs, OpenRefs, RemovalRefs, Finish, Barred;
    FinishFrame(s, o);
  }

  lemma StartIsNext(s: Router, o: OperationId)
    requires Refs(s) && Enabled(s, Start(o))
    ensures Next(s, Start(o)) == StartOperation(s, o)
  {
    hide Refs, StartOperation;
  }

  lemma ArriveIsNext(s: Router, o: OperationId)
    requires Refs(s) && Enabled(s, LeaseArrives(o))
    ensures Next(s, LeaseArrives(o)) == ArriveLease(s, o)
  {
    hide Refs, ArriveLease;
  }

  lemma CreatedShape(before: seq<Attachment>, after: seq<Attachment>, operations: seq<Operation>,
                     actor: Option<OperationId>, a: AttachmentId)
    requires OnlyCreates(before, after, operations, actor) && |before| <= a < |after|
    ensures actor.Some? && actor.value < |operations| && after[a].client == operations[actor.value].client
    ensures operations[actor.value].step.AwaitHosted? || operations[actor.value].step.AwaitCurrent?
    ensures after[a].acquiring.InFlight? && after[a].release.phase == NotStarted
  {
  }

  lemma CreateFrame(s: Router, o: OperationId, h: HandleId)
    requires o < |s.operations| && h < |s.handles|
    ensures var t := CreateAttachment(s, o, h);
            QueueMoves(s.(attachments := t.attachments, handles := t.handles), t)
  {
  }

  lemma ResumeFrame(s: Router, o: OperationId)
    requires Refs(s) && o < |s.operations| && s.operations[o].step.AwaitHosted?
    requires StepRefs(s.operations[o].step, |s.opens|, |s.handles|, |s.attachments|)
    ensures var t := ResumeAttach(s, o);
            QueueMoves(s.(attachments := t.attachments, handles := t.handles), t)
  {
    var step := s.operations[o].step;
    hide Refs, Finish, StartRelease, At, CreateAttachment, Barred;
    FinishFrame(s, o);
    if step.hosted.Some? {
      CreateFrame(s, o, step.hosted.value);
      if step.current.Some? {
        StartReleaseFrame(s, step.current.value, false, o, AwaitCurrent(step.hosted.value, step.current.value));
      }
    }
  }

  lemma SwitchFrame(s: Router, e: Event)
    requires Inv(s) && Enabled(s, e) && e.CurrentReleased?
    ensures QueueMoves(s.(attachments := Next(s, e).attachments, handles := Next(s, e).handles), Next(s, e))
  {
    StepHandleInRange(s, e.op);
    InvGivesRefs(s);
    hide Inv, Refs, Finish, CreateAttachment;
    FinishFrame(s, e.op);
    CreateFrame(s, e.op, s.operations[e.op].step.handle);
  }

  lemma ArriveFrame(s: Router, o: OperationId, a: AttachmentId)
    requires Refs(s) && o < |s.operations| && s.operations[o].step == AwaitLease(a) && a < |s.attachments|
    requires s.attachments[a].handle < |s.handles|
    ensures var t := ArriveLease(s, o);
            QueueMoves(s.(attachments := t.attachments, handles := t.handles, attachmentsByClient := t.attachmentsByClient,
                          notices := t.notices), t)
  {
    hide AttachmentRefs, ValuesBelow, OperationRefs, OpenRefs, RemovalRefs, Finish, StartRelease, Barred;
    var taken := s.(attachments := s.attachments[a := s.attachments[a].(lease := true)]);
    FinishFrame(DropFromHandle(s, a), o);
    StartReleaseFrame(taken, a, true, o, AwaitRelease(a));
  }

  // ---- what is never changed back --------------------------------------------------------------

  predicate OperationsContinue(before: seq<Operation>, after: seq<Operation>) {
    && |before| <= |after|
    && forall o {:trigger after[o]} :: 0 <= o < |before| ==>
         && after[o] == before[o].(step := after[o].step)
         && (before[o].step.Finished? ==> after[o].step.Finished?)
         && (!before[o].step.Queued? ==> !after[o].step.Queued?)
  }

  /** Who an attachment belongs to stays; leases, refusals and the beginning of a release are final. */
  predicate AttachmentContinues(before: Attachment, after: Attachment) {
    && after.client == before.client && after.handle == before.handle && after.opener == before.opener
    && (before.lease ==> after.lease)
    && (!before.acquiring.InFlight? ==> after.acquiring == before.acquiring)
    && (before.release.phase != NotStarted ==>
          after.release == before.release.(phase := after.release.phase, ok := after.release.ok) && after.release.phase != NotStarted)
    && (before.Cleared() ==> after.Cleared()) && before.releaseCalls <= after.releaseCalls
    && (before.release.phase == Settled ==> after.release.phase == Settled)
  }

  predicate AttachmentsContinue(before: seq<Attachment>, after: seq<Attachment>) {
    && |before| <= |after|
    && forall a {:trigger after[a]} :: 0 <= a < |before| ==> AttachmentContinues(before[a], after[a])
  }

  predicate HandlesContinue(before: seq<Handle>, after: seq<Handle>) {
    && |before| <= |after|
    && forall h {:trigger after[h]} :: 0 <= h < |before| ==>
         && after[h].id == before[h].id
         && (before[h].closed ==> after[h].closed) && (before[h].terminated ==> after[h].terminated)
  }

  predicate RemovalsContinue(before: seq<Removal>, after: seq<Removal>) {
    && |before| <= |after|
    && forall r {:trigger after[r]} :: 0 <= r < |before| ==>
         && after[r].session == before[r].session && after[r].handle == before[r].handle
         && (before[r].step.Removed? ==> after[r].step.Removed?)
  }

  predicate Continues(s: Router, t: Router) {
    && OperationsContinue(s.operations, t.operations) && AttachmentsContinue(s.attachments, t.attachments)
    && HandlesContinue(s.handles, t.handles) && RemovalsContinue(s.removals, t.removals)
  }

  /** At most one operation moves; operations that are new are queued, and no attach is new once the
      router is closing. */
  predicate OnlyMoves(before: seq<Operation>, after: seq<Operation>, actor: Option<OperationId>, closing: bool) {
    && |before| <= |after|
    && (forall q {:trigger after[q]} :: 0 <= q < |before| ==>
          if actor == Some(q) then !after[q].step.Queued? else after[q] == before[q])
    && forall q {:trigger after[q]} :: |before| <= q < |after| ==>
         after[q].step.Queued? && !(closing && after[q].kind.Attach?)
  }

  /** Only an attach that has its handle creates an attachment, for its own client. */
  predicate OnlyCreates(before: seq<Attachment>, after: seq<Attachment>, operations: seq<Operation>, actor: Option<OperationId>) {
    |before| < |after| ==>
      && |after| == |before| + 1 && actor.Some? && actor.value < |operations|
      && (operations[actor.value].step.AwaitHosted? || operations[actor.value].step.AwaitCurrent?)
      && after[|before|].client == operations[actor.value].client && after[|before|].opener == actor.value
      && after[|before|].acquiring.InFlight? && after[|before|].release.phase == NotStarted
  }

  predicate Local(s: Router, t: Router, actor: Option<OperationId>) {
    && OnlyMoves(s.operations, t.operations, actor, s.closing)
    && OnlyCreates(s.attachments, t.attachments, s.operations, actor)
  }

  function Actor(e: Event): Option<OperationId> {
    match e
    case Start(o) => Some(o)
    case AcquireReturns(o) => Some(o)
    case AttachResumes(o) => Some(o)
    case CurrentReleased(o) => Some(o)
    case LeaseArrives(o) => Some(o)
    case AttachPublished(o) => Some(o)
    case ReleaseAwaited(o) => Some(o)
    case _ => None
  }

  lemma ContinueRefl(s: Router)
    ensures Continues(s, s)
    ensures OnlyMoves(s.operations, s.operations, None, s.closing)
  {
  }

  lemma MoveContinues(operations: seq<Operation>, o: OperationId, step: Step)
    requires o < |operations| && !operations[o].step.Finished? && !step.Queued?
    ensures OperationsContinue(operations, Moved(operations, o, step))
    ensures forall closing :: OnlyMoves(operations, Moved(operations, o, step), Some(o), closing)
  {
  }

  lemma AddContinues(operations: seq<Operation>, op: Operation, closing: bool)
    requires op.step.Queued? && !(closing && op.kind.Attach?)
    ensures OperationsContinue(operations, operations + [op]) && OnlyMoves(operations, operations + [op], None, closing)
  {
  }

  lemma ChangeContinues(attachments: seq<Attachment>, a: AttachmentId, t: Attachment)
    requires a < |attachments| && AttachmentContinues(attachments[a], t)
    ensures AttachmentsContinue(attachments, attachments[a := t])
  {
  }

  lemma MoreAttachmentsContinue(attachments: seq<Attachment>, t: Attachment)
    ensures AttachmentsContinue(attachments, attachments + [t])
  {
  }

  lemma StartedContinue(s: Router, targets: set<AttachmentId>)
    ensures AttachmentsContinue(s.attachments, StartReleases(s, targets).attachments)
  {
  }

  lemma SameHandlesContinue(before: seq<Handle>, after: seq<Handle>)
    requires SameButAttachments(before, after)
    ensures HandlesContinue(before, after)
  {
  }

  lemma QueueContinues(s: Router, e: Event)
    requires Inv(s) && Enabled(s, e) && (e.Enqueue? || e.AcquireReturns? || e.AttachPublished? || e.ReleaseAwaited?)
    ensures Continues(s, Next(s, e))
    ensures Local(s, Next(s, e), Actor(e))
  {
    ContinueRefl(s);
    InvGivesRefs(s);
    QueueFrame(s, e);
    if e.Enqueue? {
      if !(s.closing && e.kind.Attach?) {
        AddContinues(s.operations, Operation(e.client, e.kind, Lookup(s.clientOperations, e.client), Queued), s.closing);
      }
      hide Inv, Refs, OperationsContinue, OnlyMoves, AttachmentsContinue, HandlesContinue, RemovalsContinue;
    } else {
      var step := if e.AcquireReturns? then Next(s, e).operations[e.op].step else Finished;
      MoveContinues(s.operations, e.op, step);
      hide Inv, Refs, OperationsContinue, OnlyMoves, AttachmentsContinue, HandlesContinue, RemovalsContinue;
    }
  }

  lemma AttachmentEventContinues(s: Router, e: Event)
    requires Inv(s) && Enabled(s, e)
    requires e.LeaseSettles? || e.CallSettles? || e.Drained? || e.ClearPublished?
    ensures Continues(s, Next(s, e))
    ensures Local(s, Next(s, e), Actor(e))
  {
    hide Inv, Refs, OperationsContinue, OnlyMoves, HandlesContinue, RemovalsContinue;
    ContinueRefl(s);
    InvGivesRefs(s);
    AttachmentFrame(s, e);
    ChangeContinues(s.attachments, e.att, Next(s, e).attachments[e.att]);
  }

  lemma ClearContinues(s: Router, a: AttachmentId, ok: bool)
    requires a < |s.attachments| && s.attachments[a].handle < |s.handles| && !s.attachments[a].Cleared()
    ensures AttachmentsContinue(s.attachments, Clear(s, a, ok).attachments)
    ensures AttachmentsContinue(s.attachments, CallRelease(s, a).attachments)
  {
    ChangeContinues(s.attachments, a, Clear(s, a, ok).attachments[a]);
    ChangeContinues(s.attachments, a, CallRelease(s, a).attachments[a]);
  }

  lemma ClearingContinues(s: Router, a: AttachmentId, ok: bool)
    requires a < |s.attachments| && s.attachments[a].handle < |s.handles| && !s.attachments[a].Cleared()
    ensures Continues(s, Clear(s, a, ok)) && Local(s, Clear(s, a, ok), None)
    ensures Continues(s, CallRelease(s, a)) && Local(s, CallRelease(s, a), None)
  {
    ContinueRefl(s);
    ClearFrame(s, a, ok);
    ClearContinues(s, a, ok);
    ClearKeepsHandles(s, a, ok);
    SameHandlesContinue(s.handles, Clear(s, a, ok).handles);
    hide OperationsContinue, OnlyMoves, AttachmentsContinue, HandlesContinue, RemovalsContinue, Clear, CallRelease,
         SameButAttachments, RestUnchanged;
    ClearKeepsCount(s, a, ok);
  }

  lemma ClearKeepsCount(s: Router, a: AttachmentId, ok: bool)
    requires a < |s.attachments| && s.attachments[a].handle < |s.handles|
    ensures |Clear(s, a, ok).attachments| == |s.attachments| == |CallRelease(s, a).attachments|
  {
  }

  lemma ReleaseShape(s: Router, e: Event)
    requires Refs(s) && Enabled(s, e) && (e.LeaseForRelease? || e.ReleaseSettles?)
    requires s.attachments[e.att].handle < |s.handles|
    ensures Next(s, e) == if e.LeaseForRelease? && s.attachments[e.att].acquiring.Leased? then CallRelease(s, e.att)
                          else Clear(s, e.att, e.ReleaseSettles? && e.ok)
  {
    hide Refs, Clear, CallRelease;
  }

  lemma ReleaseContinues(s: Router, e: Event)
    requires Inv(s) && Enabled(s, e) && (e.LeaseForRelease? || e.ReleaseSettles?)
    ensures Continues(s, Next(s, e))
    ensures Local(s, Next(s, e), Actor(e))
  {
    HandleInRange(s, e.att);
    InvGivesRefs(s);
    ReleaseShape(s, e);
    ClearingContinues(s, e.att, e.ReleaseSettles? && e.ok);
    hide Inv, Refs, Continues, Local, Clear, CallRelease, Next;
  }

  lemma HandlesStepContinues(s: Router, e: Event)
    requires Refs(s) && Enabled(s, e) && (e.HandleOpens? || e.Terminates? || e.RemovalReleased? || e.CloseAttachmentsSettled?)
    ensures HandlesContinue(s.handles, Next(s, e).handles)
  {
    if e.RemovalReleased? {
      assert s.removals[e.removal].handle < |s.handles|;
    }
    hide AttachmentRefs, ValuesBelow, OperationRefs, OpenRefs, RemovalRefs;
  }

  lemma RemovalsStepContinues(s: Router, e: Event)
    requires Refs(s) && Enabled(s, e) && (e.Remove? || e.RemovalReleased? || e.RemovalClosed?)
    ensures RemovalsContinue(s.removals, Next(s, e).removals)
  {
    hide AttachmentRefs, OperationRefs, OpenRefs, Begun;
  }

  lemma StartingStepContinues(s: Router, e: Event)
    requires Refs(s) && Enabled(s, e) && (e.Invalidate? || e.Remove? || e.CloseOperationsSettled?)
    ensures AttachmentsContinue(s.attachments, Next(s, e).attachments)
  {
    ContinueRefl(s);
    hide AttachmentRefs, OperationRefs, OpenRefs, RemovalRefs, StartReleases, AttachmentsContinue;
    match e {
      case Invalidate(h) =>
        var unhosted := s.(hostedSessions := s.hostedSessions - {s.handles[h].id});
        StartedContinue(unhosted, s.handles[h].attachments);
      case Remove(session) =>
        if session in s.hostedSessions {
          StartedContinue(s, s.handles[s.hostedSessions[session]].attachments);
        }
      case CloseOperationsSettled => StartedContinue(s, AllAttachments(s));
    }
  }

  lemma SessionContinues(s: Router, e: Event)
    requires Inv(s) && Enabled(s, e)
    requires e.SessionResolves? || e.AcquiredClosed? || e.HandleOpens? || e.Terminates? || e.Invalidate? || e.Remove?
             || e.RemovalReleased? || e.RemovalClosed?
    ensures Continues(s, Next(s, e))
    ensures Local(s, Next(s, e), Actor(e))
  {
    ContinueRefl(s);
    InvGivesRefs(s);
    SessionFrame(s, e);
    hide Inv, Refs, OperationsContinue, OnlyMoves, AttachmentsContinue, HandlesContinue, RemovalsContinue, Next, Enabled;
    if e.HandleOpens? || e.Terminates? || e.RemovalReleased? { HandlesStepContinues(s, e); }
    if e.Remove? || e.RemovalReleased? || e.RemovalClosed? { RemovalsStepContinues(s, e); }
    if e.Invalidate? || e.Remove? { StartingStepContinues(s, e); }
  }

  lemma ShutdownContinues(s: Router, e: Event)
    requires Inv(s) && Enabled(s, e)
    requires e.BeginClosing? || e.Close? || e.CloseOperationsSettled? || e.CloseAttachmentsSettled? || e.CloseHandlesSettled?
    ensures Continues(s, Next(s, e))
    ensures Local(s, Next(s, e), Actor(e))
  {
    ContinueRefl(s);
    InvGivesRefs(s);
    ShutdownFrame(s, e);
    hide Inv, Refs, OperationsContinue, OnlyMoves, AttachmentsContinue, HandlesContinue, RemovalsContinue, Next, Enabled;
    if e.CloseAttachmentsSettled? { HandlesStepContinues(s, e); }
    if e.CloseOperationsSettled? { StartingStepContinues(s, e); }
  }

  lemma BegunContinues(a: Attachment, publish: bool, starter: Option<OperationId>)
    ensures AttachmentContinues(a, Begun(a, publish, starter))
  {
  }

  lemma StartReleaseContinues(s: Router, a: AttachmentId, publish: bool, o: OperationId, step: Step)
    requires a < |s.attachments| && o < |s.operations| && !s.operations[o].step.Finished? && !step.Queued?
    ensures Continues(s, At(StartRelease(s, a, publish, Some(o)), o, step))
    ensures Local(s, At(StartRelease(s, a, publish, Some(o)), o, step), Some(o))
  {
    ContinueRefl(s);
    BegunContinues(s.attachments[a], publish, Some(o));
    ChangeContinues(s.attachments, a, Begun(s.attachments[a], publish, Some(o)));
    MoveContinues(s.operations, o, step);
    hide OperationsContinue, OnlyMoves, AttachmentsContinue, HandlesContinue, RemovalsContinue, Begun;
  }

  lemma FinishContinues(s: Router, o: OperationId)
    requires o < |s.operations| && !s.operations[o].step.Finished?
    ensures Continues(s, Finish(s, o))
    ensures Local(s, Finish(s, o), Some(o))
  {
    ContinueRefl(s);
    MoveContinues(s.operations, o, Finished);
    hide OperationsContinue, OnlyMoves, AttachmentsContinue, HandlesContinue, RemovalsContinue;
  }

  lemma CreateContinues(s: Router, o: OperationId, h: HandleId)
    requires o < |s.operations| && h < |s.handles|
    requires s.operations[o].step.AwaitHosted? || s.operations[o].step.AwaitCurrent?
    ensures Continues(s, CreateAttachment(s, o, h))
    ensures Local(s, CreateAttachment(s, o, h), Some(o))
  {
    ContinueRefl(s);
    var t := CreateAttachment(s, o, h);
    MoveContinues(s.operations, o, AwaitLease(|s.attachments|));
    MoreAttachmentsContinue(s.attachments, t.attachments[|s.attachments|]);
    CreateKeepsHandles(s, o, h);
    SameHandlesContinue(s.handles, t.handles);
    hide OperationsContinue, OnlyMoves, AttachmentsContinue, HandlesContinue, RemovalsContinue, SameButAttachments;
  }

  lemma AcquireContinues(s: Router, o: OperationId, session: SessionId, current: Option<AttachmentId>)
    requires o < |s.operations| && !s.operations[o].step.Finished?
    ensures Continues(s, Acquire(s, o, session, current))
    ensures Local(s, Acquire(s, o, session, current), Some(o))
  {
    ContinueRefl(s);
    MoveContinues(s.operations, o, Acquire(s, o, session, current).operations[o].step);
    hide OperationsContinue, OnlyMoves, AttachmentsContinue, HandlesContinue, RemovalsContinue;
  }

  lemma CallContinues(s: Router, o: OperationId, target: AttachmentId, d: Delivery)
    requires o < |s.operations| && !s.operations[o].step.Finished? && target < |s.attachments|
    ensures var att := s.attachments[target];
            var t := Finish(s, o).(attachments := s.attachments[target := att.(calls := att.calls + {o})],
                                   deliveries := s.deliveries + [d]);
            Continues(s, t) && Local(s, t, Some(o))
  {
    FinishContinues(s, o);
    var att := s.attachments[target];
    ChangeContinues(s.attachments, target, att.(calls := att.calls + {o}));
    hide OperationsContinue, OnlyMoves, AttachmentsContinue, HandlesContinue, RemovalsContinue;
  }

  lemma StartContinues(s: Router, o: OperationId)
    requires Refs(s) && o < |s.operations| && s.operations[o].step.Queued?
    ensures Continues(s, StartOperation(s, o))
    ensures Local(s, StartOperation(s, o), Some(o))
  {
    var op := s.operations[o];
    var current := Lookup(s.attachmentsByClient, op.client);
    assert current.Some? ==> current.value < |s.attachments|;
    hide AttachmentRefs, ValuesBelow, OperationRefs, OpenRefs, RemovalRefs, Continues, Local, Finish, Acquire, StartRelease, At;
    FinishContinues(s, o);
    match op.kind {
      case Attach(session) => AcquireContinues(s, o, session, current);
      case Detach =>
        if current.Some? { StartReleaseContinues(s, current.value, true, o, AwaitRelease(current.value)); }
      case Disconnect =>
        if current.Some? { StartReleaseContinues(s, current.value, false, o, AwaitRelease(current.value)); }
      case Call(session, target) =>
        if current == Some(target) { CallContinues(s, o, target, Delivery(o, target, target)); }
    }
  }

  lemma ResumeContinues(s: Router, o: OperationId)
    requires Refs(s) && o < |s.operations| && s.operations[o].step.AwaitHosted?
    requires StepRefs(s.operations[o].step, |s.opens|, |s.handles|, |s.attachments|)
    ensures Continues(s, ResumeAttach(s, o))
    ensures Local(s, ResumeAttach(s, o), Some(o))
  {
    var step := s.operations[o].step;
    hide Refs, Continues, Local, Finish, StartRelease, At, CreateAttachment;
    FinishContinues(s, o);
    if step.hosted.Some? {
      CreateContinues(s, o, step.hosted.value);
      if step.current.Some? {
        StartReleaseContinues(s, step.current.value, false, o, AwaitCurrent(step.hosted.value, step.current.value));
      }
    }
  }

  lemma SwitchContinues(s: Router, e: Event)
    requires Inv(s) && Enabled(s, e) && e.CurrentReleased?
    ensures Continues(s, Next(s, e))
    ensures Local(s, Next(s, e), Actor(e))
  {
    StepHandleInRange(s, e.op);
    InvGivesRefs(s);
    hide Inv, Refs, Continues, Local, Finish, CreateAttachment;
    FinishContinues(s, e.op);
    CreateContinues(s, e.op, s.operations[e.op].step.handle);
  }

  lemma TransContinue(s: Router, t: Router, u: Router)
    requires Continues(s, t) && Continues(t, u)
    ensures Continues(s, u)
  {
    forall a | 0 <= a < |s.attachments| ensures AttachmentContinues(s.attachments[a], u.attachments[a]) {
      assert AttachmentContinues(s.attachments[a], t.attachments[a]);
      assert AttachmentContinues(t.attachments[a], u.attachments[a]);
    }
    forall o | 0 <= o < |s.operations|
      ensures u.operations[o] == s.operations[o].(step := u.operations[o].step)
              && (s.operations[o].step.Finished? ==> u.operations[o].step.Finished?)
              && (!s.operations[o].step.Queued? ==> !u.operations[o].step.Queued?)
    {
      assert t.operations[o].client == s.operations[o].client;
    }
    forall r | 0 <= r < |s.removals|
      ensures u.removals[r].session == s.removals[r].session && u.removals[r].handle == s.removals[r].handle
              && (s.removals[r].step.Removed? ==> u.removals[r].step.Removed?)
    {
      assert t.removals[r].session == s.removals[r].session;
    }
    forall h | 0 <= h < |s.handles|
      ensures u.handles[h].id == s.handles[h].id && (s.handles[h].closed ==> u.handles[h].closed)
              && (s.handles[h].terminated ==> u.handles[h].terminated)
    {
      assert t.handles[h].id == s.handles[h].id;
    }
  }

  lemma LeaseTakenContinues(s: Router, a: AttachmentId)
    requires a < |s.attachments|
    ensures Continues(s, s.(attachments := s.attachments[a := s.attachments[a].(lease := true)]))
  {
    ContinueRefl(s);
    ChangeContinues(s.attachments, a, s.attachments[a].(lease := true));
    hide OperationsContinue, OnlyMoves, AttachmentsContinue, HandlesContinue, RemovalsContinue;
  }

  lemma DropContinues(s: Router, a: AttachmentId, o: OperationId)
    requires a < |s.attachments| && s.attachments[a].handle < |s.handles|
    requires o < |s.operations| && !s.operations[o].step.Finished?
    ensures Continues(s, Finish(DropFromHandle(s, a), o))
    ensures Local(s, Finish(DropFromHandle(s, a), o), Some(o))
  {
    ContinueRefl(s);
    ClearKeepsHandles(s, a, true);
    SameHandlesContinue(s.handles, DropFromHandle(s, a).handles);
    MoveContinues(s.operations, o, Finished);
    hide OperationsContinue, OnlyMoves, AttachmentsContinue, HandlesContinue, RemovalsContinue, SameButAttachments;
  }

  lemma InstallContinues(s: Router, o: OperationId, a: AttachmentId)
    requires o < |s.operations| && !s.operations[o].step.Finished?
    ensures forall byClient :: Continues(s, At(s, o, AwaitPublish).(attachmentsByClient := byClient))
    ensures forall byClient :: Local(s, At(s, o, AwaitPublish).(attachmentsByClient := byClient), Some(o))
  {
    ContinueRefl(s);
    MoveContinues(s.operations, o, AwaitPublish);
    hide OperationsContinue, OnlyMoves, AttachmentsContinue, HandlesContinue, RemovalsContinue;
  }

  lemma ArriveContinues(s: Router, o: OperationId, a: AttachmentId)
    requires Refs(s) && o < |s.operations| && s.operations[o].step == AwaitLease(a) && a < |s.attachments|
    requires s.attachments[a].handle < |s.handles|
    ensures Continues(s, ArriveLease(s, o))
    ensures Local(s, ArriveLease(s, o), Some(o))
  {
    var taken := s.(attachments := s.attachments[a := s.attachments[a].(lease := true)]);
    hide AttachmentRefs, ValuesBelow, OperationRefs, OpenRefs, RemovalRefs, Continues, Local, Finish, StartRelease, At,
         DropFromHandle, Barred;
    DropContinues(s, a, o);
    if s.attachments[a].acquiring.Leased? {
      LeaseTakenContinues(s, a);
      StartReleaseContinues(taken, a, true, o, AwaitRelease(a));
      InstallContinues(taken, o, a);
      TransContinue(s, taken, ArriveLease(s, o));
    }
  }

  /** Every step, in any state that keeps the invariant, only adds to the history. */
  lemma StepContinues(s: Router, e: Event)
    requires Inv(s) && Enabled(s, e)
    ensures Continues(s, Next(s, e))
    ensures Local(s, Next(s, e), Actor(e))
  {
    InvGivesRefs(s);
    hide Inv, Refs, Continues, Local, StartOperation, ResumeAttach, ArriveLease, StepRefs;
    match e {
      case Start(o) => StartContinues(s, o);
      case AttachResumes(o) =>
        OperationFacts(s, o);
        ResumeContinues(s, o);
      case LeaseArrives(o) =>
        HandleInRange(s, s.operations[o].step.attachment);
        ArriveContinues(s, o, s.operations[o].step.attachment);
      case _ => OtherStepContinues(s, e);
    }
  }

  lemma OtherStepContinues(s: Router, e: Event)
    requires Inv(s) && Enabled(s, e) && !e.Start? && !e.AttachResumes? && !e.LeaseArrives?
    ensures Continues(s, Next(s, e))
    ensures Local(s, Next(s, e), Actor(e))
  {
    hide Inv, Refs, Continues, Local, Enabled, Next;
    match e {
      case CurrentReleased(_) => SwitchContinues(s, e);
      case LeaseForRelease(_) => ReleaseContinues(s, e);
      case ReleaseSettles(_, _) => ReleaseContinues(s, e);
      case Enqueue(_, _) => QueueContinues(s, e);
      case AcquireReturns(_) => QueueContinues(s, e);
      case AttachPublished(_) => QueueContinues(s, e);
      case ReleaseAwaited(_) => QueueContinues(s, e);
      case LeaseSettles(_, _) => AttachmentEventContinues(s, e);
      case CallSettles(_, _) => AttachmentEventContinues(s, e);
      case Drained(_) => AttachmentEventContinues(s, e);
      case ClearPublished(_, _) => AttachmentEventContinues(s, e);
      case BeginClosing => ShutdownContinues(s, e);
      case Close => ShutdownContinues(s, e);
      case CloseOperationsSettled => ShutdownContinues(s, e);
      case CloseAttachmentsSettled => ShutdownContinues(s, e);
      case CloseHandlesSettled(_) => ShutdownContinues(s, e);
      case _ => SessionContinues(s, e);
    }
  }

  /** Which steps touch these fields at all. */
  lemma UntouchedFields(s: Router, e: Event)
    requires Inv(s) && Enabled(s, e)
    ensures var t := Next(s, e);
            && (e.Start? || t.deliveries == s.deliveries)
            && (e.HandleOpens? || e.Invalidate? || e.RemovalClosed? || e.CloseHandlesSettled? || t.hostedSessions == s.hostedSessions)
            && (e.LeaseArrives? || e.LeaseForRelease? || e.ReleaseSettles? || e.CloseHandlesSettled?
                || t.attachmentsByClient == s.attachmentsByClient)
            && (e.Start? || e.AcquireReturns? || e.SessionResolves? || e.AcquiredClosed? || e.HandleOpens?
                || (t.opens == s.opens && t.openingSessions == s.openingSessions))
            && (e.Close? || e.CloseOperationsSettled? || e.CloseAttachmentsSettled? || e.CloseHandlesSettled?
                || t.shutdown == s.shutdown)
            && (e.BeginClosing? || t.closing == s.closing)
            && (e.Remove? || e.RemovalReleased? || e.RemovalClosed? || t.removals == s.removals)
            && (e.LeaseArrives? || e.LeaseForRelease? || e.ReleaseSettles? || t.notices == s.notices)
  {
    hide Inv, Refs, StartOperation, ResumeAttach, ArriveLease, StepRefs;
    InvGivesRefs(s);
    match e {
      case Start(o) =>
        match s.operations[o].kind {
          case Attach(_) => StartAttachFrame(s, o);
          case Call(_, _) => StartCallFrame(s, o);
          case _ => StartLeavingFrame(s, o);
        }
      case AttachResumes(o) =>
        OperationFacts(s, o);
        ResumeFrame(s, o);
      case LeaseArrives(o) =>
        HandleInRange(s, s.operations[o].step.attachment);
        ArriveFrame(s, o, s.operations[o].step.attachment);
      case _ => OtherUntouchedFields(s, e);
    }
  }

  lemma OtherUntouchedFields(s: Router, e: Event)
    requires Inv(s) && Enabled(s, e) && !e.Start? && !e.AttachResumes? && !e.LeaseArrives?
    ensures var t := Next(s, e);
            && t.deliveries == s.deliveries
            && (e.HandleOpens? || e.Invalidate? || e.RemovalClosed? || e.CloseHandlesSettled? || t.hostedSessions == s.hostedSessions)
            && (e.LeaseForRelease? || e.ReleaseSettles? || e.CloseHandlesSettled? || t.attachmentsByClient == s.attachmentsByClient)
            && (e.AcquireReturns? || e.SessionResolves? || e.AcquiredClosed? || e.HandleOpens?
                || (t.opens == s.opens && t.openingSessions == s.openingSessions))
            && (e.Close? || e.CloseOperationsSettled? || e.CloseAttachmentsSettled? || e.CloseHandlesSettled?
                || t.shutdown == s.shutdown)
            && (e.BeginClosing? || t.closing == s.closing)
            && (e.Remove? || e.RemovalReleased? || e.RemovalClosed? || t.removals == s.removals)
            && (e.LeaseArrives? || e.LeaseForRelease? || e.ReleaseSettles? || t.notices == s.notices)
  {
    hide Inv, Refs, Enabled, Next;
    InvGivesRefs(s);
    if e.Enqueue? || e.AttachPublished? || e.ReleaseAwaited? {
      EnqueueKeepsOpening(s, e);
    }
    if e.CurrentReleased? {
      SwitchFrame(s, e);
    } else if e.LeaseForRelease? || e.ReleaseSettles? {
      ReleaseFrame(s, e);
    } else if e.Enqueue? || e.AcquireReturns? || e.AttachPublished? || e.ReleaseAwaited? {
      QueueFrame(s, e);
    } else if e.LeaseSettles? || e.CallSettles? || e.Drained? || e.ClearPublished? {
      AttachmentFrame(s, e);
    } else if e.BeginClosing? || e.Close? || e.CloseOperationsSettled? || e.CloseAttachmentsSettled? || e.CloseHandlesSettled? {
      ShutdownFrame(s, e);
    } else {
      SessionFrame(s, e);
    }
  }

  lemma EnqueueKeepsOpening(s: Router, e: Event)
    requires Refs(s) && Enabled(s, e) && (e.Enqueue? || e.AttachPublished? || e.ReleaseAwaited?)
    ensures Next(s, e).openingSessions == s.openingSessions
  {
    hide AttachmentRefs, ValuesBelow, OperationRefs, OpenRefs, RemovalRefs;
  }
}
