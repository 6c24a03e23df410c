/** Calls and the leases they are delivered to. */
module SessionRouterCalls {
  import opened Wrappers
  import opened SessionRouterSpec
  import opened SessionRouterProof
  import opened SessionRouterTheorems
  import opened SessionRouterHistory

  // ---- every call reaches the lease it names ---------------------------------------------------

  /** The call named this attachment and its session, and the attachment is its own client's. */
  predicate Addressed(d: Delivery, operations: seq<Operation>, attachments: seq<Attachment>, handles: seq<Handle>) {
    && d.call < |operations| && d.receiver < |attachments| && attachments[d.receiver].handle < |handles|
    && operations[d.call].kind == Call(handles[attachments[d.receiver].handle].id, d.receiver)
    && attachments[d.receiver].client == operations[d.call].client && attachments[d.receiver].lease
  }

  predicate AllAddressed(s: Router) {
    forall i {:trigger s.deliveries[i]} :: 0 <= i < |s.deliveries| ==>
      Addressed(s.deliveries[i], s.operations, s.attachments, s.handles)
  }

  lemma AddressedContinues(d: Delivery, s: Router, t: Router)
    requires Addressed(d, s.operations, s.attachments, s.handles) && Continues(s, t)
    ensures Addressed(d, t.operations, t.attachments, t.handles)
  {
    assert AttachmentContinues(s.attachments[d.receiver], t.attachments[d.receiver]);
    assert t.operations[d.call].kind == s.operations[d.call].kind;
    assert t.handles[s.attachments[d.receiver].handle].id == s.handles[s.attachments[d.receiver].handle].id;
  }

  /** What `requireAttachment` lets through. */
  predicate Admits(s: Router, o: OperationId)
    requires Refs(s) && o < |s.operations| && s.operations[o].kind.Call?
  {
    var op := s.operations[o];
    && !Barred(s, op.client) && Lookup(s.attachmentsByClient, op.client) == Some(op.kind.target)
    && s.handles[s.attachments[op.kind.target].handle].id == op.kind.session
  }

  lemma CallStep(s: Router, o: OperationId)
    requires Refs(s) && o < |s.operations| && s.operations[o].kind.Call?
    ensures var t, a := StartOperation(s, o), s.operations[o].kind.target;
            if Admits(s, o) then
              && a < |s.attachments| && t.deliveries == s.deliveries + [Delivery(o, a, a)]
              && t.attachments == s.attachments[a := s.attachments[a].(calls := s.attachments[a].calls + {o})]
            else t.deliveries == s.deliveries && t.attachments == s.attachments
  {
    hide AttachmentRefs, OperationRefs, OpenRefs, RemovalRefs, Barred, Finish;
    FinishFrame(s, o);
  }

  lemma AdmittedIsAddressed(s: Router, o: OperationId)
    requires Inv(s) && o < |s.operations| && s.operations[o].kind.Call? && Admits(s, o)
    ensures Addressed(Delivery(o, s.operations[o].kind.target, s.operations[o].kind.target), s.operations, s.attachments, s.handles)
  {
    var a := s.operations[o].kind.target;
    assert s.attachmentsByClient[s.operations[o].client] == a;
    HandleInRange(s, a);
    hide Members, Hosted, OpeningEntries, AllOwned, Openers, Chain, Previous, TailEntries, Tails, AllConsistent, NoOrphans,
         AllQueueDrained, Delivered, AttachmentRefs, ValuesBelow, OperationRefs, OpenRefs, RemovalRefs;
  }

  lemma StepKeepsAddressed(s: Router, e: Event)
    requires Inv(s) && Enabled(s, e) && AllAddressed(s)
    ensures AllAddressed(Next(s, e))
  {
    var t := Next(s, e);
    StepContinues(s, e);
    UntouchedFields(s, e);
    InvGivesRefs(s);
    if e.Start? && s.operations[e.op].kind.Call? {
      CallStep(s, e.op);
      if Admits(s, e.op) { AdmittedIsAddressed(s, e.op); }
    } else if e.Start? {
      StartKeepsDeliveries(s, e.op);
    }
    hide Inv, Refs, Next, Enabled, Continues, Admits, Addressed;
    forall i | 0 <= i < |t.deliveries|
      ensures Addressed(t.deliveries[i], t.operations, t.attachments, t.handles)
    {
      assert i < |s.deliveries| ==> t.deliveries[i] == s.deliveries[i];
      AddressedContinues(t.deliveries[i], s, t);
    }
  }

  lemma StartKeepsDeliveries(s: Router, o: OperationId)
    requires Refs(s) && o < |s.operations| && !s.operations[o].kind.Call?
    ensures StartOperation(s, o).deliveries == s.deliveries
  {
    if s.operations[o].kind.Attach? { StartAttachFrame(s, o); } else { StartLeavingFrame(s, o); }
  }

  lemma {:induction false} RunKeepsAddressed(s: Router, events: seq<Event>, t: Router)
    requires Inv(s) && AllAddressed(s) && Execute(s, events) == Some(t)
    ensures AllAddressed(t)
    decreases |events|
  {
    hide Inv, Next, Enabled, AllAddressed;
    if events != [] {
      Preserved(s, events[0]);
      StepKeepsAddressed(s, events[0]);
      RunKeepsAddressed(Next(s, events[0]), events[1..], t);
    }
  }

  /** Over the whole run a call is delivered only to the attachment it is addressed to: the operation
      named it, by id and by the session its handle serves, it is the caller's own, and it holds a lease. */
  lemma CallsReachTheirTarget(events: seq<Event>, s: Router, i: nat)
    requires Reaches(events, s) && i < |s.deliveries|
    ensures var d := s.deliveries[i];
            && d.call < |s.operations| && d.receiver < |s.attachments| && s.attachments[d.receiver].handle < |s.handles|
            && s.operations[d.call].kind == Call(s.handles[s.attachments[d.receiver].handle].id, d.receiver)
            && s.attachments[d.receiver].client == s.operations[d.call].client
            && s.attachments[d.receiver].lease && s.attachments[d.receiver].acquiring.Leased?
  {
    InitialInv();
    RunKeepsAddressed(Initial(), events, s);
    ReachedKeepsInv(events, s);
    hide Inv;
    assert Addressed(s.deliveries[i], s.operations, s.attachments, s.handles);
    AttachmentFacts(s, s.deliveries[i].receiver);
  }

  // ---- leases released under a call ------------------------------------------------------------

  /** `release` has been called on the lease while calls are out on it. */
  predicate Under(a: Attachment) {
    a.releaseCalls == 1 && a.calls != {}
  }

  /** A call is admitted to the attachment while its lease is being released. */
  predicate AdmitsWhileReleasing(s: Router, e: Event, a: AttachmentId)
    requires Refs(s) && Enabled(s, e) && a < |s.attachments|
  {
    && e.Start? && s.operations[e.op].kind.Call? && s.operations[e.op].kind.target == a && Admits(s, e.op)
    && s.attachments[a].release.phase == Releasing
  }

  /** `release` is called although calls are out, admitted after the release took stock of the calls to
      wait for. */
  predicate ReleasesUnderCalls(s: Router, e: Event, a: AttachmentId)
    requires a < |s.attachments|
  {
    && ((e == Drained(a) && s.attachments[a].lease) || (e == LeaseForRelease(a) && s.attachments[a].acquiring.Leased?))
    && s.attachments[a].calls != {}
  }

  predicate SameBooks(before: seq<Attachment>, after: seq<Attachment>) {
    && |before| <= |after|
    && (forall a {:trigger after[a]} :: 0 <= a < |before| ==>
          after[a].calls == before[a].calls && after[a].releaseCalls == before[a].releaseCalls)
    && forall a {:trigger after[a]} :: |before| <= a < |after| ==> after[a].calls == {}
  }

  lemma ChangeKeepsBooks(attachments: seq<Attachment>, a: AttachmentId, t: Attachment)
    requires a < |attachments| && t.calls == attachments[a].calls && t.releaseCalls == attachments[a].releaseCalls
    ensures SameBooks(attachments, attachments[a := t])
  {
  }

  lemma ClearKeepsBooks(s: Router, a: AttachmentId, ok: bool)
    requires a < |s.attachments| && s.attachments[a].handle < |s.handles|
    ensures SameBooks(s.attachments, Clear(s, a, ok).attachments)
  {
    ChangeKeepsBooks(s.attachments, a, Clear(s, a, ok).attachments[a]);
  }

  lemma StartedKeepBooks(s: Router, targets: set<AttachmentId>)
    ensures SameBooks(s.attachments, StartReleases(s, targets).attachments)
  {
  }

  lemma StartReleaseKeepsBooks(s: Router, a: AttachmentId, publish: bool, o: OperationId, step: Step)
    requires a < |s.attachments| && o < |s.operations|
    ensures SameBooks(s.attachments, At(StartRelease(s, a, publish, Some(o)), o, step).attachments)
  {
    ChangeKeepsBooks(s.attachments, a, Begun(s.attachments[a], publish, Some(o)));
    hide Begun, SameBooks;
  }

  lemma LeavingKeepsBooks(s: Router, o: OperationId)
    requires Refs(s) && o < |s.operations| && !s.operations[o].kind.Call?
    ensures SameBooks(s.attachments, StartOperation(s, o).attachments)
  {
    var op := s.operations[o];
    var current := Lookup(s.attachmentsByClient, op.client);
    assert current.Some? ==> current.value < |s.attachments|;
    assert SameBooks(s.attachments, s.attachments);
    if op.kind.Attach? {
      StartAttachFrame(s, o);
      hide AttachmentRefs, ValuesBelow, OperationRefs, OpenRefs, RemovalRefs, StartOperation, SameBooks;
    } else {
      hide AttachmentRefs, ValuesBelow, OperationRefs, OpenRefs, RemovalRefs, Finish, StartRelease, At, SameBooks;
      FinishFrame(s, o);
      if current.Some? {
        StartReleaseKeepsBooks(s, current.value, op.kind.Detach?, o, AwaitRelease(current.value));
      }
    }
  }

  lemma ResumeKeepsBooks(s: Router, o: OperationId)
    requires Refs(s) && o < |s.operations| && s.operations[o].step.AwaitHosted?
    requires StepRefs(s.operations[o].step, |s.opens|, |s.handles|, |s.attachments|)
    ensures SameBooks(s.attachments, ResumeAttach(s, o).attachments)
  {
    var step := s.operations[o].step;
    assert SameBooks(s.attachments, s.attachments);
    hide Refs, Finish, StartRelease, At, CreateAttachment, SameBooks;
    FinishFrame(s, o);
    if step.hosted.Some? {
      CreateKeepsBooks(s, o, step.hosted.value);
      if step.current.Some? {
        StartReleaseKeepsBooks(s, step.current.value, false, o, AwaitCurrent(step.hosted.value, step.current.value));
      }
    }
  }

  lemma CreateKeepsBooks(s: Router, o: OperationId, h: HandleId)
    requires o < |s.operations| && h < |s.handles|
    ensures SameBooks(s.attachments, CreateAttachment(s, o, h).attachments)
  {
  }

  lemma SwitchKeepsBooks(s: Router, e: Event)
    requires Inv(s) && Enabled(s, e) && e.CurrentReleased?
    ensures SameBooks(s.attachments, Next(s, e).attachments)
  {
    assert SameBooks(s.attachments, s.attachments);
    StepHandleInRange(s, e.op);
    InvGivesRefs(s);
    hide Inv, Refs, Finish, CreateAttachment, SameBooks;
    FinishFrame(s, e.op);
    CreateKeepsBooks(s, e.op, s.operations[e.op].step.handle);
  }

  lemma ArriveKeepsBooks(s: Router, o: OperationId, a: AttachmentId)
    requires Refs(s) && o < |s.operations| && s.operations[o].step == AwaitLease(a) && a < |s.attachments|
    requires s.attachments[a].handle < |s.handles|
    ensures SameBooks(s.attachments, ArriveLease(s, o).attachments)
  {
    var taken := s.attachments[a].(lease := true);
    assert SameBooks(s.attachments, s.attachments);
    ChangeKeepsBooks(s.attachments, a, taken);
    ChangeKeepsBooks(s.attachments, a, Begun(taken, true, Some(o)));
    assert s.attachments[a := taken][a := Begun(taken, true, Some(o))] == s.attachments[a := Begun(taken, true, Some(o))];
    hide AttachmentRefs, ValuesBelow, OperationRefs, OpenRefs, RemovalRefs, Finish, Barred, Begun, SameBooks;
    FinishFrame(DropFromHandle(s, a), o);
  }

  lemma InvalidatingKeepsBooks(s: Router, h: HandleId)
    requires Refs(s) && Enabled(s, Invalidate(h))
    ensures SameBooks(s.attachments, Next(s, Invalidate(h)).attachments)
  {
    StartedKeepBooks(s.(hostedSessions := s.hostedSessions - {s.handles[h].id}), s.handles[h].attachments);
    assert SameBooks(s.attachments, s.attachments);
    hide Refs, StartReleases, SameBooks;
  }

  lemma RemovingKeepsBooks(s: Router, session: SessionId)
    requires Refs(s)
    ensures SameBooks(s.attachments, Next(s, Remove(session)).attachments)
  {
    if session in s.hostedSessions {
      assert s.hostedSessions[session] < |s.handles|;
      StartedKeepBooks(s, s.handles[s.hostedSessions[session]].attachments);
    }
    assert SameBooks(s.attachments, s.attachments);
    hide AttachmentRefs, ValuesBelow, OperationRefs, OpenRefs, RemovalRefs, StartReleases, SameBooks;
  }

  lemma ShuttingDownKeepsBooks(s: Router)
    requires Refs(s) && Enabled(s, CloseOperationsSettled)
    ensures SameBooks(s.attachments, Next(s, CloseOperationsSettled).attachments)
  {
    StartedKeepBooks(s, AllAttachments(s));
    hide Refs, StartReleases, SameBooks, AllAttachments, Enabled;
  }

  lemma BegunSessionsKeepBooks(s: Router, e: Event)
    requires Refs(s) && Enabled(s, e) && (e.Invalidate? || e.Remove? || e.CloseOperationsSettled?)
    ensures SameBooks(s.attachments, Next(s, e).attachments)
  {
    hide Refs, Next, SameBooks, Enabled;
    match e {
      case Invalidate(h) => InvalidatingKeepsBooks(s, h);
      case Remove(session) => RemovingKeepsBooks(s, session);
      case CloseOperationsSettled => ShuttingDownKeepsBooks(s);
    }
  }

  lemma SettlingKeepsBooks(s: Router, e: Event)
    requires Refs(s) && Enabled(s, e) && (e.LeaseSettles? || e.ClearPublished?)
    ensures SameBooks(s.attachments, Next(s, e).attachments)
  {
    ChangeKeepsBooks(s.attachments, e.att, Next(s, e).attachments[e.att]);
    hide AttachmentRefs, ValuesBelow, OperationRefs, OpenRefs, RemovalRefs, SameBooks;
  }

  /** Steps other than the four that admit or settle calls or call `release`. */
  lemma OtherStepKeepsBooks(s: Router, e: Event)
    requires Inv(s) && Enabled(s, e) && !e.CallSettles? && !e.Drained? && !e.LeaseForRelease?
    requires e.Start? ==> !s.operations[e.op].kind.Call?
    ensures SameBooks(s.attachments, Next(s, e).attachments)
  {
    assert SameBooks(s.attachments, s.attachments);
    InvGivesRefs(s);
    hide Inv, Refs, SameBooks, StartOperation, ResumeAttach, ArriveLease, StepRefs;
    match e {
      case Start(o) => LeavingKeepsBooks(s, o);
      case AttachResumes(o) =>
        OperationFacts(s, o);
        ResumeKeepsBooks(s, o);
      case LeaseArrives(o) =>
        HandleInRange(s, s.operations[o].step.attachment);
        ArriveKeepsBooks(s, o, s.operations[o].step.attachment);
      case CurrentReleased(_) => SwitchKeepsBooks(s, e);
      case ReleaseSettles(a, ok) =>
        HandleInRange(s, a);
        ClearKeepsBooks(s, a, ok);
      case _ => RemainingStepsKeepBooks(s, e);
    }
  }

  lemma RemainingStepsKeepBooks(s: Router, e: Event)
    requires Inv(s) && Enabled(s, e) && !e.CallSettles? && !e.Drained? && !e.LeaseForRelease?
    requires !e.Start? && !e.AttachResumes? && !e.LeaseArrives? && !e.CurrentReleased? && !e.ReleaseSettles?
    ensures SameBooks(s.attachments, Next(s, e).attachments)
  {
    assert SameBooks(s.attachments, s.attachments);
    InvGivesRefs(s);
    hide Inv, Refs, SameBooks, Enabled, Next;
    if e.Invalidate? || e.Remove? || e.CloseOperationsSettled? {
      BegunSessionsKeepBooks(s, e);
    } else if e.LeaseSettles? || e.ClearPublished? {
      SettlingKeepsBooks(s, e);
    } else if e.Enqueue? || e.AcquireReturns? || e.AttachPublished? || e.ReleaseAwaited? {
      QueueFrame(s, e);
    } else if e.BeginClosing? || e.Close? || e.CloseAttachmentsSettled? || e.CloseHandlesSettled? {
      ShutdownFrame(s, e);
    } else {
      SessionFrame(s, e);
    }
  }

  /** A lease that is held and not yet cleared has been told to release exactly while it is releasing. */
  lemma ReleaseCalledIff(s: Router, a: AttachmentId)
    requires Inv(s) && a < |s.attachments|
    ensures !s.attachments[a].Cleared() ==> (s.attachments[a].releaseCalls == 1 <==> s.attachments[a].release.phase == Releasing)
    ensures s.attachments[a].releaseCalls <= 1
    ensures s.attachments[a].releaseCalls == 1 && s.attachments[a].release.starter.Some? ==> s.attachments[a].calls == {}
  {
    AttachmentFacts(s, a);
    hide Inv, Reachable;
  }

  lemma CallUnderIff(s: Router, o: OperationId, a: AttachmentId)
    requires Inv(s) && Enabled(s, Start(o)) && s.operations[o].kind.Call? && a < |s.attachments| && !Under(s.attachments[a])
    ensures Refs(s) && a < |Next(s, Start(o)).attachments|
    ensures Under(Next(s, Start(o)).attachments[a]) <==> AdmitsWhileReleasing(s, Start(o), a)
  {
    InvGivesRefs(s);
    CallStep(s, o);
    ReleaseCalledIff(s, a);
    if Admits(s, o) && s.operations[o].kind.target == a {
      AdmittedIsHeld(s, o);
      assert o in Next(s, Start(o)).attachments[a].calls;
    }
    hide Inv, Refs, Admits, StartOperation;
  }

  lemma AdmittedIsHeld(s: Router, o: OperationId)
    requires Inv(s) && o < |s.operations| && s.operations[o].kind.Call? && Admits(s, o)
    ensures s.operations[o].kind.target < |s.attachments| && !s.attachments[s.operations[o].kind.target].Cleared()
  {
    assert s.attachmentsByClient[s.operations[o].client] == s.operations[o].kind.target;
    hide Members, Hosted, OpeningEntries, AllOwned, Openers, Chain, Previous, TailEntries, Tails, AllConsistent, NoOrphans,
         AllQueueDrained, Delivered, AttachmentRefs, OperationRefs, OpenRefs, RemovalRefs;
  }

  lemma DrainedUnderIff(s: Router, b: AttachmentId, a: AttachmentId)
    requires Refs(s) && Enabled(s, Drained(b)) && s.attachments[b].releaseCalls == 0
    requires a < |s.attachments| && !Under(s.attachments[a])
    ensures |Next(s, Drained(b)).attachments| == |s.attachments|
    ensures Under(Next(s, Drained(b)).attachments[a]) <==> ReleasesUnderCalls(s, Drained(b), a)
  {
    hide Refs;
  }

  lemma CallSettlesUnder(s: Router, e: Event, a: AttachmentId)
    requires Refs(s) && Enabled(s, e) && e.CallSettles? && a < |s.attachments| && !Under(s.attachments[a])
    ensures |Next(s, e).attachments| == |s.attachments| && !Under(Next(s, e).attachments[a])
  {
    hide Refs;
  }

  lemma DrainingIsNotCalled(s: Router, b: AttachmentId)
    requires Inv(s) && b < |s.attachments| && s.attachments[b].release.phase == Draining
    ensures s.attachments[b].releaseCalls == 0
  {
    AttachmentFacts(s, b);
    hide Inv, Reachable, QueueDrained;
  }

  lemma SettlingUnderIff(s: Router, e: Event, a: AttachmentId)
    requires Inv(s) && Enabled(s, e) && (e.Drained? || e.CallSettles?)
    requires a < |s.attachments| && !Under(s.attachments[a])
    ensures |Next(s, e).attachments| == |s.attachments|
    ensures Under(Next(s, e).attachments[a]) <==> ReleasesUnderCalls(s, e, a)
  {
    InvGivesRefs(s);
    hide Inv, Refs, Next;
    if e.Drained? {
      DrainingIsNotCalled(s, e.att);
      DrainedUnderIff(s, e.att, a);
    } else {
      CallSettlesUnder(s, e, a);
    }
  }

  lemma ReleaseCallUnder(s: Router, b: AttachmentId, a: AttachmentId)
    requires a < |s.attachments| && b < |s.attachments| && s.attachments[b].releaseCalls == 0 && !Under(s.attachments[a])
    ensures |CallRelease(s, b).attachments| == |s.attachments|
    ensures Under(CallRelease(s, b).attachments[a]) <==> a == b && s.attachments[b].calls != {}
  {
  }

  lemma ClearUnder(s: Router, b: AttachmentId, a: AttachmentId)
    requires a < |s.attachments| && b < |s.attachments| && s.attachments[b].handle < |s.handles| && !Under(s.attachments[a])
    ensures |Clear(s, b, false).attachments| == |s.attachments| && !Under(Clear(s, b, false).attachments[a])
  {
  }

  lemma AwaitedUnderIff(s: Router, b: AttachmentId, a: AttachmentId)
    requires Inv(s) && Enabled(s, LeaseForRelease(b)) && a < |s.attachments| && !Under(s.attachments[a])
    ensures |Next(s, LeaseForRelease(b)).attachments| == |s.attachments|
    ensures Under(Next(s, LeaseForRelease(b)).attachments[a]) <==> ReleasesUnderCalls(s, LeaseForRelease(b), a)
  {
    hide Inv, Refs, Clear, CallRelease, Next, Under, Enabled;
    InvGivesRefs(s);
    AwaitedRelease(s, b);
    ReleaseShape(s, LeaseForRelease(b));
    if s.attachments[b].acquiring.Leased? {
      ReleaseCallUnder(s, b, a);
    } else {
      ClearUnder(s, b, a);
    }
  }

  lemma AwaitedRelease(s: Router, b: AttachmentId)
    requires Inv(s) && Enabled(s, LeaseForRelease(b))
    ensures b < |s.attachments| && s.attachments[b].releaseCalls == 0 && s.attachments[b].handle < |s.handles|
    ensures |Clear(s, b, false).attachments| == |s.attachments|
  {
    AttachmentFacts(s, b);
    hide Inv, Reachable, QueueDrained;
  }

  lemma OtherStepUnder(s: Router, e: Event, a: AttachmentId)
    requires Inv(s) && Enabled(s, e) && !e.CallSettles? && !e.Drained? && !e.LeaseForRelease?
    requires e.Start? ==> !s.operations[e.op].kind.Call?
    requires a < |s.attachments| && !Under(s.attachments[a])
    ensures a < |Next(s, e).attachments| && !Under(Next(s, e).attachments[a])
  {
    InvGivesRefs(s);
    hide Inv, Refs, Next;
    OtherStepKeepsBooks(s, e);
    assert Next(s, e).attachments[a].calls == s.attachments[a].calls;
  }

  lemma StepUnderIff(s: Router, e: Event, a: AttachmentId)
    requires Inv(s) && Enabled(s, e) && a < |s.attachments| && !Under(s.attachments[a])
    ensures Refs(s) && a < |Next(s, e).attachments|
    ensures Under(Next(s, e).attachments[a]) <==> AdmitsWhileReleasing(s, e, a) || ReleasesUnderCalls(s, e, a)
  {
    hide Inv, Refs, Next, Admits, Under;
    InvGivesRefs(s);
    if e.Start? && s.operations[e.op].kind.Call? {
      CallUnderIff(s, e.op, a);
    } else if e.Drained? || e.CallSettles? {
      SettlingUnderIff(s, e, a);
    } else if e.LeaseForRelease? {
      AwaitedUnderIff(s, e.att, a);
    } else {
      OtherStepUnder(s, e, a);
    }
  }

  /** Exactly two kinds of step bring a lease under release and a call on it together: a call is admitted
      to the current attachment while its lease is being released, or `release` is called while calls
      are out that were admitted since the release began. Neither happens to a release that the
      client's own queue began. */
  lemma ReleasedUnderACallIff(s: Router, e: Event, a: AttachmentId)
    requires Inv(s) && Enabled(s, e) && a < |s.attachments| && !Under(s.attachments[a])
    ensures Refs(s) && a < |Next(s, e).attachments|
    ensures Under(Next(s, e).attachments[a]) <==> AdmitsWhileReleasing(s, e, a) || ReleasesUnderCalls(s, e, a)
    ensures e == Drained(a) ==> s.attachments[a].calls !! s.attachments[a].release.waiting
    ensures Under(Next(s, e).attachments[a]) ==> Next(s, e).attachments[a].release.starter.None?
  {
    StepUnderIff(s, e, a);
    Preserved(s, e);
    assert e == Drained(a) ==> s.attachments[a].calls !! s.attachments[a].release.waiting;
    hide Inv, Refs, Next, Enabled, Admits, AdmitsWhileReleasing, ReleasesUnderCalls;
    ReleaseCalledIff(Next(s, e), a);
  }

  /** So a run ends with a lease released under a call only if one of those steps was taken. */
  lemma {:induction false} OnlyTheseStepsReleaseUnderACall(s: Router, events: seq<Event>, t: Router, a: AttachmentId)
    returns (n: nat, u: Router)
    requires Inv(s) && Execute(s, events) == Some(t) && a < |t.attachments| && Under(t.attachments[a])
    requires a < |s.attachments| ==> !Under(s.attachments[a])
    ensures n < |events| && Execute(s, events[..n]) == Some(u) && Inv(u) && Refs(u) && Enabled(u, events[n])
    ensures a < |u.attachments| && (AdmitsWhileReleasing(u, events[n], a) || ReleasesUnderCalls(u, events[n], a))
    decreases |events|
  {
    hide Inv, Refs, Next, Enabled, AdmitsWhileReleasing, ReleasesUnderCalls;
    var e, rest := events[0], events[1..];
    InvGivesRefs(s);
    Preserved(s, e);
    if a < |s.attachments| {
      ReleasedUnderACallIff(s, e, a);
    } else {
      NewAttachmentHasNoCalls(s, e, a);
    }
    if a < |Next(s, e).attachments| && Under(Next(s, e).attachments[a]) {
      n, u := 0, s;
      assert events[..0] == [];
    } else {
      n, u := OnlyTheseStepsReleaseUnderACall(Next(s, e), rest, t, a);
      n := n + 1;
      assert events[..n][1..] == rest[..n - 1];
    }
  }

  lemma NewAttachmentHasNoCalls(s: Router, e: Event, a: AttachmentId)
    requires Inv(s) && Enabled(s, e) && |s.attachments| <= a && Refs(s)
    ensures a < |Next(s, e).attachments| ==> !Under(Next(s, e).attachments[a])
  {
    hide Inv, Refs, Next, Admits;
    if e.Start? && s.operations[e.op].kind.Call? {
      CallAddsNoAttachment(s, e.op);
    } else if e.Drained? || e.CallSettles? || e.LeaseForRelease? {
      SettlingAddsNoAttachment(s, e);
    } else {
      OtherStepKeepsBooks(s, e);
    }
  }

  lemma CallAddsNoAttachment(s: Router, o: OperationId)
    requires Refs(s) && Enabled(s, Start(o)) && s.operations[o].kind.Call?
    ensures |Next(s, Start(o)).attachments| == |s.attachments|
  {
    CallStep(s, o);
    hide Refs, Admits, StartOperation;
  }

  lemma DrainingAddsNoAttachment(s: Router, e: Event)
    requires Refs(s) && Enabled(s, e) && (e.Drained? || e.CallSettles?)
    ensures |Next(s, e).attachments| == |s.attachments|
  {
    hide Refs;
  }

  lemma SettlingAddsNoAttachment(s: Router, e: Event)
    requires Inv(s) && Enabled(s, e) && (e.Drained? || e.CallSettles? || e.LeaseForRelease?)
    ensures |Next(s, e).attachments| == |s.attachments|
  {
    InvGivesRefs(s);
    if e.LeaseForRelease? {
      HandleInRange(s, e.att);
      ReleaseShape(s, e);
      ClearKeepsCount(s, e.att, false);
    } else {
      DrainingAddsNoAttachment(s, e);
    }
    hide Inv, Refs, Clear, CallRelease, Next;
  }

  lemma EndsUnderACall(events: seq<Event>, s: Router, a: AttachmentId) returns (n: nat, u: Router)
    requires Reaches(events, s) && a < |s.attachments| && Under(s.attachments[a])
    ensures n < |events| && Reaches(events[..n], u) && Refs(u) && Enabled(u, events[n])
    ensures a < |u.attachments| && (AdmitsWhileReleasing(u, events[n], a) || ReleasesUnderCalls(u, events[n], a))
    ensures s.attachments[a].release.starter.None?
  {
    InitialInv();
    ReachedKeepsInv(events, s);
    ReleaseCalledIff(s, a);
    n, u := OnlyTheseStepsReleaseUnderACall(Initial(), events, s, a);
  }

  /** Client 0's session has terminated and been invalidated. */
  lemma TerminatedRun() returns (events: seq<Event>, s: Router)
    ensures Reaches(events, s)
    ensures s == Initial().(
      notices := s.notices,
      attachmentsByClient := map[0 := 0],
      handles := [Handle(1, {0}, false, true)],
      attachments := [Attachment(0, 0, 0, {}, Leased, true, Release(Draining, {}, true, None, true), 0)],
      operations := [Operation(0, Attach(1), None, Finished)],
      opens := [Open(1, Opened(0))])
  {
    hide Refs, Reaches;
    events, s := AttachedRun();
    events, s := Extend(events, s, Terminates(0));
    events, s := Extend(events, s, Invalidate(0));
    assert s.attachments == [Attachment(0, 0, 0, {}, Leased, true, Release(Draining, {}, true, None, true), 0)];
  }

  /** No removal is needed: a terminated session's attachments are released outside the queue as well. */
  lemma TerminationReleasesUnderACall() returns (events: seq<Event>, s: Router)
    ensures Reaches(events, s) && |s.attachments| == 1 && Under(s.attachments[0]) && s.removals == []
  {
    hide Refs, Reaches;
    events, s := TerminatedRun();
    events, s := Extend(events, s, Enqueue(0, Call(1, 0)));
    events, s := Extend(events, s, Start(1));
    assert 1 in s.attachments[0].calls;
    events, s := Extend(events, s, Drained(0));
  }
}
