/** How leases, calls and releases turn out is how the environment has said. */
module SessionRouterLeases {
  import opened Wrappers
  import opened SessionRouterSpec
  import opened SessionRouterProof
  import opened SessionRouterTheorems
  import opened SessionRouterHistory
  import opened SessionRouterNotices
  import opened SessionRouterCalls

  // ---- what a step does to a lease and to how its release went ---------------------------------

  /** The step makes the release of this attachment fail. */
  predicate Sours(e: Event, a: AttachmentId) {
    e == ReleaseSettles(a, false) || e == ClearPublished(a, false)
  }

  /** The lease is what it was unless it settles now, and a release goes badly only for a reason. */
  predicate Fares(e: Event, a: AttachmentId, before: Attachment, after: Attachment) {
    && after.acquiring == (if e == LeaseSettles(a, true) then Leased
                           else if e == LeaseSettles(a, false) then Refused else before.acquiring)
    && (before.release.ok && !Sours(e, a) && !before.acquiring.Refused? ==> after.release.ok)
    && (Sours(e, a) || (before.Cleared() && !before.release.ok) ==> !after.release.ok)
    && (after.Cleared() ==> before.Cleared() || ((e.LeaseForRelease? || e.ReleaseSettles?) && e.att == a))
  }

  predicate AllFare(e: Event, before: seq<Attachment>, after: seq<Attachment>) {
    && |before| <= |after|
    && (forall a {:trigger after[a]} :: 0 <= a < |before| ==> Fares(e, a, before[a], after[a]))
    && (forall a {:trigger after[a]} :: |before| <= a < |after| ==> after[a].acquiring.InFlight? && after[a].release.ok)
  }

  /** The event concerns no lease and no end of a release. */
  predicate Neutral(e: Event) {
    !e.LeaseSettles? && !e.ReleaseSettles? && !e.ClearPublished? && !e.LeaseForRelease?
  }

  lemma ChangeFares(e: Event, attachments: seq<Attachment>, b: AttachmentId, t: Attachment)
    requires Neutral(e) || e.att == b
    requires b < |attachments| && Fares(e, b, attachments[b], t)
    ensures AllFare(e, attachments, attachments[b := t])
  {
  }

  lemma SameFares(e: Event, attachments: seq<Attachment>)
    requires Neutral(e)
    ensures AllFare(e, attachments, attachments)
  {
  }

  lemma StartReleaseFares(e: Event, s: Router, a: AttachmentId, publish: bool, o: OperationId, step: Step)
    requires Neutral(e) && a < |s.attachments| && o < |s.operations|
    ensures AllFare(e, s.attachments, At(StartRelease(s, a, publish, Some(o)), o, step).attachments)
  {
    ChangeFares(e, s.attachments, a, Begun(s.attachments[a], publish, Some(o)));
    hide AllFare;
  }

  lemma StartReleasesFare(e: Event, s: Router, targets: set<AttachmentId>)
    requires Neutral(e)
    ensures AllFare(e, s.attachments, StartReleases(s, targets).attachments)
  {
    hide Fares, Begun;
    var after := StartReleases(s, targets).attachments;
    forall a {:trigger after[a]} | 0 <= a < |s.attachments| ensures Fares(e, a, s.attachments[a], after[a]) {
      BegunFares(e, a, s.attachments[a]);
    }
  }

  lemma BegunFares(e: Event, a: AttachmentId, before: Attachment)
    requires Neutral(e)
    ensures Fares(e, a, before, Begun(before, true, None)) && Fares(e, a, before, before)
  {
  }

  lemma CreateFares(e: Event, s: Router, o: OperationId, h: HandleId)
    requires Neutral(e) && o < |s.operations| && h < |s.handles|
    ensures AllFare(e, s.attachments, CreateAttachment(s, o, h).attachments)
  {
  }

  lemma CallFares(e: Event, attachments: seq<Attachment>, b: AttachmentId, calls: set<OperationId>)
    requires Neutral(e) && b < |attachments|
    ensures AllFare(e, attachments, attachments[b := attachments[b].(calls := calls)])
  {
    ChangeFares(e, attachments, b, attachments[b].(calls := calls));
  }

  lemma StartFares(s: Router, o: OperationId)
    requires Refs(s) && o < |s.operations|
    ensures AllFare(Start(o), s.attachments, StartOperation(s, o).attachments)
  {
    var op := s.operations[o];
    var current := Lookup(s.attachmentsByClient, op.client);
    assert current.Some? ==> current.value < |s.attachments|;
    SameFares(Start(o), s.attachments);
    FinishFrame(s, o);
    if op.kind.Attach? {
      StartAttachFrame(s, o);
    } else if current.Some? {
      StartReleaseFares(Start(o), s, current.value, op.kind.Detach?, o, AwaitRelease(current.value));
      CallFares(Start(o), s.attachments, current.value, s.attachments[current.value].calls + {o});
    }
    hide AttachmentRefs, ValuesBelow, OperationRefs, OpenRefs, RemovalRefs, Barred, StartRelease, AllFare, Finish, At, Acquire;
  }

  lemma ResumeFares(s: Router, o: OperationId)
    requires Refs(s) && o < |s.operations| && s.operations[o].step.AwaitHosted?
    requires StepRefs(s.operations[o].step, |s.opens|, |s.handles|, |s.attachments|)
    ensures AllFare(AttachResumes(o), s.attachments, ResumeAttach(s, o).attachments)
  {
    var step := s.operations[o].step;
    SameFares(AttachResumes(o), s.attachments);
    hide Refs, Finish, StartRelease, At, CreateAttachment, AllFare, Barred;
    FinishFrame(s, o);
    if step.hosted.Some? {
      CreateFares(AttachResumes(o), s, o, step.hosted.value);
      if step.current.Some? {
        StartReleaseFares(AttachResumes(o), s, step.current.value, false, o, AwaitCurrent(step.hosted.value, step.current.value));
      }
    }
  }

  lemma SwitchFares(s: Router, e: Event)
    requires Inv(s) && Enabled(s, e) && e.CurrentReleased?
    ensures AllFare(e, s.attachments, Next(s, e).attachments)
  {
    SameFares(e, s.attachments);
    StepHandleInRange(s, e.op);
    InvGivesRefs(s);
    hide Inv, Refs, Finish, CreateAttachment, AllFare;
    FinishFrame(s, e.op);
    CreateFares(e, s, e.op, s.operations[e.op].step.handle);
  }

  lemma ArriveFares(s: Router, o: OperationId, a: AttachmentId)
    requires Refs(s) && o < |s.operations| && s.operations[o].step == AwaitLease(a) && a < |s.attachments|
    requires s.attachments[a].handle < |s.handles|
    ensures AllFare(LeaseArrives(o), s.attachments, ArriveLease(s, o).attachments)
  {
    var taken := s.attachments[a].(lease := true);
    SameFares(LeaseArrives(o), s.attachments);
    ChangeFares(LeaseArrives(o), s.attachments, a, taken);
    ChangeFares(LeaseArrives(o), s.attachments, a, Begun(taken, true, Some(o)));
    assert s.attachments[a := taken][a := Begun(taken, true, Some(o))] == s.attachments[a := Begun(taken, true, Some(o))];
    hide AttachmentRefs, ValuesBelow, OperationRefs, OpenRefs, RemovalRefs, Finish, Barred, Begun, AllFare;
    FinishFrame(DropFromHandle(s, a), o);
  }

  lemma ManyFare(s: Router, e: Event)
    requires Refs(s) && Enabled(s, e) && (e.Invalidate? || e.Remove? || e.CloseOperationsSettled?)
    ensures AllFare(e, s.attachments, Next(s, e).attachments)
  {
    SameFares(e, s.attachments);
    hide AttachmentRefs, OperationRefs, OpenRefs, RemovalRefs, StartReleases, AllFare;
    match e {
      case Invalidate(h) =>
        var unhosted := s.(hostedSessions := s.hostedSessions - {s.handles[h].id});
        StartReleasesFare(e, unhosted, s.handles[h].attachments);
      case Remove(session) =>
        if session in s.hostedSessions {
          StartReleasesFare(e, s, s.handles[s.hostedSessions[session]].attachments);
        }
      case CloseOperationsSettled => StartReleasesFare(e, s, AllAttachments(s));
    }
  }

  lemma OneFares(s: Router, e: Event)
    requires Refs(s) && Enabled(s, e) && (e.LeaseSettles? || e.CallSettles? || e.Drained? || e.ClearPublished?)
    ensures AllFare(e, s.attachments, Next(s, e).attachments)
  {
    assert Fares(e, e.att, s.attachments[e.att], Next(s, e).attachments[e.att]) by { hide Refs; }
    ChangeFares(e, s.attachments, e.att, Next(s, e).attachments[e.att]);
    hide AttachmentRefs, ValuesBelow, OperationRefs, OpenRefs, RemovalRefs, AllFare, Fares;
  }

  lemma ClearFares(s: Router, e: Event, ok: bool)
    requires (e.LeaseForRelease? || e.ReleaseSettles?) && e.att < |s.attachments| && s.attachments[e.att].handle < |s.handles|
    requires !s.attachments[e.att].Cleared()
    requires e.ReleaseSettles? ==> ok == e.ok
    requires e.LeaseForRelease? ==> s.attachments[e.att].acquiring.Refused?
    ensures AllFare(e, s.attachments, Clear(s, e.att, ok).attachments)
  {
    ChangeFares(e, s.attachments, e.att, Clear(s, e.att, ok).attachments[e.att]);
    hide AllFare;
  }

  lemma CallReleaseFares(s: Router, e: Event)
    requires e.LeaseForRelease? && e.att < |s.attachments| && !s.attachments[e.att].Cleared()
    ensures AllFare(e, s.attachments, CallRelease(s, e.att).attachments)
  {
    ChangeFares(e, s.attachments, e.att, CallRelease(s, e.att).attachments[e.att]);
    hide AllFare;
  }

  lemma EndFares(s: Router, e: Event)
    requires Inv(s) && Enabled(s, e) && (e.LeaseForRelease? || e.ReleaseSettles?)
    ensures AllFare(e, s.attachments, Next(s, e).attachments)
  {
    HandleInRange(s, e.att);
    InvGivesRefs(s);
    ReleaseShape(s, e);
    hide Inv, Refs, Next, Clear, CallRelease, AllFare;
    if e.LeaseForRelease? && s.attachments[e.att].acquiring.Leased? {
      CallReleaseFares(s, e);
    } else {
      ClearFares(s, e, e.ReleaseSettles? && e.ok);
    }
  }

  lemma StepFares(s: Router, e: Event)
    requires Inv(s) && Enabled(s, e)
    ensures Refs(s) && AllFare(e, s.attachments, Next(s, e).attachments)
  {
    InvGivesRefs(s);
    hide Inv, Refs, AllFare, StepRefs, StartOperation, ResumeAttach, ArriveLease;
    match e {
      case Start(o) => StartFares(s, o);
      case AttachResumes(o) =>
        OperationFacts(s, o);
        ResumeFares(s, o);
      case LeaseArrives(o) =>
        HandleInRange(s, s.operations[o].step.attachment);
        ArriveFares(s, o, s.operations[o].step.attachment);
      case _ => OtherFares(s, e);
    }
  }

  lemma OtherFares(s: Router, e: Event)
    requires Inv(s) && Enabled(s, e) && !e.Start? && !e.AttachResumes? && !e.LeaseArrives?
    ensures Refs(s) && AllFare(e, s.attachments, Next(s, e).attachments)
  {
    InvGivesRefs(s);
    hide Inv, Refs, AllFare, Next, Enabled;
    if e.Invalidate? || e.Remove? || e.CloseOperationsSettled? {
      ManyFare(s, e);
    } else if e.LeaseSettles? || e.CallSettles? || e.Drained? || e.ClearPublished? {
      OneFares(s, e);
    } else if e.LeaseForRelease? || e.ReleaseSettles? {
      EndFares(s, e);
    } else if e.CurrentReleased? {
      SwitchFares(s, e);
    } else {
      UntouchedBeginsNone(s, e, 0);
      SameFares(e, s.attachments);
    }
  }

  // ---- over every run --------------------------------------------------------------------------

  lemma LeaseSettlesInFlight(s: Router, e: Event, a: AttachmentId)
    requires Enabled(s, e) && a < |s.attachments| && (e == LeaseSettles(a, true) || e == LeaseSettles(a, false))
    ensures s.attachments[a].acquiring.InFlight?
  {
  }

  lemma NotYetThere(s: Router, e: Event, a: AttachmentId)
    requires Enabled(s, e) && a >= |s.attachments|
    ensures e != LeaseSettles(a, true) && e != LeaseSettles(a, false) && !Sours(e, a)
  {
  }

  /** What a lease has come to is what the session's handle answered. */
  lemma {:induction false} LeasedIff(s: Router, events: seq<Event>, t: Router, a: AttachmentId)
    requires Inv(s) && Execute(s, events) == Some(t) && a < |t.attachments|
    requires a < |s.attachments| ==> s.attachments[a].acquiring.InFlight?
    ensures t.attachments[a].acquiring.Leased? <==> LeaseSettles(a, true) in events
    ensures t.attachments[a].acquiring.Refused? <==> LeaseSettles(a, false) in events
    decreases |events|
  {
    if events != [] {
      var u := Next(s, events[0]);
      InvGivesRefs(s);
      hide Inv, Refs, Next, Enabled;
      Preserved(s, events[0]);
      StepFares(s, events[0]);
      assert events == [events[0]] + events[1..];
      if a >= |s.attachments| { NotYetThere(s, events[0], a); }
      if a < |u.attachments| && !u.attachments[a].acquiring.InFlight? {
        LeaseStaysSettled(u, events[1..], t, a);
      } else {
        LeasedIff(u, events[1..], t, a);
      }
    }
  }

  lemma {:induction false} LeaseStaysSettled(s: Router, events: seq<Event>, t: Router, a: AttachmentId)
    requires Inv(s) && Execute(s, events) == Some(t) && a < |s.attachments| && !s.attachments[a].acquiring.InFlight?
    ensures a < |t.attachments| && t.attachments[a].acquiring == s.attachments[a].acquiring
    ensures LeaseSettles(a, true) !in events && LeaseSettles(a, false) !in events
    decreases |events|
  {
    hide Inv, Refs, Next, Enabled;
    if events != [] {
      if events[0] == LeaseSettles(a, true) || events[0] == LeaseSettles(a, false) {
        LeaseSettlesInFlight(s, events[0], a);
      }
      InvGivesRefs(s);
      Preserved(s, events[0]);
      StepFares(s, events[0]);
      LeaseStaysSettled(Next(s, events[0]), events[1..], t, a);
      assert events == [events[0]] + events[1..];
    }
  }

  lemma SouringClears(s: Router, e: Event, a: AttachmentId)
    requires Inv(s) && Enabled(s, e) && Sours(e, a)
    ensures Refs(s) && a < |Next(s, e).attachments| && Next(s, e).attachments[a].Cleared()
  {
    InvGivesRefs(s);
    HandleInRange(s, a);
    hide Inv, Refs;
  }

  lemma {:induction false} StaysSour(s: Router, events: seq<Event>, t: Router, a: AttachmentId)
    requires Inv(s) && Execute(s, events) == Some(t)
    requires a < |s.attachments| && s.attachments[a].Cleared() && !s.attachments[a].release.ok
    ensures a < |t.attachments| && t.attachments[a].Cleared() && !t.attachments[a].release.ok
    decreases |events|
  {
    if events != [] {
      InvGivesRefs(s);
      hide Inv, Refs, Next, Enabled;
      Preserved(s, events[0]);
      StepFares(s, events[0]);
      StepContinues(s, events[0]);
      assert AttachmentContinues(s.attachments[a], Next(s, events[0]).attachments[a]);
      StaysSour(Next(s, events[0]), events[1..], t, a);
    }
  }

  lemma {:induction false} SouredIsSour(s: Router, events: seq<Event>, t: Router, a: AttachmentId, i: nat)
    requires Inv(s) && Execute(s, events) == Some(t) && i < |events| && Sours(events[i], a)
    ensures a < |t.attachments| && !t.attachments[a].release.ok
    decreases |events|
  {
    InvGivesRefs(s);
    Preserved(s, events[0]);
    if i == 0 {
      SouringClears(s, events[0], a);
      StepFares(s, events[0]);
      SouringTells(s, events[0], a);
      hide Inv, Refs, Next, Enabled;
      StaysSour(Next(s, events[0]), events[1..], t, a);
    } else {
      hide Inv, Refs, Next, Enabled;
      SouredIsSour(Next(s, events[0]), events[1..], t, a, i - 1);
    }
  }

  lemma SouringTells(s: Router, e: Event, a: AttachmentId)
    requires Inv(s) && Enabled(s, e) && Sours(e, a)
    ensures Refs(s) && a < |s.attachments| && |s.attachments| <= |Next(s, e).attachments| && !Next(s, e).attachments[a].release.ok
  {
    InvGivesRefs(s);
    StepFares(s, e);
    assert a < |s.attachments|;
    assert Fares(e, a, s.attachments[a], Next(s, e).attachments[a]);
    hide Inv, Refs, Next;
  }

  lemma {:induction false} UnsouredGoesWell(s: Router, events: seq<Event>, t: Router, a: AttachmentId)
    requires Inv(s) && Execute(s, events) == Some(t) && a < |t.attachments| && !t.attachments[a].acquiring.Refused?
    requires a < |s.attachments| ==> s.attachments[a].release.ok
    requires forall i :: 0 <= i < |events| ==> !Sours(events[i], a)
    ensures t.attachments[a].release.ok
    decreases |events|
  {
    if events != [] {
      var u := Next(s, events[0]);
      InvGivesRefs(s);
      hide Inv, Refs, Next, Enabled;
      Preserved(s, events[0]);
      StepFares(s, events[0]);
      assert !Sours(events[0], a);
      if a < |s.attachments| && s.attachments[a].acquiring.Refused? {
        LeaseStaysSettled(s, events, t, a);
      }
      UnsouredGoesWell(u, events[1..], t, a);
    }
  }

  /** A release that has ended although the lease was refused has not gone well. */
  predicate RefusedIsSour(a: Attachment) {
    a.Cleared() && a.acquiring.Refused? ==> !a.release.ok
  }

  predicate AllRefusedSour(s: Router) {
    forall a {:trigger s.attachments[a]} :: 0 <= a < |s.attachments| ==> RefusedIsSour(s.attachments[a])
  }

  lemma EndIsSour(s: Router, e: Event)
    requires Inv(s) && Enabled(s, e) && (e.LeaseForRelease? || e.ReleaseSettles?)
    ensures Refs(s) && e.att < |Next(s, e).attachments| && RefusedIsSour(Next(s, e).attachments[e.att])
  {
    hide Inv, Refs, Next;
    HandleInRange(s, e.att);
    AttachmentFacts(s, e.att);
    InvGivesRefs(s);
    ReleaseShape(s, e);
  }

  lemma StepKeepsRefusedSour(s: Router, e: Event)
    requires Inv(s) && Enabled(s, e) && AllRefusedSour(s)
    ensures Refs(s) && AllRefusedSour(Next(s, e))
  {
    InvGivesRefs(s);
    StepFares(s, e);
    if e.LeaseForRelease? || e.ReleaseSettles? { EndIsSour(s, e); }
    var t := Next(s, e);
    forall a | 0 <= a < |t.attachments| ensures RefusedIsSour(t.attachments[a]) {
      if a < |s.attachments| {
        assert Fares(e, a, s.attachments[a], t.attachments[a]) && RefusedIsSour(s.attachments[a]);
        if s.attachments[a].Cleared() { ClearedHasSettled(s, a); }
        if e == LeaseSettles(a, false) { LeaseSettlesInFlight(s, e, a); }
      }
    }
    hide Inv, Refs, Next, Enabled;
  }

  lemma ClearedHasSettled(s: Router, a: AttachmentId)
    requires Inv(s) && a < |s.attachments| && s.attachments[a].Cleared()
    ensures !s.attachments[a].acquiring.InFlight?
  {
    AttachmentFacts(s, a);
    hide Inv;
  }

  lemma {:induction false} RunKeepsRefusedSour(s: Router, events: seq<Event>, t: Router)
    requires Inv(s) && AllRefusedSour(s) && Execute(s, events) == Some(t)
    ensures AllRefusedSour(t)
    decreases |events|
  {
    hide Inv, Next, Enabled, AllRefusedSour;
    if events != [] {
      Preserved(s, events[0]);
      StepKeepsRefusedSour(s, events[0]);
      RunKeepsRefusedSour(Next(s, events[0]), events[1..], t);
    }
  }

  /** A release that has come to its end went well exactly if the lease had not been refused and neither
      `release` nor telling the client failed. */
  lemma WentWellIff(events: seq<Event>, s: Router, a: AttachmentId)
    requires Reaches(events, s) && a < |s.attachments| && s.attachments[a].Cleared()
    ensures s.attachments[a].release.ok <==>
              LeaseSettles(a, false) !in events && ReleaseSettles(a, false) !in events && ClearPublished(a, false) !in events
  {
    InitialInv();
    ReachedKeepsInv(events, s);
    hide Inv;
    LeasedIff(Initial(), events, s, a);
    if ReleaseSettles(a, false) in events || ClearPublished(a, false) in events {
      var i :| 0 <= i < |events| && Sours(events[i], a);
      SouredIsSour(Initial(), events, s, a, i);
    } else if s.attachments[a].acquiring.Refused? {
      RunKeepsRefusedSour(Initial(), events, s);
      assert RefusedIsSour(s.attachments[a]);
    } else {
      UnsouredGoesWell(Initial(), events, s, a);
    }
  }

  // ---- which calls are delivered, and which are out --------------------------------------------

  function Deliveries(deliveries: seq<Delivery>, o: OperationId): nat
    decreases |deliveries|
  {
    if deliveries == [] then 0
    else (if deliveries[|deliveries| - 1].call == o then 1 else 0) + Deliveries(deliveries[..|deliveries| - 1], o)
  }

  lemma DeliveriesNext(deliveries: seq<Delivery>, d: Delivery, o: OperationId)
    ensures Deliveries(deliveries + [d], o) == Deliveries(deliveries, o) + if d.call == o then 1 else 0
  {
    assert (deliveries + [d])[..|deliveries|] == deliveries;
  }

  lemma StepDelivers(s: Router, e: Event, o: OperationId)
    requires Inv(s) && Enabled(s, e)
    ensures Refs(s)
    ensures Deliveries(Next(s, e).deliveries, o) == Deliveries(s.deliveries, o)
              + if e == Start(o) && s.operations[o].kind.Call? && Admits(s, o) then 1 else 0
  {
    InvGivesRefs(s);
    UntouchedFields(s, e);
    if e.Start? {
      if s.operations[e.op].kind.Call? {
        CallStep(s, e.op);
        DeliveriesNext(s.deliveries, Delivery(e.op, s.operations[e.op].kind.target, s.operations[e.op].kind.target), o);
      } else {
        StartKeepsDeliveries(s, e.op);
      }
    }
    hide Inv, Refs, Admits, StartOperation, Deliveries;
  }

  lemma StartsOnce(s: Router, e: Event, o: OperationId)
    requires Inv(s) && Enabled(s, e) && o < |s.operations|
    ensures Refs(s) && o < |Next(s, e).operations|
    ensures !s.operations[o].step.Queued? || e == Start(o) ==> !Next(s, e).operations[o].step.Queued?
    ensures !s.operations[o].step.Queued? ==> e != Start(o)
    ensures Next(s, e).operations[o].kind == s.operations[o].kind
  {
    InvGivesRefs(s);
    StepContinues(s, e);
    hide Inv, Refs, Next, HandlesContinue, RemovalsContinue, AttachmentsContinue, OnlyCreates;
  }

  lemma {:induction false} StaysStarted(s: Router, events: seq<Event>, t: Router, o: OperationId)
    requires Inv(s) && Execute(s, events) == Some(t) && o < |s.operations| && !s.operations[o].step.Queued?
    ensures o < |t.operations| && !t.operations[o].step.Queued?
    ensures Deliveries(t.deliveries, o) == Deliveries(s.deliveries, o)
    decreases |events|
  {
    if events != [] {
      InvGivesRefs(s);
      hide Inv, Refs, Next, Enabled, Deliveries;
      Preserved(s, events[0]);
      StartsOnce(s, events[0], o);
      StepDelivers(s, events[0], o);
      StaysStarted(Next(s, events[0]), events[1..], t, o);
    }
  }

  /** A call that has not started has not been delivered. */
  lemma {:induction false} QueuedIsNotDelivered(s: Router, events: seq<Event>, t: Router, o: OperationId)
    requires Inv(s) && Execute(s, events) == Some(t) && o < |t.operations| && t.operations[o].step.Queued?
    requires o < |s.operations| ==> s.operations[o].step.Queued?
    ensures Deliveries(t.deliveries, o) == Deliveries(s.deliveries, o)
    decreases |events|
  {
    if events != [] {
      var u := Next(s, events[0]);
      InvGivesRefs(s);
      hide Inv, Refs, Next, Enabled, Deliveries;
      Preserved(s, events[0]);
      StepDelivers(s, events[0], o);
      if o < |s.operations| {
        StartsOnce(s, events[0], o);
      } else {
        NotStartedYet(s, events[0], o);
      }
      if o < |u.operations| && !u.operations[o].step.Queued? {
        StaysStarted(u, events[1..], t, o);
      }
      QueuedIsNotDelivered(u, events[1..], t, o);
    }
  }

  lemma NotStartedYet(s: Router, e: Event, o: OperationId)
    requires Enabled(s, e) && o >= |s.operations|
    ensures e != Start(o)
  {
  }

  /** Over every run a call is delivered exactly once if, when its turn came, the client was neither barred
      nor attached to anything but the session and attachment it names; and otherwise never. */
  lemma DeliveredIffAdmitted(before: seq<Event>, s: Router, o: OperationId, after: seq<Event>, t: Router)
    requires Reaches(before, s) && Refs(s) && Enabled(s, Start(o)) && s.operations[o].kind.Call?
    requires Execute(Next(s, Start(o)), after) == Some(t)
    ensures Deliveries(t.deliveries, o) == if Admits(s, o) then 1 else 0
  {
    InitialInv();
    ReachedKeepsInv(before, s);
    hide Inv, Refs, Enabled, Next, Deliveries, Admits;
    Preserved(s, Start(o));
    StartsOnce(s, Start(o), o);
    StepDelivers(s, Start(o), o);
    WaitsInQueue(s, o);
    QueuedIsNotDelivered(Initial(), before, s, o);
    NoneDelivered(o);
    StaysStarted(Next(s, Start(o)), after, t, o);
  }

  lemma WaitsInQueue(s: Router, o: OperationId)
    requires Enabled(s, Start(o))
    ensures o < |s.operations| && s.operations[o].step.Queued?
  {
  }

  lemma NoneDelivered(o: OperationId)
    ensures Deliveries([], o) == 0
  {
  }

  /** How the step changes which calls are out. */
  predicate CallsMove(s: Router, e: Event, a: AttachmentId, o: OperationId, before: Attachment, after: Attachment) {
    o in after.calls <==>
      || (o in before.calls && e != CallSettles(a, o))
      || (Refs(s) && o < |s.operations| && e == Start(o) && s.operations[o].kind.Call?
          && s.operations[o].kind.target == a && Admits(s, o))
  }

  lemma StartMovesCalls(s: Router, p: OperationId, a: AttachmentId, o: OperationId)
    requires Refs(s) && Enabled(s, Start(p)) && a < |s.attachments| && s.operations[p].kind.Call?
    ensures a < |StartOperation(s, p).attachments|
    ensures CallsMove(s, Start(p), a, o, s.attachments[a], StartOperation(s, p).attachments[a])
  {
    CallStep(s, p);
    hide Refs, Admits, StartOperation;
  }

  lemma SettlingMovesCalls(s: Router, e: Event, a: AttachmentId, o: OperationId)
    requires Refs(s) && Enabled(s, e) && a < |s.attachments| && (e.CallSettles? || e.Drained?)
    ensures a < |Next(s, e).attachments| && CallsMove(s, e, a, o, s.attachments[a], Next(s, e).attachments[a])
  {
    hide Refs, Admits;
    if e.Drained? {
      DrainingKeepsCalls(s, e.att, a);
      hide CallRelease, SetRelease;
    }
  }

  lemma DrainingKeepsCalls(s: Router, r: AttachmentId, a: AttachmentId)
    requires r < |s.attachments| && a < |s.attachments|
    ensures a < |CallRelease(s, r).attachments| && CallRelease(s, r).attachments[a].calls == s.attachments[a].calls
    ensures a < |SetRelease(s, r, AwaitingLease, true).attachments|
    ensures SetRelease(s, r, AwaitingLease, true).attachments[a].calls == s.attachments[a].calls
  {
  }

  lemma EndingMovesCalls(s: Router, e: Event, a: AttachmentId, o: OperationId)
    requires Inv(s) && Enabled(s, e) && a < |s.attachments| && e.LeaseForRelease?
    ensures Refs(s)
    ensures a < |Next(s, e).attachments| && CallsMove(s, e, a, o, s.attachments[a], Next(s, e).attachments[a])
  {
    hide CallRelease, Clear;
    hide Inv, Refs, Admits, Next;
    InvGivesRefs(s);
    HandleInRange(s, e.att);
    ReleaseShape(s, e);
    ShapeKeepsCalls(s, e.att, e.LeaseForRelease? && s.attachments[e.att].acquiring.Leased?, a);
  }

  lemma ShapeKeepsCalls(s: Router, r: AttachmentId, calls: bool, a: AttachmentId)
    requires r < |s.attachments| && s.attachments[r].handle < |s.handles| && a < |s.attachments|
    ensures var t := if calls then CallRelease(s, r) else Clear(s, r, false);
            a < |t.attachments| && t.attachments[a].calls == s.attachments[a].calls
  {
  }

  lemma StepCalls(s: Router, e: Event, a: AttachmentId, o: OperationId)
    requires Inv(s) && Enabled(s, e) && a < |s.attachments|
    ensures Refs(s) && a < |Next(s, e).attachments|
    ensures CallsMove(s, e, a, o, s.attachments[a], Next(s, e).attachments[a])
  {
    InvGivesRefs(s);
    if e.Start? && s.operations[e.op].kind.Call? {
      StartIsNext(s, e.op);
      StartMovesCalls(s, e.op, a, o);
      hide Inv, Refs, CallsMove, Next, StartOperation;
    } else if e.CallSettles? || e.Drained? {
      SettlingMovesCalls(s, e, a, o);
      hide Inv, Refs, CallsMove, Next;
    } else if e.LeaseForRelease? {
      EndingMovesCalls(s, e, a, o);
      hide Inv, Refs, CallsMove, Next;
    } else {
      hide Inv, Refs, Admits, Next;
      OtherStepKeepsBooks(s, e);
      assert Next(s, e).attachments[a].calls == s.attachments[a].calls;
    }
  }

  lemma {:induction false} OutUntilSettled(s: Router, events: seq<Event>, t: Router, a: AttachmentId, o: OperationId)
    requires Inv(s) && Execute(s, events) == Some(t) && a < |s.attachments|
    requires o < |s.operations| && !s.operations[o].step.Queued?
    ensures a < |t.attachments|
    ensures o in t.attachments[a].calls <==> o in s.attachments[a].calls && CallSettles(a, o) !in events
    decreases |events|
  {
    hide Inv, Refs, Next, Enabled, Admits;
    if events != [] {
      InvGivesRefs(s);
      Preserved(s, events[0]);
      StartsOnce(s, events[0], o);
      StepCalls(s, events[0], a, o);
      OutUntilSettled(Next(s, events[0]), events[1..], t, a, o);
      assert events == [events[0]] + events[1..];
    }
  }

  /** An admitted call is out, and a release that takes stock waits for it, exactly until it settles. */
  lemma AdmittedIsOutUntilSettled(before: seq<Event>, s: Router, o: OperationId, after: seq<Event>, t: Router)
    requires Reaches(before, s) && Refs(s) && Enabled(s, Start(o)) && s.operations[o].kind.Call? && Admits(s, o)
    requires Execute(Next(s, Start(o)), after) == Some(t)
    ensures s.operations[o].kind.target < |t.attachments|
    ensures o in t.attachments[s.operations[o].kind.target].calls <==> CallSettles(s.operations[o].kind.target, o) !in after
  {
    var a := s.operations[o].kind.target;
    ReachedKeepsInv(before, s);
    AdmittedIsHeld(s, o);
    hide Inv, Refs, Enabled, Next, Admits;
    Preserved(s, Start(o));
    StartsOnce(s, Start(o), o);
    StepCalls(s, Start(o), a, o);
    WaitsInQueue(s, o);
    OutUntilSettled(Next(s, Start(o)), after, t, a, o);
  }

  // ---- switching -------------------------------------------------------------------------------

  lemma SwitchIs(s: Router, o: OperationId)
    requires Inv(s) && Enabled(s, CurrentReleased(o))
    ensures Refs(s) && s.operations[o].step.released < |s.attachments| && o < |Next(s, CurrentReleased(o)).operations|
    ensures if s.attachments[s.operations[o].step.released].release.ok
            then Next(s, CurrentReleased(o)).operations[o].step == AwaitLease(|s.attachments|)
            else Next(s, CurrentReleased(o)).operations[o].step == Finished
                 && Next(s, CurrentReleased(o)).attachments == s.attachments
  {
    InvGivesRefs(s);
    StepHandleInRange(s, o);
    hide Inv, Refs;
  }

  lemma FinishedStepOpensNothing(s: Router, e: Event, o: OperationId, b: AttachmentId)
    requires Inv(s) && Enabled(s, e) && o < |s.operations| && s.operations[o].step.Finished?
    ensures Refs(s) && o < |Next(s, e).operations| && Next(s, e).operations[o].step.Finished?
    ensures |s.attachments| <= b < |Next(s, e).attachments| ==> Next(s, e).attachments[b].opener != o
  {
    hide Inv, Refs, Next, Enabled, HandlesContinue, RemovalsContinue, AttachmentsContinue, OnlyMoves;
    InvGivesRefs(s);
    StepContinues(s, e);
    assert s.operations[o].step.Finished?;
  }

  lemma {:induction false} FinishedOpensNothing(s: Router, events: seq<Event>, t: Router, o: OperationId, b: AttachmentId)
    requires Inv(s) && Execute(s, events) == Some(t) && o < |s.operations| && s.operations[o].step.Finished?
    requires |s.attachments| <= b < |t.attachments|
    ensures t.attachments[b].opener != o
    decreases |events|
  {
    if events != [] {
      var u := Next(s, events[0]);
      InvGivesRefs(s);
      hide Inv, Refs, Next, Enabled;
      Preserved(s, events[0]);
      FinishedStepOpensNothing(s, events[0], o, b);
      if b < |u.attachments| {
        StaysOpener(u, events[1..], t, b);
      } else {
        FinishedOpensNothing(u, events[1..], t, o, b);
      }
    }
  }

  lemma {:induction false} StaysOpener(s: Router, events: seq<Event>, t: Router, b: AttachmentId)
    requires Inv(s) && Execute(s, events) == Some(t) && b < |s.attachments|
    ensures b < |t.attachments| && t.attachments[b].opener == s.attachments[b].opener
    decreases |events|
  {
    if events != [] {
      InvGivesRefs(s);
      hide Inv, Refs, Next, Enabled, HandlesContinue, RemovalsContinue, OperationsContinue;
      Preserved(s, events[0]);
      StepContinues(s, events[0]);
      assert AttachmentContinues(s.attachments[b], Next(s, events[0]).attachments[b]);
      StaysOpener(Next(s, events[0]), events[1..], t, b);
    }
  }

  /** A switch goes on to ask for a new lease exactly if the release of the old one went well; otherwise the
      attach is over and never opens an attachment. */
  lemma SwitchesIff(before: seq<Event>, s: Router, o: OperationId, after: seq<Event>, t: Router, b: AttachmentId)
    requires Reaches(before, s) && Refs(s) && Enabled(s, CurrentReleased(o))
    requires Execute(Next(s, CurrentReleased(o)), after) == Some(t) && |s.attachments| <= b < |t.attachments|
    ensures s.operations[o].step.released < |s.attachments|
    ensures if s.attachments[s.operations[o].step.released].release.ok
            then t.attachments[|s.attachments|].opener == o
            else t.attachments[b].opener != o
  {
    ReachedKeepsInv(before, s);
    Preserved(s, CurrentReleased(o));
    SwitchIs(s, o);
    hide Inv, Refs, Enabled, Next;
    var u := Next(s, CurrentReleased(o));
    if s.attachments[s.operations[o].step.released].release.ok {
      OperationFacts(u, o);
      StaysOpener(u, after, t, |s.attachments|);
    } else {
      FinishedOpensNothing(u, after, t, o, b);
    }
  }
}
