/** What the router does get done: removals, terminations and disconnects take effect, and an attach that
    nothing gets in the way of attaches its client. */
module SessionRouterProgress {
  import opened Wrappers
  import opened SessionRouterSpec
  import opened SessionRouterProof
  import opened SessionRouterTheorems
  import opened SessionRouterHistory
  import opened SessionRouterRemovals
  import opened SessionRouterShutdown
  import opened SessionRouterNotices
  import opened SessionRouterLeases

  // ---- terminations and removals ---------------------------------------------------------------

  lemma {:induction false} RunContinues(s: Router, events: seq<Event>, t: Router)
    requires Inv(s) && Execute(s, events) == Some(t)
    ensures Continues(s, t)
    decreases |events|
  {
    if events == [] {
      ContinueRefl(s);
    } else {
      InvGivesRefs(s);
      hide Inv, Refs, Next, Enabled, Continues;
      Preserved(s, events[0]);
      StepContinues(s, events[0]);
      RunContinues(Next(s, events[0]), events[1..], t);
      TransContinue(s, Next(s, events[0]), t);
    }
  }

  lemma InvalidateBegins(s: Router, h: HandleId, a: AttachmentId)
    requires Inv(s) && Enabled(s, Invalidate(h)) && Lookup(s.hostedSessions, s.handles[h].id) == Some(h)
    requires a in s.handles[h].attachments
    ensures Refs(s) && a < |s.attachments| && h !in Next(s, Invalidate(h)).hostedSessions.Values
    ensures Next(s, Invalidate(h)).attachments[a].release.phase != NotStarted
  {
    InvGivesRefs(s);
    HostedHolds(s);
    MembersHolds(s);
    hide Inv, Refs, Members;
  }

  lemma MembersHolds(s: Router)
    requires Inv(s)
    ensures Members(s.handles, s.attachments)
  {
    hide Hosted, OpeningEntries, AllOwned, Openers, Clients, Chain, Previous, TailEntries, Tails, AllConsistent, NoOrphans,
         AllQueueDrained, Delivered, Refs;
  }

  lemma HostsOnlyNew(s: Router, e: Event, h: HandleId)
    requires Inv(s) && Enabled(s, e) && h < |s.handles| && h !in s.hostedSessions.Values
    ensures Refs(s) && h < |Next(s, e).handles| && h !in Next(s, e).hostedSessions.Values
  {
    InvGivesRefs(s);
    StepContinues(s, e);
    UntouchedFields(s, e);
    if e.HandleOpens? {
      OpeningHosts(s, e.open, e.ok);
      hide Inv, Refs, OpenHandle, Continues;
    } else if e.Invalidate? || e.CloseHandlesSettled? {
      HostedShrinks(s, e);
      hide Inv, Refs, Next, Continues;
    } else if e.RemovalClosed? {
      RemovalClosedIs(s, e.removal);
      hide Inv, Refs, Next, Continues;
    }
    hide Inv, Refs, Next, OperationsContinue, AttachmentsContinue, RemovalsContinue;
  }

  lemma {:induction false} StaysUnhosted(s: Router, events: seq<Event>, t: Router, h: HandleId)
    requires Inv(s) && Execute(s, events) == Some(t) && h < |s.handles| && h !in s.hostedSessions.Values
    ensures h !in t.hostedSessions.Values
    decreases |events|
  {
    if events != [] {
      InvGivesRefs(s);
      hide Inv, Refs, Next, Enabled;
      Preserved(s, events[0]);
      HostsOnlyNew(s, events[0], h);
      StaysUnhosted(Next(s, events[0]), events[1..], t, h);
    }
  }

  /** When a hosted handle has reported termination, it is never hosted again, and every attachment it had
      is being released from then on. */
  lemma TerminatedIsReleased(before: seq<Event>, s: Router, h: HandleId, after: seq<Event>, t: Router, a: AttachmentId)
    requires Reaches(before, s) && Enabled(s, Invalidate(h)) && Lookup(s.hostedSessions, s.handles[h].id) == Some(h)
    requires Refs(s) && Execute(Next(s, Invalidate(h)), after) == Some(t) && a in s.handles[h].attachments
    ensures h !in t.hostedSessions.Values
    ensures a < |t.attachments| && t.attachments[a].release.phase != NotStarted
  {
    var u := Next(s, Invalidate(h));
    ReachedKeepsInv(before, s);
    InvalidateBegins(s, h, a);
    Preserved(s, Invalidate(h));
    StepContinues(s, Invalidate(h));
    HandleThere(s, h);
    hide Inv, Refs, Next, Enabled, OperationsContinue, RemovalsContinue;
    StaysUnhosted(u, after, t, h);
    RunContinues(u, after, t);
    assert AttachmentContinues(u.attachments[a], t.attachments[a]);
  }

  lemma HandleThere(s: Router, h: HandleId)
    requires Enabled(s, Invalidate(h))
    ensures h < |s.handles|
  {
  }

  /** The removal is still waiting for these, or they have settled. */
  predicate RemovalReleases(s: Router, r: RemovalId, members: set<AttachmentId>) {
    && r < |s.removals|
    && (s.removals[r].step.AwaitReleases? ==> s.removals[r].step.attachments == members)
    && (!s.removals[r].step.AwaitReleases? ==>
          forall a :: a in members && a < |s.attachments| ==> s.attachments[a].release.phase == Settled)
    && (forall a :: a in members ==> a < |s.attachments| && s.attachments[a].release.phase != NotStarted)
  }

  lemma RemovalMoves(s: Router, e: Event, r: RemovalId)
    requires Refs(s) && Enabled(s, e) && r < |s.removals|
    requires e.Remove? || e.RemovalReleased? || e.RemovalClosed?
    ensures r < |Next(s, e).removals|
    ensures Next(s, e).removals[r] == s.removals[r]
            || (e == RemovalReleased(r) && !Next(s, e).removals[r].step.AwaitReleases?)
            || (e == RemovalClosed(r) && !Next(s, e).removals[r].step.AwaitReleases?)
  {
    hide AttachmentRefs, ValuesBelow, OperationRefs, OpenRefs, StartReleases;
  }

  lemma StepKeepsReleasing(s: Router, e: Event, r: RemovalId, members: set<AttachmentId>)
    requires Inv(s) && Enabled(s, e) && RemovalReleases(s, r, members)
    ensures Refs(s) && RemovalReleases(Next(s, e), r, members)
  {
    InvGivesRefs(s);
    StepContinues(s, e);
    UntouchedFields(s, e);
    RemovalEnabled(s, e);
    if e.Remove? || e.RemovalReleased? || e.RemovalClosed? { RemovalMoves(s, e, r); }
    hide Inv, Refs, Next, Enabled, OperationsContinue, HandlesContinue, RemovalsContinue, Local;
    forall a | a in members
      ensures a < |Next(s, e).attachments| && AttachmentContinues(s.attachments[a], Next(s, e).attachments[a])
    {
    }
  }

  lemma RemovalEnabled(s: Router, e: Event)
    requires Enabled(s, e)
    ensures e.RemovalReleased? ==>
              e.removal < |s.removals| && s.removals[e.removal].step.AwaitReleases? && AllSettled(s, s.removals[e.removal].step.attachments)
    ensures e.RemovalClosed? ==> e.removal < |s.removals| && !s.removals[e.removal].step.AwaitReleases?
  {
  }

  lemma {:induction false} RunKeepsReleasing(s: Router, events: seq<Event>, t: Router, r: RemovalId, members: set<AttachmentId>)
    requires Inv(s) && Execute(s, events) == Some(t) && RemovalReleases(s, r, members)
    ensures RemovalReleases(t, r, members)
    decreases |events|
  {
    if events != [] {
      InvGivesRefs(s);
      hide Inv, Refs, Next, Enabled, RemovalReleases;
      Preserved(s, events[0]);
      StepKeepsReleasing(s, events[0], r, members);
      RunKeepsReleasing(Next(s, events[0]), events[1..], t, r, members);
    }
  }

  lemma RemoveBegins(s: Router, session: SessionId)
    requires Inv(s) && !s.closing && session in s.hostedSessions
    ensures Refs(s) && s.hostedSessions[session] < |s.handles|
    ensures RemovalReleases(Next(s, Remove(session)), |s.removals|, s.handles[s.hostedSessions[session]].attachments)
  {
    InvGivesRefs(s);
    HostedHolds(s);
    MembersHolds(s);
    hide Inv, AttachmentRefs, OperationRefs, OpenRefs, RemovalRefs;
    assert s.hostedSessions[session] < |s.handles|;
  }

  /** Removing a session begins the release of every attachment it has, and by the time the session's handle
      is closed all those releases have settled. */
  lemma RemovedIsReleased(before: seq<Event>, s: Router, session: SessionId, after: seq<Event>, t: Router, a: AttachmentId)
    requires Reaches(before, s) && Refs(s) && !s.closing && session in s.hostedSessions
    requires Execute(Next(s, Remove(session)), after) == Some(t)
    requires s.hostedSessions[session] < |s.handles| && a in s.handles[s.hostedSessions[session]].attachments
    ensures |s.removals| < |t.removals| && a < |t.attachments|
    ensures t.attachments[a].release.phase != NotStarted
    ensures !t.removals[|s.removals|].step.AwaitReleases? ==> t.attachments[a].release.phase == Settled
  {
    ReachedKeepsInv(before, s);
    RemoveBegins(s, session);
    Preserved(s, Remove(session));
    hide Inv, Refs, Next, Enabled;
    RunKeepsReleasing(Next(s, Remove(session)), after, t, |s.removals|, s.handles[s.hostedSessions[session]].attachments);
  }

  // ---- disconnecting clients -------------------------------------------------------------------

  predicate Disconnecting(operations: seq<Operation>, d: OperationId, c: ClientId) {
    d < |operations| && operations[d].client == c && operations[d].kind.Disconnect? && !operations[d].step.Finished?
  }

  /** The client has asked to be disconnected once at most. */
  predicate OneDisconnect(operations: seq<Operation>, c: ClientId) {
    forall d, e {:trigger operations[d], operations[e]} :: 0 <= d < e < |operations| && operations[d].client == operations[e].client == c ==>
      !(operations[d].kind.Disconnect? && operations[e].kind.Disconnect?)
  }

  /** Barred are the clients that are disconnecting. */
  ghost predicate BarredRightly(operations: seq<Operation>, disconnected: set<ClientId>, c: ClientId) {
    && (c in disconnected ==> exists d :: Disconnecting(operations, d, c))
    && (OneDisconnect(operations, c) && (exists d :: Disconnecting(operations, d, c)) ==> c in disconnected)
  }

  /** The operation may have finished, and if it was a disconnect its client is barred no longer. */
  predicate DisconnectsIfDone(s: Router, t: Router, o: OperationId)
    requires o < |s.operations|
  {
    && |t.operations| == |s.operations|
    && t.disconnectedClients == if s.operations[o].kind.Disconnect? && t.operations[o].step.Finished?
                                then s.disconnectedClients - {s.operations[o].client} else s.disconnectedClients
  }

  lemma FinishDisconnects(s: Router, o: OperationId)
    requires o < |s.operations|
    ensures DisconnectsIfDone(s, Finish(s, o), o)
  {
  }

  lemma StartDisconnects(s: Router, o: OperationId)
    requires Refs(s) && o < |s.operations|
    ensures DisconnectsIfDone(s, StartOperation(s, o), o)
  {
    FinishDisconnects(s, o);
    var c := s.operations[o].client;
    assert c in s.attachmentsByClient ==> s.attachmentsByClient[c] < |s.attachments|;
    hide AttachmentRefs, ValuesBelow, OperationRefs, OpenRefs, RemovalRefs, Barred, Finish, Begun;
  }

  lemma ArrivalDisconnects(s: Router, o: OperationId)
    requires Inv(s) && Enabled(s, LeaseArrives(o)) && s.operations[o].kind.Attach?
    ensures Refs(s) && DisconnectsIfDone(s, Next(s, LeaseArrives(o)), o)
  {
    hide Inv, Refs, Next;
    InvGivesRefs(s);
    HandleInRange(s, s.operations[o].step.attachment);
    LeaseArrivalIs(s, o);
    hide Enabled;
    LeaseDisconnects(s, o);
  }

  lemma LeaseArrivalIs(s: Router, o: OperationId)
    requires Refs(s) && Enabled(s, LeaseArrives(o))
    ensures o < |s.operations| && s.operations[o].step.AwaitLease? && s.operations[o].step.attachment < |s.attachments|
    ensures Next(s, LeaseArrives(o)) == ArriveLease(s, o)
  {
    hide Refs, ArriveLease;
  }

  lemma LeaseDisconnects(s: Router, o: OperationId)
    requires Refs(s) && o < |s.operations| && s.operations[o].step.AwaitLease? && s.operations[o].kind.Attach?
    requires s.operations[o].step.attachment < |s.attachments|
    requires s.attachments[s.operations[o].step.attachment].handle < |s.handles|
    ensures DisconnectsIfDone(s, ArriveLease(s, o), o)
  {
    FinishDisconnects(DropFromHandle(s, s.operations[o].step.attachment), o);
    hide Refs, Barred, Begun, Finish;
  }

  lemma AttachDisconnects(s: Router, e: Event)
    requires Inv(s) && Enabled(s, e) && (e.AttachResumes? || e.CurrentReleased? || e.LeaseArrives?)
    ensures Refs(s) && DisconnectsIfDone(s, Next(s, e), e.op)
  {
    var o := e.op;
    OperationFacts(s, o);
    InvGivesRefs(s);
    FinishDisconnects(s, o);
    if e.LeaseArrives? {
      ArrivalDisconnects(s, o);
      hide Inv, Refs, Next, Finish;
    } else {
      if e.CurrentReleased? {
        StepHandleInRange(s, o);
      }
      hide Inv, Refs, Barred, Begun, Finish, ArriveLease;
    }
  }

  lemma ActorDisconnects(s: Router, e: Event, o: OperationId)
    requires Inv(s) && Enabled(s, e) && Actor(e) == Some(o)
    ensures Refs(s) && o < |s.operations| && DisconnectsIfDone(s, Next(s, e), o)
  {
    InvGivesRefs(s);
    if e.Start? {
      StartIsNext(s, o);
      StartDisconnects(s, o);
      hide Inv, Refs, Next, StartOperation, DisconnectsIfDone;
    } else if e.AttachResumes? || e.CurrentReleased? || e.LeaseArrives? {
      AttachDisconnects(s, e);
      hide Inv, Refs, Next, DisconnectsIfDone;
    } else {
      FinishDisconnects(s, o);
      hide Inv, Refs, Finish;
    }
  }

  lemma OneDisconnectBefore(before: seq<Operation>, after: seq<Operation>, c: ClientId)
    requires OperationsContinue(before, after) && OneDisconnect(after, c)
    ensures OneDisconnect(before, c)
  {
    forall d, e | 0 <= d < e < |before| && before[d].client == before[e].client == c
      ensures !(before[d].kind.Disconnect? && before[e].kind.Disconnect?)
    {
      assert after[d].client == c && after[e].client == c;
    }
  }

  lemma EnqueueBarsRightly(before: seq<Operation>, op: Operation, disconnected: set<ClientId>, c: ClientId)
    requires BarredRightly(before, disconnected, c) && op.step.Queued?
    ensures BarredRightly(before + [op], if op.kind.Disconnect? then disconnected + {op.client} else disconnected, c)
  {
    var after := before + [op];
    assert OperationsContinue(before, after);
    if op.kind.Disconnect? && op.client == c {
      assert Disconnecting(after, |before|, c);
    } else {
      if c in disconnected {
        var d :| Disconnecting(before, d, c);
        assert Disconnecting(after, d, c);
      }
      if OneDisconnect(after, c) && exists d :: Disconnecting(after, d, c) {
        var d :| Disconnecting(after, d, c);
        assert Disconnecting(before, d, c);
        OneDisconnectBefore(before, after, c);
      }
    }
  }

  /** An operation moves, and may finish. */
  lemma MoveBarsRightly(before: seq<Operation>, after: seq<Operation>, o: OperationId, disconnected: set<ClientId>, c: ClientId)
    requires BarredRightly(before, disconnected, c) && o < |before| == |after|
    requires after == Moved(before, o, after[o].step)
    requires before[o].step.Finished? ==> after[o].step.Finished?
    ensures BarredRightly(after, if before[o].kind.Disconnect? && after[o].step.Finished? then disconnected - {before[o].client}
                                 else disconnected, c)
  {
    var done := before[o].kind.Disconnect? && after[o].step.Finished?;
    if c in disconnected && !(done && before[o].client == c) {
      var d :| Disconnecting(before, d, c);
      assert Disconnecting(after, d, c);
    }
    if OneDisconnect(after, c) && exists d :: Disconnecting(after, d, c) {
      var d :| Disconnecting(after, d, c);
      assert Disconnecting(before, d, c);
      OneDisconnectMoved(before, o, after[o].step, c);
      OnlyOneOfThem(after, c, d, o);
    }
  }

  lemma OneDisconnectMoved(before: seq<Operation>, o: OperationId, step: Step, c: ClientId)
    requires o < |before| && OneDisconnect(Moved(before, o, step), c)
    ensures OneDisconnect(before, c)
  {
    var after := Moved(before, o, step);
    forall d, e | 0 <= d < e < |before| && before[d].client == before[e].client == c
      ensures !(before[d].kind.Disconnect? && before[e].kind.Disconnect?)
    {
      assert after[d].client == c && after[e].client == c;
    }
  }

  predicate OperationAdded(s: Router, t: Router) {
    && |t.operations| == |s.operations| + 1 && t.operations == s.operations + [t.operations[|s.operations|]]
    && t.operations[|s.operations|].step.Queued?
    && t.disconnectedClients == if t.operations[|s.operations|].kind.Disconnect?
                                then s.disconnectedClients + {t.operations[|s.operations|].client} else s.disconnectedClients
  }

  predicate OperationMoved(s: Router, t: Router, o: OperationId) {
    && o < |s.operations| == |t.operations| && t.operations == Moved(s.operations, o, t.operations[o].step)
    && (s.operations[o].step.Finished? ==> t.operations[o].step.Finished?)
    && t.disconnectedClients == if s.operations[o].kind.Disconnect? && t.operations[o].step.Finished?
                                then s.disconnectedClients - {s.operations[o].client} else s.disconnectedClients
  }

  lemma EnqueueAdds(s: Router, e: Event)
    requires Inv(s) && Enabled(s, e) && e.Enqueue?
    ensures Refs(s)
    ensures OperationAdded(s, Next(s, e))
            || (Next(s, e).operations == s.operations && Next(s, e).disconnectedClients == s.disconnectedClients)
  {
    InvGivesRefs(s);
    EnqueueIs(s, e);
    hide Inv, Refs, Next, Enabled;
  }

  lemma ActorMoves(s: Router, e: Event, o: OperationId)
    requires Inv(s) && Enabled(s, e) && Actor(e) == Some(o)
    ensures Refs(s) && OperationMoved(s, Next(s, e), o)
  {
    hide Inv, Refs, Next, Enabled, AttachmentsContinue, HandlesContinue, RemovalsContinue, OnlyCreates, Actor;
    InvGivesRefs(s);
    StepContinues(s, e);
    ActorDisconnects(s, e, o);
  }

  lemma NobodyMoves(s: Router, e: Event)
    requires Inv(s) && Enabled(s, e) && Actor(e).None? && !e.Enqueue?
    ensures Refs(s)
    ensures Next(s, e).operations == s.operations && Next(s, e).disconnectedClients == s.disconnectedClients
  {
    InvGivesRefs(s);
    if e.LeaseForRelease? || e.ReleaseSettles? {
      ReleaseFrame(s, e);
    } else if e.LeaseSettles? || e.CallSettles? || e.Drained? || e.ClearPublished? {
      AttachmentFrame(s, e);
    } else if e.BeginClosing? || e.Close? || e.CloseOperationsSettled? || e.CloseAttachmentsSettled? || e.CloseHandlesSettled? {
      ShutdownFrame(s, e);
    } else {
      SessionFrame(s, e);
    }
    hide Inv, Refs, Next, Enabled;
  }

  lemma StepBarsRightly(s: Router, e: Event, c: ClientId)
    requires Inv(s) && Enabled(s, e) && BarredRightly(s.operations, s.disconnectedClients, c)
    ensures Refs(s) && BarredRightly(Next(s, e).operations, Next(s, e).disconnectedClients, c)
  {
    InvGivesRefs(s);
    hide Inv, Refs, Next, Enabled, BarredRightly;
    var t := Next(s, e);
    if e.Enqueue? {
      EnqueueAdds(s, e);
      if OperationAdded(s, t) {
        EnqueueBarsRightly(s.operations, t.operations[|s.operations|], s.disconnectedClients, c);
      }
    } else if Actor(e).Some? {
      ActorMoves(s, e, Actor(e).value);
      MoveBarsRightly(s.operations, t.operations, Actor(e).value, s.disconnectedClients, c);
    } else {
      NobodyMoves(s, e);
    }
  }

  lemma EnqueueIs(s: Router, e: Event)
    requires Refs(s) && e.Enqueue?
    ensures var t := Next(s, e);
            t == s || (&& |t.operations| == |s.operations| + 1
                       && t.operations == s.operations + [t.operations[|s.operations|]]
                       && t.operations[|s.operations|].client == e.client && t.operations[|s.operations|].kind == e.kind
                       && t.operations[|s.operations|].step.Queued?)
    ensures Next(s, e) == s ==> !e.kind.Disconnect?
    ensures Next(s, e).disconnectedClients ==
              if e.kind.Disconnect? then s.disconnectedClients + {e.client} else s.disconnectedClients
  {
    hide Refs;
  }

  lemma OnlyOneOfThem(operations: seq<Operation>, c: ClientId, d: OperationId, e: OperationId)
    requires OneDisconnect(operations, c) && Disconnecting(operations, d, c) && e < |operations|
    ensures operations[e].client == c && operations[e].kind.Disconnect? ==> e == d
  {
    assert operations[d].client == c;
  }

  lemma {:induction false} RunBarsRightly(s: Router, events: seq<Event>, t: Router, c: ClientId)
    requires Inv(s) && Execute(s, events) == Some(t) && BarredRightly(s.operations, s.disconnectedClients, c)
    ensures BarredRightly(t.operations, t.disconnectedClients, c)
    decreases |events|
  {
    if events != [] {
      InvGivesRefs(s);
      hide Inv, Refs, Next, Enabled, BarredRightly;
      Preserved(s, events[0]);
      StepBarsRightly(s, events[0], c);
      RunBarsRightly(Next(s, events[0]), events[1..], t, c);
    }
  }

  /** A client is barred only while a disconnect of its is not over; and if it has asked to be disconnected
      once at most it is barred exactly that long. */
  lemma BarredWhileDisconnecting(events: seq<Event>, s: Router, c: ClientId)
    requires Reaches(events, s)
    ensures c in s.disconnectedClients ==> exists d :: Disconnecting(s.operations, d, c)
    ensures OneDisconnect(s.operations, c) && (exists d :: Disconnecting(s.operations, d, c)) ==> c in s.disconnectedClients
  {
    InitialInv();
    hide Inv;
    RunBarsRightly(Initial(), events, s, c);
  }

  // ---- nothing is stuck ------------------------------------------------------------------------

  /** The event is the operation's own next step, or an outcome that what it waits for is still due. */
  predicate Helps(s: Router, e: Event, o: OperationId)
    requires o < |s.operations|
  {
    || Actor(e) == Some(o)
    || (s.operations[o].step.AwaitOpen? && (e.SessionResolves? || e.HandleOpens? || e.AcquiredClosed?)
        && e.open == s.operations[o].step.open)
    || ((e.LeaseSettles? || e.CallSettles? || e.Drained? || e.LeaseForRelease? || e.ReleaseSettles? || e.ClearPublished?)
        && (Awaits(s.operations[o].step, e.att) || s.operations[o].step == AwaitLease(e.att)))
  }

  /** A release that has begun can go on. */
  lemma ReleaseGoesOn(s: Router, a: AttachmentId) returns (e: Event)
    requires a < |s.attachments| && s.attachments[a].release.phase != NotStarted && s.attachments[a].release.phase != Settled
    ensures Enabled(s, e)
    ensures (e.LeaseSettles? || e.CallSettles? || e.Drained? || e.LeaseForRelease? || e.ReleaseSettles? || e.ClearPublished?) && e.att == a
  {
    var att := s.attachments[a];
    match att.release.phase {
      case Draining =>
        if att.release.waiting !! att.calls {
          e := Drained(a);
        } else {
          var call :| call in att.release.waiting && call in att.calls;
          e := CallSettles(a, call);
        }
      case AwaitingLease => e := if att.acquiring.InFlight? then LeaseSettles(a, true) else LeaseForRelease(a);
      case Releasing => e := ReleaseSettles(a, true);
      case Publishing => e := ClearPublished(a, true);
    }
  }

  lemma OpenGoesOn(s: Router, o: OperationId) returns (e: Event)
    requires o < |s.operations| && s.operations[o].step.AwaitOpen? && s.operations[o].step.open < |s.opens|
    ensures Enabled(s, e) && Helps(s, e, o)
  {
    var n := s.operations[o].step.open;
    match s.opens[n].phase {
      case Resolving => e := SessionResolves(n, None);
      case Opening(_) => e := HandleOpens(n, true);
      case ClosingAcquired(_) => e := AcquiredClosed(n);
      case Opened(_) => e := AcquireReturns(o);
      case OpenFailed => e := AcquireReturns(o);
    }
  }

  lemma WaitForReleaseGoesOn(s: Router, o: OperationId, a: AttachmentId) returns (e: Event)
    requires o < |s.operations| && a < |s.attachments| && Awaits(s.operations[o].step, a)
    requires s.attachments[a].release.phase != NotStarted
    ensures Enabled(s, e) && Helps(s, e, o)
  {
    if s.attachments[a].release.phase == Settled {
      e := if s.operations[o].step.AwaitCurrent? then CurrentReleased(o) else ReleaseAwaited(o);
    } else {
      hide Enabled;
      e := ReleaseGoesOn(s, a);
    }
  }

  lemma WaitForLeaseGoesOn(s: Router, o: OperationId, a: AttachmentId) returns (e: Event)
    requires o < |s.operations| && a < |s.attachments| && s.operations[o].step == AwaitLease(a)
    ensures Enabled(s, e) && Helps(s, e, o)
  {
    e := if s.attachments[a].acquiring.InFlight? then LeaseSettles(a, true) else LeaseArrives(o);
  }

  lemma OwnStepGoesOn(s: Router, o: OperationId)
    requires o < |s.operations|
    ensures s.operations[o].step.AwaitHosted? ==> Enabled(s, AttachResumes(o)) && Helps(s, AttachResumes(o), o)
    ensures s.operations[o].step.AwaitPublish? ==> Enabled(s, AttachPublished(o)) && Helps(s, AttachPublished(o), o)
  {
  }

  lemma UnderWayGoesOn(s: Router, o: OperationId) returns (e: Event)
    requires Inv(s) && o < |s.operations| && !s.operations[o].step.Queued? && !s.operations[o].step.Finished?
    ensures Enabled(s, e) && Helps(s, e, o)
  {
    OperationFacts(s, o);
    OwnStepGoesOn(s, o);
    hide Inv, Enabled, Helps;
    match s.operations[o].step {
      case AwaitOpen(n, _, _) => e := OpenGoesOn(s, o);
      case AwaitHosted(_, _) => e := AttachResumes(o);
      case AwaitCurrent(_, a) => e := WaitForReleaseGoesOn(s, o, a);
      case AwaitRelease(a) => e := WaitForReleaseGoesOn(s, o, a);
      case AwaitLease(a) => e := WaitForLeaseGoesOn(s, o, a);
      case AwaitPublish => e := AttachPublished(o);
    }
  }

  lemma PreviousHolds(s: Router)
    requires Inv(s)
    ensures Previous(s.operations)
  {
    hide Members, Hosted, OpeningEntries, AllOwned, Openers, Clients, Chain, TailEntries, Tails, AllConsistent, NoOrphans,
         AllQueueDrained, Delivered, Refs;
  }

  lemma {:induction false} UnfinishedGoesOn(s: Router, o: OperationId) returns (p: OperationId, e: Event)
    requires Inv(s) && o < |s.operations| && !s.operations[o].step.Finished?
    ensures p <= o && s.operations[p].client == s.operations[o].client && Enabled(s, e) && Helps(s, e, p)
    decreases o
  {
    PreviousHolds(s);
    hide Inv, Helps;
    var op := s.operations[o];
    if !op.step.Queued? {
      p := o;
      e := UnderWayGoesOn(s, o);
    } else if op.previous.Some? && !s.operations[op.previous.value].step.Finished? {
      p, e := UnfinishedGoesOn(s, op.previous.value);
    } else {
      p, e := o, Start(o);
      StartHelps(s, o);
    }
  }

  lemma StartHelps(s: Router, o: OperationId)
    requires o < |s.operations|
    ensures Helps(s, Start(o), o)
  {
  }

  /** No operation is ever stuck: it, or one of its client's that it is queued behind, can take its next step,
      or waits for an outcome that is due. */
  lemma NothingIsStuck(events: seq<Event>, s: Router, o: OperationId) returns (p: OperationId, e: Event)
    requires Reaches(events, s) && o < |s.operations| && !s.operations[o].step.Finished?
    ensures p <= o && s.operations[p].client == s.operations[o].client && Enabled(s, e) && Helps(s, e, p)
  {
    ReachedKeepsInv(events, s);
    hide Inv, Helps;
    p, e := UnfinishedGoesOn(s, o);
  }

  // ---- what shutdown forgets -------------------------------------------------------------------

  /** Shutdown has called `close` on every session that is still hosted. */
  predicate HostedAreAwaited(s: Router) {
    match s.shutdown
    case AwaitHandles(handles) => s.hostedSessions.Values <= handles
    case _ => true
  }

  /** Closing, no session becomes hosted. */
  lemma ClosingHostsNothing(s: Router, e: Event)
    requires Inv(s) && s.closing && Enabled(s, e)
    ensures Refs(s) && Next(s, e).hostedSessions.Values <= s.hostedSessions.Values
  {
    InvGivesRefs(s);
    UntouchedFields(s, e);
    if e.HandleOpens? {
      hide Inv, Refs;
    } else if e.Invalidate? || e.CloseHandlesSettled? {
      StepContinues(s, e);
      HostedOnlyShrinks(s, e);
      hide Inv, Refs, Next;
    } else if e.RemovalClosed? {
      RemovalClosedIs(s, e.removal);
      hide Inv, Refs, Next;
    } else {
      hide Inv, Refs, Next;
    }
  }

  lemma HostedOnlyShrinks(s: Router, e: Event)
    requires Refs(s) && Enabled(s, e) && (e.Invalidate? || e.CloseHandlesSettled?)
    ensures Next(s, e).hostedSessions.Values <= s.hostedSessions.Values
  {
    if e.Invalidate? {
      StartReleasesHosting(s.(hostedSessions := s.hostedSessions - {s.handles[e.handle].id}), s.handles[e.handle].attachments);
    }
    hide Refs, StartReleases;
  }

  lemma StepKeepsAwaitedHosted(s: Router, e: Event)
    requires Inv(s) && Enabled(s, e) && HostedAreAwaited(s)
    ensures Refs(s) && HostedAreAwaited(Next(s, e))
  {
    InvGivesRefs(s);
    ShutdownInOrder(s, e);
    UntouchedFields(s, e);
    if s.shutdown.AwaitHandles? {
      ClosingFacts(s);
      ClosingHostsNothing(s, e);
    }
    if e.CloseAttachmentsSettled? {
      ShutdownFrame(s, e);
    }
    if e.Close? || e.CloseOperationsSettled? || e.CloseAttachmentsSettled? || e.CloseHandlesSettled? {
      ShutdownMoves(s, e);
    }
    hide Inv, Refs, Next, Enabled;
  }

  lemma {:induction false} RunKeepsAwaitedHosted(s: Router, events: seq<Event>, t: Router)
    requires Inv(s) && HostedAreAwaited(s) && Execute(s, events) == Some(t)
    ensures HostedAreAwaited(t)
    decreases |events|
  {
    if events != [] {
      InvGivesRefs(s);
      hide Inv, Refs, Next, Enabled, HostedAreAwaited;
      Preserved(s, events[0]);
      StepKeepsAwaitedHosted(s, events[0]);
      RunKeepsAwaitedHosted(Next(s, events[0]), events[1..], t);
    }
  }

  lemma {:induction false} StaysForgotten(s: Router, events: seq<Event>, t: Router)
    requires Inv(s) && s.closing && Execute(s, events) == Some(t)
    ensures t.hostedSessions.Values <= s.hostedSessions.Values
    decreases |events|
  {
    if events != [] {
      InvGivesRefs(s);
      hide Inv, Refs, Next, Enabled;
      Preserved(s, events[0]);
      ClosingHostsNothing(s, events[0]);
      StaysClosing(s, events[0]);
      StaysForgotten(Next(s, events[0]), events[1..], t);
    }
  }

  lemma StaysClosing(s: Router, e: Event)
    requires Inv(s) && s.closing && Enabled(s, e)
    ensures Refs(s) && Next(s, e).closing
  {
    InvGivesRefs(s);
    UntouchedFields(s, e);
    if e.BeginClosing? { hide Inv, Refs; } else { hide Inv, Refs, Next; }
  }

  lemma CompletionForgets(s: Router, failed: set<HandleId>)
    requires Refs(s) && HostedAreAwaited(s) && Enabled(s, CloseHandlesSettled(failed))
    ensures Next(s, CloseHandlesSettled(failed)).hostedSessions.Values <= failed
    ensures forall id {:trigger s.hostedSessions[id]} :: id in s.hostedSessions && s.hostedSessions[id] in failed ==>
              Lookup(Next(s, CloseHandlesSettled(failed)).hostedSessions, id) == Some(s.hostedSessions[id])
  {
    hide Refs;
    var t := Next(s, CloseHandlesSettled(failed));
    forall h | h in t.hostedSessions.Values ensures h in failed {
      var id :| id in t.hostedSessions && t.hostedSessions[id] == h;
      assert s.hostedSessions[id] in s.hostedSessions.Values;
    }
  }

  /** Shutdown forgets every session for good, but for those whose handle failed to close, which it keeps. */
  lemma ShutdownForgets(before: seq<Event>, s: Router, failed: set<HandleId>, after: seq<Event>, t: Router)
    requires Reaches(before, s) && Refs(s) && Enabled(s, CloseHandlesSettled(failed))
    requires Execute(Next(s, CloseHandlesSettled(failed)), after) == Some(t)
    ensures t.hostedSessions.Values <= failed
    ensures forall id {:trigger s.hostedSessions[id]} :: id in s.hostedSessions && s.hostedSessions[id] in failed ==>
              Lookup(Next(s, CloseHandlesSettled(failed)).hostedSessions, id) == Some(s.hostedSessions[id])
  {
    InitialInv();
    ReachedKeepsInv(before, s);
    RunKeepsAwaitedHosted(Initial(), before, s);
    CompletionForgets(s, failed);
    ShutdownInOrder(s, CloseHandlesSettled(failed));
    ClosingFacts(s);
    StaysClosing(s, CloseHandlesSettled(failed));
    Preserved(s, CloseHandlesSettled(failed));
    hide Inv, Refs, Next, Enabled;
    StaysForgotten(Next(s, CloseHandlesSettled(failed)), after, t);
  }
}
