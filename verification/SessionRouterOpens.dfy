/** One open per session, whatever `resolveSession` answers. */
module SessionRouterOpens {
  import opened Wrappers
  import opened SessionRouterSpec
  import opened SessionRouterProof
  import opened SessionRouterTheorems
  import opened SessionRouterHistory

  /** Every open in flight is its session's entry. */
  predicate Shared(opens: seq<Open>, opening: map<SessionId, OpenId>) {
    forall n {:trigger opens[n]} :: 0 <= n < |opens| && !opens[n].Done() ==>
      Lookup(opening, opens[n].session) == Some(n)
  }

  predicate OpensProgress(shutdown: Shutdown, opens: seq<Open>) {
    match shutdown
    case NotRequested => true
    case AwaitOperations(_, waited) => OthersDone(opens, waited)
    case _ => AllDone(opens)
  }

  predicate OpenInv(s: Router) {
    Shared(s.opens, s.openingSessions) && OpensProgress(s.shutdown, s.opens)
  }

  /** Opens keep their session and stay done. */
  predicate OpensContinue(before: seq<Open>, after: seq<Open>) {
    && |after| == |before|
    && forall n {:trigger after[n]} :: 0 <= n < |after| ==>
         after[n].session == before[n].session && (before[n].Done() ==> after[n].Done())
  }

  lemma ContinuedOpensKeep(s: Router, t: Router)
    requires OpenInv(s) && OpensContinue(s.opens, t.opens)
    requires t.openingSessions == s.openingSessions && t.shutdown == s.shutdown
    ensures OpenInv(t)
  {
  }

  lemma OpeningContinues(s: Router, e: Event)
    requires Refs(s) && Enabled(s, e) && (e.SessionResolves? || e.AcquiredClosed? || e.HandleOpens?)
    ensures OpensContinue(s.opens, Next(s, e).opens)
    ensures Next(s, e).openingSessions == s.openingSessions && Next(s, e).shutdown == s.shutdown
  {
    if e.HandleOpens? { OpenedContinues(s, e.open, e.ok); }
    hide AttachmentRefs, ValuesBelow, OperationRefs, OpenRefs, RemovalRefs, OpenHandle;
  }

  lemma OpenedContinues(s: Router, n: OpenId, ok: bool)
    requires n < |s.opens| && s.opens[n].phase.Opening?
    ensures var t := OpenHandle(s, n, ok);
            OpensContinue(s.opens, t.opens) && t.openingSessions == s.openingSessions && t.shutdown == s.shutdown
  {
  }

  lemma ReturningKeepsOpens(s: Router, e: Event)
    requires Refs(s) && Enabled(s, e) && e.AcquireReturns? && OpenInv(s)
    ensures OpenInv(Next(s, e))
  {
    var step := s.operations[e.op].step;
    DeleteDoneKeepsShared(s.opens, s.openingSessions, s.opens[step.open].session, step.open);
    hide AttachmentRefs, ValuesBelow, OperationRefs, OpenRefs, RemovalRefs, Shared, OpensProgress;
  }

  lemma DeleteDoneKeepsShared(opens: seq<Open>, opening: map<SessionId, OpenId>, session: SessionId, n: OpenId)
    requires Shared(opens, opening) && n < |opens| && opens[n].Done()
    ensures Shared(opens, DeleteIf(opening, session, n))
  {
  }

  lemma AcquireKeepsOpens(s: Router, o: OperationId, session: SessionId, current: Option<AttachmentId>)
    requires OpenInv(s) && o < |s.operations| && s.shutdown.NotRequested? && OpeningEntries(s.openingSessions, s.opens)
    ensures OpenInv(Acquire(s, o, session, current))
  {
  }

  lemma StartKeepsOpens(s: Router, o: OperationId)
    requires Inv(s) && Enabled(s, Start(o)) && OpenInv(s)
    ensures Refs(s) && OpenInv(StartOperation(s, o))
  {
    InvGivesRefs(s);
    hide Members, Hosted, AllOwned, Openers, Clients, Chain, Previous, TailEntries, Tails, AllConsistent,
         NoOrphans, AllQueueDrained, Delivered, Refs, OpeningEntries, StartOperation, Acquire, OpenInv, ReachesAcquire;
    if ReachesAcquire(s, o) {
      StartReachesAcquire(s, o);
      AcquireKeepsOpens(s, o, s.operations[o].kind.session, Lookup(s.attachmentsByClient, s.operations[o].client));
    } else {
      StartKeepsRest(s, o);
      SameOpensKeep(s, StartOperation(s, o));
    }
  }

  lemma SameOpensKeep(s: Router, t: Router)
    requires OpenInv(s) && t.opens == s.opens && t.openingSessions == s.openingSessions && t.shutdown == s.shutdown
    ensures OpenInv(t)
  {
  }

  lemma ShutdownKeepsOpens(s: Router, e: Event)
    requires Refs(s) && Enabled(s, e) && OpenInv(s)
    requires e.Close? || e.CloseOperationsSettled? || e.CloseAttachmentsSettled? || e.CloseHandlesSettled?
    ensures OpenInv(Next(s, e))
  {
    hide AttachmentRefs, ValuesBelow, OperationRefs, OpenRefs, RemovalRefs, StartReleases, AllAttachments;
    StartReleasesKeepRest(s, AllAttachments(s));
    if e.Close? {
      forall n | 0 <= n < |s.opens| && !s.opens[n].Done() ensures n in s.openingSessions.Values {
        assert s.openingSessions[s.opens[n].session] == n;
      }
    }
  }

  lemma StartReleasesKeepRest(s: Router, targets: set<AttachmentId>)
    ensures StartReleases(s, targets) == s.(attachments := StartReleases(s, targets).attachments)
  {
  }

  lemma StepKeepsOpens(s: Router, e: Event)
    requires Inv(s) && Enabled(s, e) && OpenInv(s)
    ensures Refs(s) && OpenInv(Next(s, e))
  {
    InvGivesRefs(s);
    hide Inv, Refs, OpenInv, Next, Enabled;
    if e.Start? {
      StartIsNext(s, e.op);
      StartKeepsOpens(s, e.op);
    } else if e.AcquireReturns? {
      ReturningKeepsOpens(s, e);
    } else if e.SessionResolves? || e.AcquiredClosed? || e.HandleOpens? {
      OpeningContinues(s, e);
      ContinuedOpensKeep(s, Next(s, e));
    } else if e.Close? || e.CloseOperationsSettled? || e.CloseAttachmentsSettled? || e.CloseHandlesSettled? {
      ShutdownKeepsOpens(s, e);
    } else {
      UntouchedFields(s, e);
      SameOpensKeep(s, Next(s, e));
    }
  }

  lemma {:induction false} RunKeepsOpens(s: Router, events: seq<Event>, t: Router)
    requires Inv(s) && OpenInv(s) && Execute(s, events) == Some(t)
    ensures Inv(t) && OpenInv(t)
    decreases |events|
  {
    hide Inv, Next, Enabled, OpenInv;
    if events != [] {
      Preserved(s, events[0]);
      StepKeepsOpens(s, events[0]);
      RunKeepsOpens(Next(s, events[0]), events[1..], t);
    }
  }

  /** Concurrent acquires of one session share one open: no session has two in flight, whatever ids
      `resolveSession` answers with. */
  lemma AcquiresShareOneOpen(events: seq<Event>, s: Router, m: OpenId, n: OpenId)
    requires Reaches(events, s) && m < |s.opens| && n < |s.opens| && !s.opens[m].Done() && !s.opens[n].Done()
    ensures s.opens[m].session == s.opens[n].session ==> m == n
    ensures Lookup(s.openingSessions, s.opens[n].session) == Some(n)
  {
    InitialInv();
    RunKeepsOpens(Initial(), events, s);
    hide Inv;
  }

  /** Shutdown waits for every open: none is in flight once it goes on to release the attachments. */
  lemma ShutdownAwaitsOpens(events: seq<Event>, s: Router, n: OpenId)
    requires Reaches(events, s) && n < |s.opens| && !s.opens[n].Done()
    ensures s.shutdown.NotRequested? || (s.shutdown.AwaitOperations? && n in s.shutdown.opens)
  {
    InitialInv();
    RunKeepsOpens(Initial(), events, s);
    hide Inv;
  }
}
