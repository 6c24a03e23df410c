/** Which leases shutdown leaves released. */
module SessionRouterReleases {
  import opened Wrappers
  import opened SessionRouterSpec
  import opened SessionRouterProof
  import opened SessionRouterTheorems
  import opened SessionRouterHistory
  import opened SessionRouterRemovals
  import opened SessionRouterShutdown

  // ---- a client that has left ------------------------------------------------------------------

  predicate AttachesFinished(operations: seq<Operation>, c: ClientId) {
    forall o {:trigger operations[o]} :: 0 <= o < |operations| && operations[o].client == c && operations[o].kind.Attach? ==>
      operations[o].step.Finished?
  }

  predicate LeasesReleased(attachments: seq<Attachment>, c: ClientId) {
    forall a {:trigger attachments[a]} :: 0 <= a < |attachments| && attachments[a].client == c ==> Released(attachments[a])
  }

  /** The client has no attach under way and holds no lease. */
  predicate Quiet(s: Router, c: ClientId) {
    AttachesFinished(s.operations, c) && LeasesReleased(s.attachments, c)
  }

  lemma ReleasedStays(s: Router, e: Event, a: AttachmentId)
    requires Inv(s) && Enabled(s, e) && a < |s.attachments| && Released(s.attachments[a])
    ensures a < |Next(s, e).attachments| && Released(Next(s, e).attachments[a])
  {
    StepContinues(s, e);
    Preserved(s, e);
    hide Next, Enabled;
    AttachmentFacts(Next(s, e), a);
    hide Inv;
    assert AttachmentContinues(s.attachments[a], Next(s, e).attachments[a]);
  }

  lemma CreatorIsAttaching(s: Router, o: OperationId)
    requires Inv(s) && o < |s.operations| && (s.operations[o].step.AwaitHosted? || s.operations[o].step.AwaitCurrent?)
    ensures s.operations[o].kind.Attach?
  {
    OperationFacts(s, o);
    hide Inv;
  }

  predicate NoAttachAdded(before: seq<Operation>, after: seq<Operation>, c: ClientId) {
    forall o {:trigger after[o]} :: |before| <= o < |after| && after[o].client == c ==> !after[o].kind.Attach?
  }

  lemma AttachesStayFinished(before: seq<Operation>, after: seq<Operation>, c: ClientId)
    requires AttachesFinished(before, c) && OperationsContinue(before, after) && NoAttachAdded(before, after, c)
    ensures AttachesFinished(after, c)
  {
    forall o | 0 <= o < |after| && after[o].client == c && after[o].kind.Attach?
      ensures after[o].step.Finished?
    {
      if o < |before| {
        assert after[o].client == before[o].client;
      }
    }
  }

  /** A new attachment is of a client that is attaching. */
  lemma CreatedByAttach(s: Router, e: Event, a: AttachmentId)
    requires Inv(s) && Enabled(s, e) && |s.attachments| <= a < |Next(s, e).attachments|
    ensures !AttachesFinished(s.operations, Next(s, e).attachments[a].client)
  {
    InvGivesRefs(s);
    hide Inv, Refs, Next, Enabled, Continues, OnlyMoves, OnlyCreates, Actor;
    StepContinues(s, e);
    CreatedShape(s.attachments, Next(s, e).attachments, s.operations, Actor(e), a);
    CreatorIsAttaching(s, Actor(e).value);
  }

  lemma StepKeepsQuiet(s: Router, e: Event, c: ClientId)
    requires Inv(s) && Enabled(s, e) && Quiet(s, c) && NoAttachAdded(s.operations, Next(s, e).operations, c)
    ensures Quiet(Next(s, e), c)
  {
    var t := Next(s, e);
    StepContinues(s, e);
    hide Inv, Next, Enabled, AttachesFinished, NoAttachAdded, OperationsContinue, AttachmentsContinue, HandlesContinue,
         RemovalsContinue, Local, Released;
    AttachesStayFinished(s.operations, t.operations, c);
    forall a | 0 <= a < |t.attachments| && t.attachments[a].client == c
      ensures Released(t.attachments[a])
    {
      SameClient(s.attachments, t.attachments, a);
      if a < |s.attachments| {
        ReleasedStays(s, e, a);
      } else {
        CreatedByAttach(s, e, a);
      }
    }
  }

  lemma SameClient(before: seq<Attachment>, after: seq<Attachment>, a: AttachmentId)
    requires AttachmentsContinue(before, after)
    ensures |before| <= |after| && (a < |before| ==> after[a].client == before[a].client)
  {
    if a < |before| {
      assert AttachmentContinues(before[a], after[a]);
    }
  }

  /** The detach or disconnect is the last word of its client: no attach comes after it. */
  predicate Leaving(operations: seq<Operation>, d: OperationId) {
    && d < |operations| && operations[d].kind.Leaves()
    && forall o {:trigger operations[o]} :: d < o < |operations| && operations[o].client == operations[d].client ==>
         !operations[o].kind.Attach?
  }

  lemma OnlyActorFinishes(s: Router, e: Event, d: OperationId)
    requires Inv(s) && Enabled(s, e) && d < |s.operations| && !s.operations[d].step.Finished?
    requires d < |Next(s, e).operations| && Next(s, e).operations[d].step.Finished?
    ensures Actor(e) == Some(d)
  {
    StepContinues(s, e);
    hide Inv, Next, Enabled, Continues, OnlyCreates;
  }

  /** The step that finishes a detach or disconnect finds its client without an attachment. */
  lemma FinishingLeaverIsUnmapped(s: Router, e: Event, d: OperationId)
    requires Inv(s) && Enabled(s, e) && d < |s.operations| && s.operations[d].kind.Leaves() && !s.operations[d].step.Finished?
    requires d < |Next(s, e).operations| && Next(s, e).operations[d].step.Finished?
    ensures s.operations[d].client !in s.attachmentsByClient && InTurn(s, d)
    ensures forall a {:trigger s.attachments[a]} :: 0 <= a < |s.attachments| && WaitsFor(s.operations[d].step, a) ==>
              s.attachments[a].Cleared()
  {
    hide Inv, Refs, StartOperation, InTurn;
    OnlyActorFinishes(s, e, d);
    OperationFacts(s, d);
    InvGivesRefs(s);
    if e.Start? {
      StartableInTurn(s, d);
      if s.operations[d].client in s.attachmentsByClient {
        LeaverStarts(s, d);
      }
    } else {
      UnderWayInTurn(s, d);
      MappedIsHeld(s, s.operations[d].client);
    }
  }

  lemma MappedIsHeld(s: Router, c: ClientId)
    requires Inv(s)
    ensures c in s.attachmentsByClient ==>
              s.attachmentsByClient[c] < |s.attachments| && !s.attachments[s.attachmentsByClient[c]].Cleared()
  {
    hide Members, Hosted, OpeningEntries, AllOwned, Openers, Chain, Previous, TailEntries, Tails, AllConsistent, NoOrphans,
         AllQueueDrained, Delivered, AttachmentRefs, OperationRefs, OpenRefs, RemovalRefs;
  }

  lemma LeaverStarts(s: Router, d: OperationId)
    requires Refs(s) && d < |s.operations| && s.operations[d].kind.Leaves()
    requires s.operations[d].client in s.attachmentsByClient
    ensures d < |StartOperation(s, d).operations| && !StartOperation(s, d).operations[d].step.Finished?
  {
    hide AttachmentRefs, OperationRefs, OpenRefs, RemovalRefs, Begun;
  }

  lemma OthersAreIdle(s: Router, d: OperationId)
    requires Inv(s) && !s.shutdown.Complete? && d < |s.operations| && InTurn(s, d)
    ensures forall o {:trigger s.operations[o]} :: 0 <= o < |s.operations| && o != d && s.operations[o].client == s.operations[d].client ==>
              s.operations[o].step.Queued? || s.operations[o].step.Finished?
  {
    forall o | 0 <= o < |s.operations| && o != d && s.operations[o].client == s.operations[d].client
      ensures s.operations[o].step.Queued? || s.operations[o].step.Finished?
    {
      hide Inv;
      OthersIdle(s, d, o);
    }
  }

  lemma LastWordFinishesAttaches(s: Router, d: OperationId)
    requires Inv(s) && !s.shutdown.Complete? && Leaving(s.operations, d) && InTurn(s, d)
    ensures AttachesFinished(s.operations, s.operations[d].client)
  {
    hide Inv;
    assert EarlierFinished(s.operations, d);
  }

  lemma LastWordReleases(s: Router, d: OperationId, a: AttachmentId)
    requires Inv(s) && AllAttended(s) && !s.shutdown.Complete? && d < |s.operations| && InTurn(s, d)
    requires s.operations[d].client !in s.attachmentsByClient
    requires a < |s.attachments| && s.attachments[a].client == s.operations[d].client
    requires WaitsFor(s.operations[d].step, a) ==> s.attachments[a].Cleared()
    ensures Released(s.attachments[a])
  {
    OthersAreIdle(s, d);
    ClearedIsReleased(s, a);
    hide Inv, AllAttended, Released, InTurn;
    if !Released(s.attachments[a]) {
      UnreleasedIsAttended(s, a);
    }
  }

  /** When a client's last word is a detach or disconnect that is in turn, and the client is not attached, nothing of
      it is left. */
  lemma LeavingIsQuiet(s: Router, d: OperationId)
    requires Inv(s) && AllAttended(s) && !s.shutdown.Complete? && Leaving(s.operations, d) && InTurn(s, d)
    requires s.operations[d].client !in s.attachmentsByClient
    requires forall a {:trigger s.attachments[a]} :: 0 <= a < |s.attachments| && WaitsFor(s.operations[d].step, a) ==>
               s.attachments[a].Cleared()
    ensures Quiet(s, s.operations[d].client)
  {
    LeavingLeaves(s, d);
    LastWordFinishesAttaches(s, d);
    hide Inv, AllAttended, Released, InTurn, Leaving, AttachesFinished, WaitsFor;
    forall a | 0 <= a < |s.attachments| && s.attachments[a].client == s.operations[d].client
      ensures Released(s.attachments[a])
    {
      LastWordReleases(s, d, a);
    }
  }

  lemma ClearedIsReleased(s: Router, a: AttachmentId)
    requires Inv(s) && a < |s.attachments|
    ensures s.attachments[a].Cleared() ==> Released(s.attachments[a])
  {
    AttachmentFacts(s, a);
    hide Inv;
  }

  // ---- every detach and disconnect, while the router is not shut down ----------------------------

  predicate AllLeft(s: Router) {
    forall d {:trigger s.operations[d]} :: 0 <= d < |s.operations| && s.operations[d].step.Finished? && Leaving(s.operations, d) ==>
      Quiet(s, s.operations[d].client)
  }

  lemma LeavingBefore(before: seq<Operation>, after: seq<Operation>, d: OperationId)
    requires OperationsContinue(before, after) && Leaving(after, d) && d < |before|
    ensures Leaving(before, d) && after[d].client == before[d].client && NoAttachAdded(before, after, before[d].client)
  {
    assert after[d].kind == before[d].kind;
    forall o | d < o < |before| && before[o].client == before[d].client
      ensures !before[o].kind.Attach?
    {
      assert after[o].kind == before[o].kind;
    }
  }

  lemma StepLeavesQuiet(s: Router, e: Event, d: OperationId)
    requires Inv(s) && AllAttended(s) && !s.shutdown.Complete? && Enabled(s, e) && AllLeft(s)
    requires Leaving(Next(s, e).operations, d) && Next(s, e).operations[d].step.Finished?
    ensures Quiet(Next(s, e), Next(s, e).operations[d].client)
  {
    StepContinues(s, e);
    hide Inv, AllAttended, Next, Enabled, Leaving, Quiet, NoAttachAdded, AttachmentsContinue, HandlesContinue, RemovalsContinue;
    LeavingLeaves(Next(s, e), d);
    LeavingBefore(s.operations, Next(s, e).operations, d);
    LeavingLeaves(s, d);
    if !s.operations[d].step.Finished? {
      FinishingLeaverIsUnmapped(s, e, d);
      LeavingIsQuiet(s, d);
    }
    StepKeepsQuiet(s, e, s.operations[d].client);
  }

  lemma StepKeepsAllLeft(s: Router, e: Event)
    requires Inv(s) && AllAttended(s) && !s.shutdown.Complete? && Enabled(s, e) && AllLeft(s)
    ensures AllLeft(Next(s, e))
  {
    InvGivesRefs(s);
    hide Inv, Refs, AllAttended, Next, Enabled, Leaving, Quiet;
    var t := Next(s, e);
    forall d | 0 <= d < |t.operations| && t.operations[d].step.Finished? && Leaving(t.operations, d)
      ensures Quiet(t, t.operations[d].client)
    {
      StepLeavesQuiet(s, e, d);
    }
  }

  lemma {:induction false} RunKeepsAllLeft(s: Router, events: seq<Event>, t: Router)
    requires Inv(s) && AllAttended(s) && AllLeft(s) && Execute(s, events) == Some(t) && !t.shutdown.Complete?
    ensures Inv(t) && AllAttended(t) && AllLeft(t)
    decreases |events|
  {
    if events != [] {
      CompletionIsFinal(s, events, t);
      hide Inv, AllAttended, AllLeft, Next, Enabled;
      Preserved(s, events[0]);
      CompletionIsFinal(Next(s, events[0]), events[1..], t);
      StepKeepsAllLeft(s, events[0]);
      StepKeepsAllAttended(s, events[0]);
      RunKeepsAllLeft(Next(s, events[0]), events[1..], t);
    }
  }

  lemma {:induction false} CompletionIsFinal(s: Router, events: seq<Event>, t: Router)
    requires Inv(s) && Execute(s, events) == Some(t)
    ensures s.shutdown.Complete? ==> t.shutdown.Complete?
    decreases |events|
  {
    hide Inv, Next, Enabled;
    if events != [] {
      Preserved(s, events[0]);
      CompletionCompletes(s, events[0]);
      CompletionIsFinal(Next(s, events[0]), events[1..], t);
    }
  }

  /** Over every run, until shutdown is complete: a client whose last word is a detach or disconnect that is over
      holds no lease. Every lease it was ever given has been released and none is on its way. */
  lemma LeavingLeavesNothing(events: seq<Event>, s: Router, d: OperationId, a: AttachmentId)
    requires Reaches(events, s) && !s.shutdown.Complete? && Leaving(s.operations, d) && s.operations[d].step.Finished?
    requires a < |s.attachments| && s.attachments[a].client == s.operations[d].client
    ensures Released(s.attachments[a]) && s.operations[d].client !in s.attachmentsByClient
  {
    InitialInv();
    RunKeepsAllLeft(Initial(), events, s);
    assert Released(s.attachments[a]);
    QuietIsUnmapped(s, s.operations[d].client);
  }

  lemma QuietIsUnmapped(s: Router, c: ClientId)
    requires Inv(s) && Quiet(s, c)
    ensures c !in s.attachmentsByClient
  {
    if c in s.attachmentsByClient {
      MappedIsHeld(s, c);
      MappedIsMember(s, c);
      var a := s.attachmentsByClient[c];
      AttachmentFacts(s, a);
    }
  }

  /** From the time the router is closing: a detach or disconnect that is its client's last word, once it is over,
      leaves nothing of the client; and shutdown waits for it. */
  predicate LeavesNothing(s: Router, d: OperationId) {
    && s.closing && Leaving(s.operations, d) && Awaited(s.shutdown, s.operations, d)
    && (s.operations[d].step.Finished? ==> Quiet(s, s.operations[d].client))
  }

  lemma LeavingContinues(before: seq<Operation>, after: seq<Operation>, d: OperationId, actor: Option<OperationId>)
    requires Leaving(before, d) && OperationsContinue(before, after) && OnlyMoves(before, after, actor, true)
    ensures Leaving(after, d) && after[d].client == before[d].client && NoAttachAdded(before, after, before[d].client)
  {
    forall o | d < o < |after| && after[o].client == after[d].client
      ensures !after[o].kind.Attach?
    {
      if o < |before| {
        assert after[o].client == before[o].client;
      }
    }
  }

  lemma StepLeavesNothing(s: Router, e: Event, d: OperationId)
    requires Inv(s) && (s.shutdown.Complete? || AllAttended(s)) && Enabled(s, e) && LeavesNothing(s, d)
    ensures LeavesNothing(Next(s, e), d)
  {
    var t := Next(s, e);
    var c := s.operations[d].client;
    StepContinues(s, e);
    UntouchedFields(s, e);
    StepKeepsAwaited(s, e, d);
    LeavingContinues(s.operations, t.operations, d, Actor(e));
    assert e.BeginClosing? ==> t.closing;
    hide Inv, AllAttended, Next, Enabled, Continues, Local, Leaving, Quiet;
    if s.operations[d].step.Finished? {
      StepKeepsQuiet(s, e, c);
    } else if t.operations[d].step.Finished? {
      LeavingLeaves(s, d);
      FinishingLeaverIsUnmapped(s, e, d);
      LeavingIsQuiet(s, d);
      StepKeepsQuiet(s, e, c);
    }
  }

  lemma LeavingLeaves(s: Router, d: OperationId)
    requires Leaving(s.operations, d)
    ensures d < |s.operations| && s.operations[d].kind.Leaves()
  {
  }

  lemma {:induction false} RunLeavesNothing(s: Router, events: seq<Event>, t: Router, d: OperationId)
    requires Inv(s) && (s.shutdown.Complete? || AllAttended(s)) && LeavesNothing(s, d) && Execute(s, events) == Some(t)
    ensures LeavesNothing(t, d)
    decreases |events|
  {
    hide Inv, AllAttended, Next, Enabled, LeavesNothing;
    if events != [] {
      Preserved(s, events[0]);
      StepLeavesNothing(s, events[0], d);
      CompletionCompletes(s, events[0]);
      if !Next(s, events[0]).shutdown.Complete? {
        StepKeepsAllAttended(s, events[0]);
      }
      RunLeavesNothing(Next(s, events[0]), events[1..], t, d);
    }
  }

  /** A client whose last word before `close` is a detach or disconnect: when shutdown has waited for the queues, and
      for ever after, every lease the client was ever given has been released, whether or not its session
      is still hosted. */
  lemma ClientThatLeftIsReleased(before: seq<Event>, u: Router, after: seq<Event>, s: Router, d: OperationId, a: AttachmentId)
    requires Reaches(before, u) && Enabled(u, Close) && Leaving(u.operations, d)
    requires Execute(u, after) == Some(s) && PastOperations(s)
    requires a < |s.attachments| && s.attachments[a].client == u.operations[d].client
    ensures Released(s.attachments[a])
  {
    InitialInv();
    RunKeepsAllLeft(Initial(), before, u);
    RunLeavesNothing(u, after, s, d);
    RunKeepsClient(u, after, s, d);
    hide Inv, AllAttended;
  }

  lemma {:induction false} RunKeepsClient(s: Router, events: seq<Event>, t: Router, o: OperationId)
    requires Inv(s) && o < |s.operations| && Execute(s, events) == Some(t)
    ensures o < |t.operations| && t.operations[o].client == s.operations[o].client
    decreases |events|
  {
    hide Inv, Next, Enabled, AttachmentsContinue, HandlesContinue, RemovalsContinue;
    if events != [] {
      Preserved(s, events[0]);
      StepContinues(s, events[0]);
      RunKeepsClient(Next(s, events[0]), events[1..], t, o);
    }
  }

  // ---- sessions that are still hosted ----------------------------------------------------------

  lemma HostedMember(s: Router, a: AttachmentId)
    requires Inv(s) && a < |s.attachments|
    ensures s.attachments[a].handle < |s.handles|
    ensures a in AllAttachments(s) <==>
              && IsHosted(s.hostedSessions, s.handles, s.attachments[a].handle)
              && a in s.handles[s.attachments[a].handle].attachments
  {
    HandleInRange(s, a);
    var h := s.attachments[a].handle;
    hide Members, OpeningEntries, AllOwned, Openers, Clients, Chain, Previous, TailEntries, Tails, AllConsistent, NoOrphans,
         AllQueueDrained, Delivered, AttachmentRefs, OperationRefs, OpenRefs, RemovalRefs;
    if h in s.hostedSessions.Values {
      var id :| id in s.hostedSessions && s.hostedSessions[id] == h;
      assert s.handles[h].id == id;
    }
  }

  lemma ShutdownStarts(s: Router, a: AttachmentId)
    requires Refs(s) && Enabled(s, CloseOperationsSettled) && a < |s.attachments|
    ensures a < |Next(s, CloseOperationsSettled).attachments|
    ensures Next(s, CloseOperationsSettled).attachments[a]
            == if a in AllAttachments(s) then Begun(s.attachments[a], true, None) else s.attachments[a]
  {
    hide AttachmentRefs, ValuesBelow, OperationRefs, OpenRefs, RemovalRefs, AllAttachments, Begun;
  }

  /** Shutdown begins to release a lease that nobody else has begun to release exactly if the session it
      was acquired from is still hosted. */
  lemma ShutdownReleasesIffHosted(s: Router, a: AttachmentId)
    requires Inv(s) && Enabled(s, CloseOperationsSettled) && a < |s.attachments|
    requires !s.attachments[a].acquiring.Refused? && s.attachments[a].release.phase == NotStarted
    ensures Refs(s) && a < |Next(s, CloseOperationsSettled).attachments|
    ensures Next(s, CloseOperationsSettled).attachments[a].release.phase != NotStarted <==>
              IsHosted(s.hostedSessions, s.handles, s.attachments[a].handle)
  {
    InvGivesRefs(s);
    HostedMember(s, a);
    ShutdownStarts(s, a);
    AttachmentFacts(s, a);
    hide Inv, Refs, Next, Enabled, AllAttachments, IsHosted;
  }

  /** Shutdown waits for the release of this attachment, and goes on when it is over. */
  predicate Dealt(shutdown: Shutdown, a: AttachmentId, t: Attachment) {
    match shutdown
    case AwaitAttachments(waited) => Released(t) || a in waited
    case AwaitHandles(_) => Released(t)
    case Complete => Released(t)
    case _ => false
  }

  lemma HostedIsDealt(s: Router, a: AttachmentId)
    requires Inv(s) && Enabled(s, CloseOperationsSettled) && a < |s.attachments|
    requires IsHosted(s.hostedSessions, s.handles, s.attachments[a].handle)
    ensures var t := Next(s, CloseOperationsSettled);
            a < |t.attachments| && Dealt(t.shutdown, a, t.attachments[a])
  {
    InvGivesRefs(s);
    HostedMember(s, a);
    ShutdownStarts(s, a);
    ShutdownMoves(s, CloseOperationsSettled);
    AttachmentFacts(s, a);
    ClearedIsReleased(s, a);
    hide Inv, Refs, Next, Enabled, AllAttachments, IsHosted;
  }

  lemma SettledIsReleased(s: Router, a: AttachmentId)
    requires Inv(s) && Enabled(s, CloseAttachmentsSettled) && a < |s.attachments| && Dealt(s.shutdown, a, s.attachments[a])
    ensures Released(s.attachments[a])
  {
    ClearedIsReleased(s, a);
    hide Inv;
  }

  lemma StepKeepsDealt(s: Router, e: Event, a: AttachmentId)
    requires Inv(s) && Enabled(s, e) && a < |s.attachments| && Dealt(s.shutdown, a, s.attachments[a])
    ensures a < |Next(s, e).attachments| && Dealt(Next(s, e).shutdown, a, Next(s, e).attachments[a])
  {
    InvGivesRefs(s);
    StepContinues(s, e);
    UntouchedFields(s, e);
    if e.CloseAttachmentsSettled? {
      SettledIsReleased(s, a);
    }
    if e.Close? || e.CloseOperationsSettled? || e.CloseAttachmentsSettled? || e.CloseHandlesSettled? {
      ShutdownMoves(s, e);
      ShutdownInOrder(s, e);
    }
    hide Inv, Refs, Next, Enabled, Released, OperationsContinue, HandlesContinue, RemovalsContinue, Local;
    if Released(s.attachments[a]) {
      ReleasedStays(s, e, a);
    }
  }

  lemma {:induction false} RunKeepsDealt(s: Router, events: seq<Event>, t: Router, a: AttachmentId)
    requires Inv(s) && a < |s.attachments| && Dealt(s.shutdown, a, s.attachments[a]) && Execute(s, events) == Some(t)
    ensures a < |t.attachments| && Dealt(t.shutdown, a, t.attachments[a])
    decreases |events|
  {
    hide Inv, Next, Enabled, Dealt;
    if events != [] {
      Preserved(s, events[0]);
      StepKeepsDealt(s, events[0], a);
      RunKeepsDealt(Next(s, events[0]), events[1..], t, a);
    }
  }

  lemma {:induction false} NothingIsCreated(s: Router, events: seq<Event>, t: Router)
    requires Inv(s) && AttachesAwaited(s) && PastOperations(s) && Execute(s, events) == Some(t)
    ensures |t.attachments| == |s.attachments|
    decreases |events|
  {
    hide Inv, AttachesAwaited, Next, Enabled, PastOperations;
    if events != [] {
      Preserved(s, events[0]);
      StepKeepsAttachesAwaited(s, events[0]);
      StaysPastOperations(s, events[0]);
      StepCreatesNothing(s, events[0]);
      NothingIsCreated(Next(s, events[0]), events[1..], t);
    }
  }

  lemma StaysPastOperations(s: Router, e: Event)
    requires Inv(s) && Enabled(s, e) && PastOperations(s)
    ensures PastOperations(Next(s, e))
  {
    InvGivesRefs(s);
    UntouchedFields(s, e);
    if e.Close? || e.CloseOperationsSettled? || e.CloseAttachmentsSettled? || e.CloseHandlesSettled? {
      ShutdownMoves(s, e);
      ShutdownInOrder(s, e);
    }
    hide Inv, Refs, Next, Enabled;
  }

  lemma StepCreatesNothing(s: Router, e: Event)
    requires Inv(s) && Enabled(s, e) && AttachesAwaited(s) && PastOperations(s)
    ensures |Next(s, e).attachments| == |s.attachments|
  {
    StepContinues(s, e);
    hide Inv, Next, Enabled;
    if |s.attachments| < |Next(s, e).attachments| {
      var o := Actor(e).value;
      CreatorIsAttaching(s, o);
    }
  }

  /** Shutdown releases every lease of a session that is still hosted when it has waited for the queues,
      before it closes that session's handle; and no attachment is made any more. */
  lemma HostedLeaseIsReleased(before: seq<Event>, u: Router, after: seq<Event>, s: Router, a: AttachmentId)
    requires Reaches(before, u) && Refs(u) && Enabled(u, CloseOperationsSettled) && a < |u.attachments|
    requires Execute(Next(u, CloseOperationsSettled), after) == Some(s) && (s.shutdown.AwaitHandles? || s.shutdown.Complete?)
    ensures |s.attachments| == |u.attachments|
    ensures u.attachments[a].handle < |u.handles|
    ensures IsHosted(u.hostedSessions, u.handles, u.attachments[a].handle) ==> Released(s.attachments[a])
  {
    InitialInv();
    RunKeepsAttachesAwaited(Initial(), before, u);
    HandleInRange(u, a);
    var t := Next(u, CloseOperationsSettled);
    Preserved(u, CloseOperationsSettled);
    StepKeepsAttachesAwaited(u, CloseOperationsSettled);
    ShutdownMoves(u, CloseOperationsSettled);
    ShutdownStarts(u, a);
    hide Inv, AttachesAwaited, Next, Enabled, Refs, AllAttachments, IsHosted;
    if IsHosted(u.hostedSessions, u.handles, u.attachments[a].handle) {
      HostedIsDealt(u, a);
      RunKeepsDealt(t, after, s, a);
    }
    NothingIsCreated(t, after, s);
    StartsCreateNothing(u);
  }

  lemma StartsCreateNothing(s: Router)
    requires Refs(s) && Enabled(s, CloseOperationsSettled)
    ensures |Next(s, CloseOperationsSettled).attachments| == |s.attachments|
  {
    hide AttachmentRefs, ValuesBelow, OperationRefs, OpenRefs, RemovalRefs, AllAttachments, Begun;
  }

  // ---- a lease that shutdown leaves behind -----------------------------------------------------

  lemma NoneIsAttached(s: Router)
    requires s.hostedSessions == map[]
    ensures AllAttachments(s) == {} && StartReleases(s, {}) == s
  {
    assert StartReleases(s, {}).attachments == s.attachments;
  }

  /** The stages of a shutdown that finds nothing hosted, opened or queued. */
  function Stage(n: nat): Shutdown {
    if n == 0 then NotRequested
    else if n == 1 then AwaitOperations({}, {})
    else if n == 2 then AwaitAttachments({})
    else if n == 3 then AwaitHandles({})
    else Complete
  }

  predicate Empty(s: Router) {
    s.closing && s.hostedSessions == map[] && s.clientOperations == map[] && s.openingSessions == map[]
  }

  lemma ShutdownStep(events: seq<Event>, s: Router, n: nat) returns (more: seq<Event>, t: Router)
    requires Reaches(events, s) && Empty(s) && n < 4 && s.shutdown == Stage(n)
    ensures Reaches(more, t) && Empty(t) && t.shutdown == Stage(n + 1) && t.attachments == s.attachments
  {
    NoneIsAttached(s);
    hide Refs, Reaches, AllAttachments, StartReleases;
    var e := if n == 0 then Close else if n == 1 then CloseOperationsSettled
             else if n == 2 then CloseAttachmentsSettled else CloseHandlesSettled({});
    more, t := Extend(events, s, e);
  }

  lemma ClosingBegins(events: seq<Event>, s: Router) returns (more: seq<Event>, t: Router)
    requires Reaches(events, s)
    ensures Reaches(more, t) && t == s.(closing := true)
  {
    hide Refs, Reaches;
    more, t := Extend(events, s, BeginClosing);
  }

  /** With nothing hosted, opened or queued, shutdown goes through without touching an attachment. */
  lemma ShutdownGoesThrough(events: seq<Event>, s: Router) returns (more: seq<Event>, t: Router)
    requires Reaches(events, s) && s.shutdown.NotRequested?
    requires s.hostedSessions == map[] && s.clientOperations == map[] && s.openingSessions == map[]
    ensures Reaches(more, t) && t.shutdown.Complete? && t.attachments == s.attachments
  {
    hide Reaches;
    more, t := ClosingBegins(events, s);
    for n := 0 to 4
      invariant Reaches(more, t) && Empty(t) && t.shutdown == Stage(n) && t.attachments == s.attachments
    {
      more, t := ShutdownStep(more, t, n);
    }
  }

  /** So shutdown can complete over a lease that nobody releases: its session has been removed under its
      client, and the client has not been disconnected. */
  lemma ShutdownLeavesALease() returns (events: seq<Event>, s: Router)
    ensures Reaches(events, s) && s.shutdown.Complete?
    ensures |s.attachments| == 2 && s.attachments[1].acquiring.Leased? && s.attachments[1].release.phase == NotStarted
  {
    hide Refs, Reaches;
    events, s := OutlivedRun();
    events, s := ShutdownGoesThrough(events, s);
  }
}
