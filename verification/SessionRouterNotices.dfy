/** What clients are told about their attachments. */
module SessionRouterNotices {
  import opened Wrappers
  import opened SessionRouterSpec
  import opened SessionRouterProof
  import opened SessionRouterTheorems
  import opened SessionRouterHistory
  import opened SessionRouterRemovals
  import opened SessionRouterShutdown

  // ---- who begins a release --------------------------------------------------------------------

  /** The release of this attachment is begun by this step. */
  predicate Begins(s: Router, t: Router, a: AttachmentId) {
    && a < |s.attachments| && a < |t.attachments|
    && s.attachments[a].release.phase == NotStarted && t.attachments[a].release.phase != NotStarted
  }

  /** How the step begins a release: whether its end is told, and for which operation of the queue. */
  predicate BegunBy(s: Router, e: Event, release: Release) {
    match e
    case Start(o) =>
      && o < |s.operations| && s.operations[o].kind.Leaves()
      && release.publish == s.operations[o].kind.Detach? && release.starter == Some(o)
    case AttachResumes(o) => !release.publish && release.starter == Some(o)
    case LeaseArrives(o) => release.publish && release.starter == Some(o)
    case Invalidate(_) => release.publish && release.starter.None?
    case Remove(_) => release.publish && release.starter.None?
    case CloseOperationsSettled => release.publish && release.starter.None?
    case _ => false
  }

  lemma StartReleaseBegins(s: Router, b: AttachmentId, publish: bool, o: OperationId, step: Step, a: AttachmentId)
    requires b < |s.attachments| && o < |s.operations|
    ensures var t := At(StartRelease(s, b, publish, Some(o)), o, step);
            Begins(s, t, a) ==> t.attachments[a].release.publish == publish && t.attachments[a].release.starter == Some(o)
  {
  }

  lemma StartReleasesBegin(s: Router, targets: set<AttachmentId>, a: AttachmentId)
    ensures var t := StartReleases(s, targets);
            Begins(s, t, a) ==> t.attachments[a].release.publish && t.attachments[a].release.starter.None?
  {
  }

  lemma StartBegins(s: Router, o: OperationId, a: AttachmentId)
    requires Refs(s) && o < |s.operations|
    ensures Begins(s, StartOperation(s, o), a) ==> BegunBy(s, Start(o), StartOperation(s, o).attachments[a].release)
  {
    var client := s.operations[o].client;
    if client in s.attachmentsByClient {
      var current := s.attachmentsByClient[client];
      assert current < |s.attachments|;
      StartReleaseBegins(s, current, s.operations[o].kind.Detach?, o, AwaitRelease(current), a);
    }
    hide AttachmentRefs, ValuesBelow, OperationRefs, OpenRefs, RemovalRefs, Barred, StartRelease;
    if s.operations[o].kind.Attach? { StartAttachFrame(s, o); }
  }

  lemma ResumeBegins(s: Router, o: OperationId, a: AttachmentId)
    requires Refs(s) && o < |s.operations| && s.operations[o].step.AwaitHosted?
    requires StepRefs(s.operations[o].step, |s.opens|, |s.handles|, |s.attachments|)
    ensures Begins(s, ResumeAttach(s, o), a) ==> BegunBy(s, AttachResumes(o), ResumeAttach(s, o).attachments[a].release)
  {
    var step := s.operations[o].step;
    if step.hosted.Some? && step.current.Some? {
      StartReleaseBegins(s, step.current.value, false, o, AwaitCurrent(step.hosted.value, step.current.value), a);
    }
    hide Refs, Barred, StartRelease;
  }

  lemma ArriveBegins(s: Router, o: OperationId, b: AttachmentId, a: AttachmentId)
    requires Refs(s) && o < |s.operations| && s.operations[o].step == AwaitLease(b) && b < |s.attachments|
    requires s.attachments[b].handle < |s.handles|
    ensures Begins(s, ArriveLease(s, o), a) ==> BegunBy(s, LeaseArrives(o), ArriveLease(s, o).attachments[a].release)
  {
    var taken := s.(attachments := s.attachments[b := s.attachments[b].(lease := true)]);
    StartReleaseBegins(taken, b, true, o, AwaitRelease(b), a);
    hide AttachmentRefs, ValuesBelow, OperationRefs, OpenRefs, RemovalRefs, Barred, StartRelease;
  }

  lemma ManyBegin(s: Router, e: Event, a: AttachmentId)
    requires Refs(s) && Enabled(s, e) && (e.Invalidate? || e.Remove? || e.CloseOperationsSettled?)
    ensures Begins(s, Next(s, e), a) ==> BegunBy(s, e, Next(s, e).attachments[a].release)
  {
    hide AttachmentRefs, OperationRefs, OpenRefs, RemovalRefs, StartReleases;
    match e {
      case Invalidate(h) =>
        var unhosted := s.(hostedSessions := s.hostedSessions - {s.handles[h].id});
        StartReleasesBegin(unhosted, s.handles[h].attachments, a);
      case Remove(session) =>
        if session in s.hostedSessions {
          StartReleasesBegin(s, s.handles[s.hostedSessions[session]].attachments, a);
        }
      case CloseOperationsSettled => StartReleasesBegin(s, AllAttachments(s), a);
    }
  }

  lemma OneBeginsNone(s: Router, e: Event, a: AttachmentId)
    requires Refs(s) && Enabled(s, e) && (e.LeaseSettles? || e.CallSettles? || e.Drained? || e.ClearPublished?)
    ensures !Begins(s, Next(s, e), a)
  {
    hide AttachmentRefs, ValuesBelow, OperationRefs, OpenRefs, RemovalRefs;
  }

  lemma ReleasingBeginsNone(s: Router, e: Event, a: AttachmentId)
    requires Inv(s) && Enabled(s, e) && (e.LeaseForRelease? || e.ReleaseSettles?)
    ensures !Begins(s, Next(s, e), a)
  {
    hide Inv, Refs, Next;
    HandleInRange(s, e.att);
    InvGivesRefs(s);
    ReleaseShape(s, e);
  }

  lemma SwitchBeginsNone(s: Router, e: Event, a: AttachmentId)
    requires Inv(s) && Enabled(s, e) && e.CurrentReleased?
    ensures !Begins(s, Next(s, e), a)
  {
    StepHandleInRange(s, e.op);
    InvGivesRefs(s);
    hide Inv, Refs;
  }

  lemma UntouchedBeginsNone(s: Router, e: Event, a: AttachmentId)
    requires Inv(s) && Enabled(s, e)
    requires e.Enqueue? || e.AcquireReturns? || e.AttachPublished? || e.ReleaseAwaited?
             || e.SessionResolves? || e.AcquiredClosed? || e.HandleOpens? || e.Terminates? || e.RemovalReleased? || e.RemovalClosed?
             || e.BeginClosing? || e.Close? || e.CloseAttachmentsSettled? || e.CloseHandlesSettled?
    ensures Next(s, e).attachments == s.attachments
  {
    InvGivesRefs(s);
    hide Inv, Refs, Next, Enabled;
    if e.Enqueue? || e.AcquireReturns? || e.AttachPublished? || e.ReleaseAwaited? {
      QueueFrame(s, e);
    } else if e.BeginClosing? || e.Close? || e.CloseAttachmentsSettled? || e.CloseHandlesSettled? {
      ShutdownFrame(s, e);
    } else {
      SessionFrame(s, e);
    }
  }

  /** Every release is begun by a detach, a disconnect, a switch, a lease that is given back, a termination,
      a removal or the shutdown. */
  lemma BegunHow(s: Router, e: Event, a: AttachmentId)
    requires Inv(s) && Enabled(s, e)
    ensures Refs(s) && (Begins(s, Next(s, e), a) ==> BegunBy(s, e, Next(s, e).attachments[a].release))
  {
    InvGivesRefs(s);
    hide Inv, Refs, BegunBy, StepRefs, StartOperation, ResumeAttach, ArriveLease;
    match e {
      case Start(o) => StartBegins(s, o, a);
      case AttachResumes(o) =>
        OperationFacts(s, o);
        ResumeBegins(s, o, a);
      case LeaseArrives(o) =>
        HandleInRange(s, s.operations[o].step.attachment);
        ArriveBegins(s, o, s.operations[o].step.attachment, a);
      case _ => OtherBegunHow(s, e, a);
    }
  }

  lemma OtherBegunHow(s: Router, e: Event, a: AttachmentId)
    requires Inv(s) && Enabled(s, e) && !e.Start? && !e.AttachResumes? && !e.LeaseArrives?
    ensures Refs(s) && (Begins(s, Next(s, e), a) ==> BegunBy(s, e, Next(s, e).attachments[a].release))
  {
    InvGivesRefs(s);
    hide Inv, Refs, BegunBy, Next, Enabled;
    match e {
      case Invalidate(_) => ManyBegin(s, e, a);
      case Remove(_) => ManyBegin(s, e, a);
      case CloseOperationsSettled => ManyBegin(s, e, a);
      case LeaseSettles(_, _) => OneBeginsNone(s, e, a);
      case CallSettles(_, _) => OneBeginsNone(s, e, a);
      case Drained(_) => OneBeginsNone(s, e, a);
      case ClearPublished(_, _) => OneBeginsNone(s, e, a);
      case LeaseForRelease(_) => ReleasingBeginsNone(s, e, a);
      case ReleaseSettles(_, _) => ReleasingBeginsNone(s, e, a);
      case CurrentReleased(_) => SwitchBeginsNone(s, e, a);
      case _ => UntouchedBeginsNone(s, e, a);
    }
  }

  // ---- what the client was told last -----------------------------------------------------------

  /** The attachment the client believes it has: what it was told last. */
  function Told(notices: seq<Notice>, c: ClientId): Option<AttachmentId>
    decreases |notices|
  {
    if notices == [] then None
    else if notices[|notices| - 1].client == c then notices[|notices| - 1].attachment
    else Told(notices[..|notices| - 1], c)
  }

  lemma ToldNext(notices: seq<Notice>, n: Notice, c: ClientId)
    ensures Told(notices + [n], c) == if n.client == c then n.attachment else Told(notices, c)
  {
    assert (notices + [n])[..|notices|] == notices;
  }

  /** The attachment is gone and its client was not told: it was released to disconnect or to switch. */
  predicate Untold(a: AttachmentId, c: ClientId, attachments: seq<Attachment>) {
    && a < |attachments| && attachments[a].client == c && attachments[a].Cleared() && !attachments[a].release.publish
  }

  /** The client believes what is the case, unless it is being left in the dark. */
  predicate InTheKnow(c: ClientId, told: Option<AttachmentId>, byClient: map<ClientId, AttachmentId>, attachments: seq<Attachment>) {
    told == Lookup(byClient, c) || (c !in byClient && told.Some? && Untold(told.value, c, attachments))
  }

  ghost predicate AllInTheKnow(s: Router) {
    forall c: ClientId {:trigger Told(s.notices, c)} :: InTheKnow(c, Told(s.notices, c), s.attachmentsByClient, s.attachments)
  }

  lemma UntoldContinues(a: AttachmentId, c: ClientId, before: seq<Attachment>, after: seq<Attachment>)
    requires Untold(a, c, before) && AttachmentsContinue(before, after)
    ensures Untold(a, c, after)
  {
    assert AttachmentContinues(before[a], after[a]);
  }

  lemma ClearTells(s: Router, a: AttachmentId, ok: bool, c: ClientId)
    requires a < |s.attachments| && s.attachments[a].handle < |s.handles| && s.attachments[a].release.phase != NotStarted
    requires InTheKnow(c, Told(s.notices, c), s.attachmentsByClient, s.attachments)
    requires AttachmentsContinue(s.attachments, Clear(s, a, ok).attachments)
    ensures var t := Clear(s, a, ok);
            InTheKnow(c, Told(t.notices, c), t.attachmentsByClient, t.attachments)
  {
    var t := Clear(s, a, ok);
    ToldNext(s.notices, Notice(s.attachments[a].client, None), c);
    if Told(s.notices, c).Some? && Untold(Told(s.notices, c).value, c, s.attachments) {
      UntoldContinues(Told(s.notices, c).value, c, s.attachments, t.attachments);
    }
    hide AttachmentsContinue, Told;
  }

  lemma ReleaseTells(s: Router, e: Event, c: ClientId)
    requires Inv(s) && Enabled(s, e) && (e.LeaseForRelease? || e.ReleaseSettles?)
    requires InTheKnow(c, Told(s.notices, c), s.attachmentsByClient, s.attachments)
    ensures var t := Next(s, e);
            InTheKnow(c, Told(t.notices, c), t.attachmentsByClient, t.attachments)
  {
    hide Inv, Refs, Next, AttachmentsContinue, HandlesContinue, OperationsContinue, RemovalsContinue, Local, Clear, CallRelease, Told, InTheKnow;
    HandleInRange(s, e.att);
    InvGivesRefs(s);
    ReleaseShape(s, e);
    StepContinues(s, e);
    if e.LeaseForRelease? && s.attachments[e.att].acquiring.Leased? {
      CallingTells(s, e.att, c);
    } else {
      ClearTells(s, e.att, e.ReleaseSettles? && e.ok, c);
    }
  }

  lemma CallingTells(s: Router, a: AttachmentId, c: ClientId)
    requires a < |s.attachments| && InTheKnow(c, Told(s.notices, c), s.attachmentsByClient, s.attachments)
    requires AttachmentsContinue(s.attachments, CallRelease(s, a).attachments)
    ensures var t := CallRelease(s, a);
            InTheKnow(c, Told(t.notices, c), t.attachmentsByClient, t.attachments)
  {
    hide AttachmentsContinue, Told;
    if Told(s.notices, c).Some? && Untold(Told(s.notices, c).value, c, s.attachments) {
      UntoldContinues(Told(s.notices, c).value, c, s.attachments, CallRelease(s, a).attachments);
    }
  }

  /** A lease that arrives is either given back, and nothing is told, or becomes the client's, which is told. */
  lemma ArriveTells(s: Router, o: OperationId, a: AttachmentId)
    requires Refs(s) && o < |s.operations| && s.operations[o].step == AwaitLease(a) && a < |s.attachments|
    requires s.attachments[a].handle < |s.handles|
    ensures var t, c := ArriveLease(s, o), s.attachments[a].client;
            || (t.attachmentsByClient == s.attachmentsByClient && t.notices == s.notices)
            || (t.attachmentsByClient == s.attachmentsByClient[c := a] && t.notices == s.notices + [Notice(c, Some(a))])
  {
    hide StartRelease;
    hide Refs, Barred;
    StartKeepsMaps(s.(attachments := s.attachments[a := s.attachments[a].(lease := true)]), a, o);
  }

  lemma StartKeepsMaps(s: Router, a: AttachmentId, o: OperationId)
    requires a < |s.attachments|
    ensures StartRelease(s, a, true, Some(o)).attachmentsByClient == s.attachmentsByClient
    ensures StartRelease(s, a, true, Some(o)).notices == s.notices
  {
  }

  lemma ArrivalTells(s: Router, o: OperationId, c: ClientId)
    requires Inv(s) && Enabled(s, LeaseArrives(o)) && InTheKnow(c, Told(s.notices, c), s.attachmentsByClient, s.attachments)
    ensures Refs(s)
    ensures var t := Next(s, LeaseArrives(o));
            InTheKnow(c, Told(t.notices, c), t.attachmentsByClient, t.attachments)
  {
    var a, t := s.operations[o].step.attachment, Next(s, LeaseArrives(o));
    HandleInRange(s, a);
    InvGivesRefs(s);
    StepContinues(s, LeaseArrives(o));
    ArriveTells(s, o, a);
    ToldNext(s.notices, Notice(s.attachments[a].client, Some(a)), c);
    hide Inv, Refs, ArriveLease, AttachmentsContinue, Told;
    if Told(s.notices, c).Some? && Untold(Told(s.notices, c).value, c, s.attachments) {
      UntoldContinues(Told(s.notices, c).value, c, s.attachments, t.attachments);
    }
  }

  lemma StepTells(s: Router, e: Event, c: ClientId)
    requires Inv(s) && Enabled(s, e) && !e.CloseHandlesSettled?
    requires InTheKnow(c, Told(s.notices, c), s.attachmentsByClient, s.attachments)
    ensures Refs(s)
    ensures var t := Next(s, e);
            InTheKnow(c, Told(t.notices, c), t.attachmentsByClient, t.attachments)
  {
    InvGivesRefs(s);
    if e.LeaseArrives? {
      ArrivalTells(s, e.op, c);
      hide Inv, Refs, Next, InTheKnow;
    } else if e.LeaseForRelease? || e.ReleaseSettles? {
      ReleaseTells(s, e, c);
      hide Inv, Refs, Next, InTheKnow;
    } else {
      var t := Next(s, e);
      UntouchedFields(s, e);
      StepContinues(s, e);
      hide Inv, Refs, Next, Enabled, AttachmentsContinue, Told;
      if Told(s.notices, c).Some? && Untold(Told(s.notices, c).value, c, s.attachments) {
        UntoldContinues(Told(s.notices, c).value, c, s.attachments, t.attachments);
      }
    }
  }

  lemma {:induction false} RunTells(s: Router, events: seq<Event>, t: Router, c: ClientId)
    requires Inv(s) && InTheKnow(c, Told(s.notices, c), s.attachmentsByClient, s.attachments)
    requires Execute(s, events) == Some(t) && !t.shutdown.Complete?
    ensures InTheKnow(c, Told(t.notices, c), t.attachmentsByClient, t.attachments)
    decreases |events|
  {
    if events != [] {
      InvGivesRefs(s);
      hide Inv, Refs, Next, Enabled, InTheKnow, Told;
      Preserved(s, events[0]);
      CompletingIsFinal(s, events, t);
      StepTells(s, events[0], c);
      RunTells(Next(s, events[0]), events[1..], t, c);
    }
  }

  lemma CompletingIsFinal(s: Router, events: seq<Event>, t: Router)
    requires Inv(s) && events != [] && Execute(s, events) == Some(t) && !t.shutdown.Complete?
    ensures !events[0].CloseHandlesSettled?
  {
    hide Inv, Refs;
    InvGivesRefs(s);
    Preserved(s, events[0]);
    if events[0].CloseHandlesSettled? {
      assert Next(s, events[0]).shutdown.Complete?;
      hide Next, Enabled;
      StaysComplete(Next(s, events[0]), events[1..], t);
    }
  }

  lemma {:induction false} StaysComplete(s: Router, events: seq<Event>, t: Router)
    requires Inv(s) && Execute(s, events) == Some(t)
    ensures s.shutdown.Complete? ==> t.shutdown.Complete?
    decreases |events|
  {
    hide Inv, Next, Enabled;
    if events != [] {
      Preserved(s, events[0]);
      CompletionCompletes(s, events[0]);
      StaysComplete(Next(s, events[0]), events[1..], t);
    }
  }

  // ---- who leaves a client in the dark ---------------------------------------------------------

  /** Only a disconnect or a switch releases an attachment without telling its client. */
  predicate SilentlyBegun(a: Attachment, operations: seq<Operation>) {
    a.release.phase != NotStarted && !a.release.publish ==>
      && a.release.starter.Some? && a.release.starter.value < |operations|
      && (operations[a.release.starter.value].kind.Disconnect? || operations[a.release.starter.value].kind.Attach?)
  }

  predicate AllSilentlyBegun(s: Router) {
    forall a {:trigger s.attachments[a]} :: 0 <= a < |s.attachments| ==> SilentlyBegun(s.attachments[a], s.operations)
  }

  lemma StepSilentlyBegun(s: Router, e: Event, a: AttachmentId)
    requires Inv(s) && Enabled(s, e) && AllSilentlyBegun(s)
    ensures Refs(s) && (a < |Next(s, e).attachments| ==> SilentlyBegun(Next(s, e).attachments[a], Next(s, e).operations))
  {
    hide Inv, Refs, Next, HandlesContinue, RemovalsContinue;
    StepContinues(s, e);
    BegunHow(s, e, a);
    InvGivesRefs(s);
    var t := Next(s, e);
    if a < |t.attachments| {
      if a >= |s.attachments| {
        NewIsNotBegun(s, e, a);
      } else {
        assert AttachmentContinues(s.attachments[a], t.attachments[a]);
        assert SilentlyBegun(s.attachments[a], s.operations);
        if Begins(s, t, a) && e.AttachResumes? {
          OperationFacts(s, e.op);
        }
      }
    }
  }

  lemma NewIsNotBegun(s: Router, e: Event, a: AttachmentId)
    requires Inv(s) && Enabled(s, e)
    ensures Refs(s) && (|s.attachments| <= a < |Next(s, e).attachments| ==> Next(s, e).attachments[a].release.phase == NotStarted)
  {
    hide Inv, Refs, Next, Enabled, Continues, OnlyMoves;
    StepContinues(s, e);
    InvGivesRefs(s);
  }

  lemma StepAllSilentlyBegun(s: Router, e: Event)
    requires Inv(s) && Enabled(s, e) && AllSilentlyBegun(s)
    ensures Refs(s) && AllSilentlyBegun(Next(s, e))
  {
    InvGivesRefs(s);
    hide Inv, Refs, Next, Enabled, SilentlyBegun;
    forall a | 0 <= a < |Next(s, e).attachments|
      ensures SilentlyBegun(Next(s, e).attachments[a], Next(s, e).operations)
    {
      StepSilentlyBegun(s, e, a);
    }
  }

  lemma {:induction false} RunSilentlyBegun(s: Router, events: seq<Event>, t: Router)
    requires Inv(s) && AllSilentlyBegun(s) && Execute(s, events) == Some(t)
    ensures AllSilentlyBegun(t)
    decreases |events|
  {
    hide Inv, Next, Enabled, AllSilentlyBegun;
    if events != [] {
      Preserved(s, events[0]);
      StepAllSilentlyBegun(s, events[0]);
      RunSilentlyBegun(Next(s, events[0]), events[1..], t);
    }
  }

  /** Until shutdown is complete a client was told last exactly the attachment it has, or that it has none;
      unless the one it was told of was released, without a word, to disconnect it or to switch. */
  lemma ClientsAreTold(events: seq<Event>, s: Router, c: ClientId)
    requires Reaches(events, s) && !s.shutdown.Complete?
    ensures Told(s.notices, c) == Lookup(s.attachmentsByClient, c)
            || (c !in s.attachmentsByClient && Told(s.notices, c).Some? && Untold(Told(s.notices, c).value, c, s.attachments))
    ensures Told(s.notices, c).Some? && Untold(Told(s.notices, c).value, c, s.attachments) ==>
              var starter := s.attachments[Told(s.notices, c).value].release.starter;
              && starter.Some? && starter.value < |s.operations|
              && (s.operations[starter.value].kind.Disconnect? || s.operations[starter.value].kind.Attach?)
  {
    InitialInv();
    hide Inv, Told;
    assert Told([], c) == None by { TellNone(c); }
    RunTells(Initial(), events, s, c);
    RunSilentlyBegun(Initial(), events, s);
    if Told(s.notices, c).Some? && Untold(Told(s.notices, c).value, c, s.attachments) {
      assert SilentlyBegun(s.attachments[Told(s.notices, c).value], s.operations);
    }
  }

  lemma TellNone(c: ClientId)
    ensures Told([], c) == None
  {
  }

  // ---- a client left in the dark ---------------------------------------------------------------

  /** Client 0, attached to session 1, attaches to session 2, which has been opened. */
  lemma SwitchingRun() returns (events: seq<Event>, s: Router)
    ensures Reaches(events, s)
    ensures s == Initial().(
      notices := [Notice(0, Some(0))],
      hostedSessions := map[1 := 0, 2 := 1], attachmentsByClient := map[0 := 0], clientOperations := map[0 := 1],
      handles := [Handle(1, {0}, false, false), Handle(2, {}, false, false)],
      attachments := [Attachment(0, 0, 0, {}, Leased, true, Release(NotStarted, {}, false, None, true), 0)],
      operations := [Operation(0, Attach(1), None, Finished), Operation(0, Attach(2), None, AwaitHosted(Some(1), Some(0)))],
      opens := [Open(1, Opened(0)), Open(2, Opened(1))])
  {
    hide Refs, Reaches;
    events, s := SwitchQueuedRun();
    events, s := Extend(events, s, HandleOpens(1, true));
    events, s := Extend(events, s, AcquireReturns(1));
    assert s.openingSessions == map[];
  }

  lemma SwitchQueuedRun() returns (events: seq<Event>, s: Router)
    ensures Reaches(events, s)
    ensures s == Initial().(
      notices := [Notice(0, Some(0))],
      hostedSessions := map[1 := 0], attachmentsByClient := map[0 := 0], clientOperations := map[0 := 1],
      handles := [Handle(1, {0}, false, false)],
      attachments := [Attachment(0, 0, 0, {}, Leased, true, Release(NotStarted, {}, false, None, true), 0)],
      operations := [Operation(0, Attach(1), None, Finished), Operation(0, Attach(2), None, AwaitOpen(1, true, Some(0)))],
      opens := [Open(1, Opened(0)), Open(2, Opening(2))], openingSessions := map[2 := 1])
  {
    hide Refs, Reaches;
    events, s := AttachedRun();
    events, s := Extend(events, s, Enqueue(0, Attach(2)));
    events, s := Extend(events, s, Start(1));
    events, s := Extend(events, s, SessionResolves(1, Some(2)));
  }

  /** Its old lease has been released for the switch. */
  lemma SwitchedRun() returns (events: seq<Event>, s: Router)
    ensures Reaches(events, s)
    ensures s == Initial().(
      notices := [Notice(0, Some(0))],
      hostedSessions := map[1 := 0, 2 := 1], clientOperations := map[0 := 1],
      handles := [Handle(1, {}, false, false), Handle(2, {}, false, false)],
      attachments := [Attachment(0, 0, 0, {}, Leased, true, Release(Settled, {}, false, Some(1), true), 1)],
      operations := [Operation(0, Attach(1), None, Finished), Operation(0, Attach(2), None, AwaitCurrent(1, 0))],
      opens := [Open(1, Opened(0)), Open(2, Opened(1))])
  {
    hide Refs, Reaches;
    events, s := ReleasingForSwitchRun();
    events, s := Extend(events, s, ReleaseSettles(0, true));
    assert {0} - {0} == {};
    assert s.handles == [Handle(1, {}, false, false), Handle(2, {}, false, false)];
    assert s.attachmentsByClient == map[];
  }

  lemma ReleasingForSwitchRun() returns (events: seq<Event>, s: Router)
    ensures Reaches(events, s)
    ensures s == Initial().(
      notices := [Notice(0, Some(0))],
      hostedSessions := map[1 := 0, 2 := 1], attachmentsByClient := map[0 := 0], clientOperations := map[0 := 1],
      handles := [Handle(1, {0}, false, false), Handle(2, {}, false, false)],
      attachments := [Attachment(0, 0, 0, {}, Leased, true, Release(Releasing, {}, false, Some(1), true), 1)],
      operations := [Operation(0, Attach(1), None, Finished), Operation(0, Attach(2), None, AwaitCurrent(1, 0))],
      opens := [Open(1, Opened(0)), Open(2, Opened(1))])
  {
    hide Refs, Reaches;
    events, s := SwitchingRun();
    events, s := Extend(events, s, AttachResumes(1));
    events, s := Extend(events, s, Drained(0));
    assert s.attachments == [Attachment(0, 0, 0, {}, Leased, true, Release(Releasing, {}, false, Some(1), true), 1)];
  }

  /** A switch whose new lease is refused leaves the client in the dark: it is connected, nothing is under
      way, it has no attachment, and what it was told last is that it has the old one. */
  lemma FailedSwitchIsNotTold() returns (events: seq<Event>, s: Router)
    ensures Reaches(events, s) && !s.closing && 0 !in s.disconnectedClients && |s.operations| == 2
    ensures s.operations[0].step.Finished? && s.operations[1].step.Finished?
    ensures Told(s.notices, 0) == Some(0) && 0 !in s.attachmentsByClient
  {
    hide Refs, Reaches;
    events, s := SwitchedRun();
    events, s := Extend(events, s, CurrentReleased(1));
    events, s := Extend(events, s, LeaseSettles(1, false));
    events, s := Extend(events, s, LeaseArrives(1));
    assert s.notices[|s.notices| - 1] == Notice(0, Some(0));
  }
}
