/** When a client's attachment outlives the hosting of its session. */
module SessionRouterRemovals {
  import opened Wrappers
  import opened SessionRouterSpec
  import opened SessionRouterProof
  import opened SessionRouterTheorems
  import opened SessionRouterHistory

  predicate IsHosted(hosted: map<SessionId, HandleId>, handles: seq<Handle>, h: HandleId) {
    h < |handles| && Lookup(hosted, handles[h].id) == Some(h)
  }

  /** A removal of this handle's session has been carried out to its end. */
  predicate Gone(removals: seq<Removal>, h: HandleId) {
    exists r {:trigger removals[r]} :: 0 <= r < |removals| && removals[r].handle == h && removals[r].step.Removed?
  }

  /** A removal names its handle's session, and when it is over the handle is no longer hosted. */
  predicate RemovalSound(removal: Removal, hosted: map<SessionId, HandleId>, handles: seq<Handle>) {
    && removal.handle < |handles| && handles[removal.handle].id == removal.session
    && (removal.step.Removed? ==> Lookup(hosted, removal.session) != Some(removal.handle))
  }

  predicate RemovalsSound(removals: seq<Removal>, hosted: map<SessionId, HandleId>, handles: seq<Handle>) {
    forall r {:trigger removals[r]} :: 0 <= r < |removals| ==> RemovalSound(removals[r], hosted, handles)
  }

  /** A client's current attachment that nobody has begun to release is of a hosted session, or of one
      that has been removed. */
  predicate MappedSound(byClient: map<ClientId, AttachmentId>, attachments: seq<Attachment>,
                        hosted: map<SessionId, HandleId>, handles: seq<Handle>, removals: seq<Removal>) {
    forall c {:trigger byClient[c]} ::
      (c in byClient && byClient[c] < |attachments| && attachments[byClient[c]].release.phase == NotStarted) ==>
        (IsHosted(hosted, handles, attachments[byClient[c]].handle) || Gone(removals, attachments[byClient[c]].handle))
  }

  predicate Sound(s: Router) {
    && RemovalsSound(s.removals, s.hostedSessions, s.handles)
    && MappedSound(s.attachmentsByClient, s.attachments, s.hostedSessions, s.handles, s.removals)
  }

  // ---- one removal -----------------------------------------------------------------------------

  lemma HostedUnderOwnId(s: Router, id: SessionId)
    requires Inv(s) && id in s.hostedSessions
    ensures s.hostedSessions[id] < |s.handles| && s.handles[s.hostedSessions[id]].id == id
  {
    hide Members, OpeningEntries, AllOwned, Openers, Clients, Chain, Previous, TailEntries, Tails, AllConsistent, NoOrphans,
         AllQueueDrained, Delivered, AttachmentRefs, OperationRefs, OpenRefs, RemovalRefs;
  }

  lemma UnhostsIff(hosted: map<SessionId, HandleId>, handles: seq<Handle>, id: SessionId, g: HandleId, h: HandleId)
    requires Hosted(hosted, handles) && h < |handles|
    ensures (IsHosted(hosted, handles, h) && !IsHosted(DeleteIf(hosted, id, g), handles, h))
            <==> (h == g && Lookup(hosted, id) == Some(g))
  {
  }

  lemma RemovalClosedIs(s: Router, r: RemovalId)
    requires Refs(s) && Enabled(s, RemovalClosed(r))
    ensures Next(s, RemovalClosed(r))
         == s.(hostedSessions := DeleteIf(s.hostedSessions, s.removals[r].session, s.removals[r].handle),
               removals := s.removals[r := s.removals[r].(step := Removed)])
  {
    hide Refs;
  }

  lemma HostedHolds(s: Router)
    requires Inv(s)
    ensures Hosted(s.hostedSessions, s.handles)
  {
  }

  /** The attachment is the client's current one and nobody has begun to release it. */
  predicate Stays(s: Router, c: ClientId, a: AttachmentId) {
    Lookup(s.attachmentsByClient, c) == Some(a) && a < |s.attachments| && s.attachments[a].release.phase == NotStarted
  }

  /** The end of a removal leaves a client with a current attachment of an unhosted session exactly if the
      attachment is of the removed handle, nobody has begun to release it, and that handle is still the
      one hosted. */
  lemma RemovalUnhostsAttachmentIff(s: Router, r: RemovalId, c: ClientId)
    requires Inv(s) && Enabled(s, RemovalClosed(r)) && c in s.attachmentsByClient
    ensures Refs(s) && s.attachmentsByClient[c] < |s.attachments|
    ensures var t, a := Next(s, RemovalClosed(r)), s.attachmentsByClient[c];
            var h := s.attachments[a].handle;
            (&& Stays(t, c, a)
             && IsHosted(s.hostedSessions, s.handles, h) && !IsHosted(t.hostedSessions, t.handles, h))
            <==> (&& s.attachments[a].release.phase == NotStarted && h == s.removals[r].handle
                  && Lookup(s.hostedSessions, s.removals[r].session) == Some(s.removals[r].handle))
  {
    InvGivesRefs(s);
    MapInRange(s);
    HostedHolds(s);
    hide Inv, Refs, Next, IsHosted, Hosted;
    var a := s.attachmentsByClient[c];
    HandleInRange(s, a);
    RemovalClosedIs(s, r);
    UnhostsIff(s.hostedSessions, s.handles, s.removals[r].session, s.removals[r].handle, s.attachments[a].handle);
  }

  // ---- what every run keeps --------------------------------------------------------------------

  lemma GoneContinues(before: seq<Removal>, after: seq<Removal>, h: HandleId)
    requires Gone(before, h) && RemovalsContinue(before, after)
    ensures Gone(after, h)
  {
    var r :| 0 <= r < |before| && before[r].handle == h && before[r].step.Removed?;
    assert after[r].handle == h && after[r].step.Removed?;
  }

  /** Hosted handles stay hosted, and no entry of the client map is new. */
  lemma MappedFrames(s: Router, t: Router)
    requires MappedSound(s.attachmentsByClient, s.attachments, s.hostedSessions, s.handles, s.removals) && Continues(s, t)
    requires forall c :: c in t.attachmentsByClient ==> c in s.attachmentsByClient && t.attachmentsByClient[c] == s.attachmentsByClient[c]
    requires forall c :: c in s.attachmentsByClient ==> s.attachmentsByClient[c] < |s.attachments|
    requires forall id :: id in s.hostedSessions ==> id in t.hostedSessions && t.hostedSessions[id] == s.hostedSessions[id]
    ensures MappedSound(t.attachmentsByClient, t.attachments, t.hostedSessions, t.handles, t.removals)
  {
    forall c | c in t.attachmentsByClient && t.attachmentsByClient[c] < |t.attachments|
               && t.attachments[t.attachmentsByClient[c]].release.phase == NotStarted
      ensures var h := t.attachments[t.attachmentsByClient[c]].handle;
              IsHosted(t.hostedSessions, t.handles, h) || Gone(t.removals, h)
    {
      var a := s.attachmentsByClient[c];
      assert AttachmentContinues(s.attachments[a], t.attachments[a]);
      var h := s.attachments[a].handle;
      if Gone(s.removals, h) {
        GoneContinues(s.removals, t.removals, h);
      } else {
        assert t.handles[h].id == s.handles[h].id;
      }
    }
  }

  lemma MapInRange(s: Router)
    requires Inv(s)
    ensures forall c :: c in s.attachmentsByClient ==> s.attachmentsByClient[c] < |s.attachments|
  {
    hide Members, Hosted, OpeningEntries, AllOwned, Openers, Clients, Chain, Previous, TailEntries, Tails, AllConsistent,
         NoOrphans, AllQueueDrained, Delivered, AttachmentRefs, OperationRefs, OpenRefs, RemovalRefs;
  }

  lemma ClearMap(s: Router, a: AttachmentId, ok: bool)
    requires a < |s.attachments| && s.attachments[a].handle < |s.handles|
    ensures Clear(s, a, ok).attachmentsByClient == DeleteIf(s.attachmentsByClient, s.attachments[a].client, a)
    ensures CallRelease(s, a).attachmentsByClient == s.attachmentsByClient
  {
  }

  lemma ClearShrinksMap(s: Router, e: Event)
    requires Inv(s) && Enabled(s, e) && (e.LeaseForRelease? || e.ReleaseSettles?)
    ensures forall c :: c in Next(s, e).attachmentsByClient ==>
              c in s.attachmentsByClient && Next(s, e).attachmentsByClient[c] == s.attachmentsByClient[c]
  {
    HandleInRange(s, e.att);
    InvGivesRefs(s);
    ClearMap(s, e.att, e.ReleaseSettles? && e.ok);
    hide Inv, Refs, Clear, CallRelease;
  }

  /** Steps that neither host nor unhost, nor hand a lease to a client. */
  lemma QuietStepKeepsMapped(s: Router, e: Event)
    requires Inv(s) && Enabled(s, e) && MappedSound(s.attachmentsByClient, s.attachments, s.hostedSessions, s.handles, s.removals)
    requires !e.HandleOpens? && !e.Invalidate? && !e.RemovalClosed? && !e.CloseHandlesSettled? && !e.LeaseArrives?
    ensures var t := Next(s, e);
            MappedSound(t.attachmentsByClient, t.attachments, t.hostedSessions, t.handles, t.removals)
  {
    StepContinues(s, e);
    UntouchedFields(s, e);
    MapInRange(s);
    hide Inv, Next, Enabled, Continues, MappedSound;
    if e.LeaseForRelease? || e.ReleaseSettles? {
      ClearShrinksMap(s, e);
    }
    MappedFrames(s, Next(s, e));
  }

  lemma HostingKeepsMapped(s: Router, e: Event)
    requires Inv(s) && HandleInv(s) && Enabled(s, e) && e.HandleOpens?
    requires MappedSound(s.attachmentsByClient, s.attachments, s.hostedSessions, s.handles, s.removals)
    ensures var t := Next(s, e);
            MappedSound(t.attachmentsByClient, t.attachments, t.hostedSessions, t.handles, t.removals)
  {
    StepContinues(s, e);
    UntouchedFields(s, e);
    MapInRange(s);
    assert Exclusive(e.open, s.opens[e.open], s.openingSessions, s.hostedSessions);
    hide Inv, HandleInv, Continues, MappedSound;
    MappedFrames(s, Next(s, e));
  }

  /** The state right after unhosting `h`: whoever is attached to it is being released, or it is gone. */
  lemma UnhostingKeepsMapped(s: Router, t: Router, h: HandleId)
    requires MappedSound(s.attachmentsByClient, s.attachments, s.hostedSessions, s.handles, s.removals) && Continues(s, t)
    requires h < |s.handles| && t.attachmentsByClient == s.attachmentsByClient
    requires forall c :: c in s.attachmentsByClient ==> s.attachmentsByClient[c] < |s.attachments|
    requires forall id :: id in s.hostedSessions && s.hostedSessions[id] != h ==>
               id in t.hostedSessions && t.hostedSessions[id] == s.hostedSessions[id]
    requires Gone(t.removals, h) || forall c :: c in s.attachmentsByClient && s.attachments[s.attachmentsByClient[c]].handle == h ==>
               t.attachments[s.attachmentsByClient[c]].release.phase != NotStarted
    ensures MappedSound(t.attachmentsByClient, t.attachments, t.hostedSessions, t.handles, t.removals)
  {
    forall c | c in t.attachmentsByClient && t.attachmentsByClient[c] < |t.attachments|
               && t.attachments[t.attachmentsByClient[c]].release.phase == NotStarted
      ensures var g := t.attachments[t.attachmentsByClient[c]].handle;
              IsHosted(t.hostedSessions, t.handles, g) || Gone(t.removals, g)
    {
      var a := s.attachmentsByClient[c];
      assert AttachmentContinues(s.attachments[a], t.attachments[a]);
      var g := s.attachments[a].handle;
      if Gone(s.removals, g) {
        GoneContinues(s.removals, t.removals, g);
      } else if g != h {
        assert t.handles[g].id == s.handles[g].id;
      }
    }
  }

  lemma MappedIsMember(s: Router, c: ClientId)
    requires Inv(s) && c in s.attachmentsByClient
    ensures var a := s.attachmentsByClient[c];
            a < |s.attachments| && s.attachments[a].handle < |s.handles| && a in s.handles[s.attachments[a].handle].attachments
  {
    var a := s.attachmentsByClient[c];
    assert a < |s.attachments| && s.attachments[a].client == c;
    hide Inv;
    AttachmentFacts(s, a);
  }

  lemma InvalidateStartsMembers(s: Router, h: HandleId, a: AttachmentId)
    requires Refs(s) && Enabled(s, Invalidate(h)) && Lookup(s.hostedSessions, s.handles[h].id) == Some(h)
    requires a < |s.attachments| && a in s.handles[h].attachments
    ensures Next(s, Invalidate(h)).attachments[a].release.phase != NotStarted
  {
    hide AttachmentRefs, ValuesBelow, OperationRefs, OpenRefs, RemovalRefs;
  }

  lemma InvalidatingKeepsMapped(s: Router, h: HandleId)
    requires Inv(s) && Enabled(s, Invalidate(h))
    requires MappedSound(s.attachmentsByClient, s.attachments, s.hostedSessions, s.handles, s.removals)
    ensures var t := Next(s, Invalidate(h));
            MappedSound(t.attachmentsByClient, t.attachments, t.hostedSessions, t.handles, t.removals)
  {
    var t := Next(s, Invalidate(h));
    InvGivesRefs(s);
    if Lookup(s.hostedSessions, s.handles[h].id) == Some(h) {
      StepContinues(s, Invalidate(h));
      UntouchedFields(s, Invalidate(h));
      MapInRange(s);
      forall c | c in s.attachmentsByClient && s.attachments[s.attachmentsByClient[c]].handle == h
        ensures t.attachments[s.attachmentsByClient[c]].release.phase != NotStarted
      {
        MappedIsMember(s, c);
        InvalidateStartsMembers(s, h, s.attachmentsByClient[c]);
      }
      hide Inv, Refs, Continues, MappedSound, StartReleases;
      UnhostingKeepsMapped(s, t, h);
    }
  }

  lemma RemovingKeepsMapped(s: Router, r: RemovalId)
    requires Inv(s) && Enabled(s, RemovalClosed(r))
    requires MappedSound(s.attachmentsByClient, s.attachments, s.hostedSessions, s.handles, s.removals)
    ensures var t := Next(s, RemovalClosed(r));
            MappedSound(t.attachmentsByClient, t.attachments, t.hostedSessions, t.handles, t.removals)
  {
    var t := Next(s, RemovalClosed(r));
    InvGivesRefs(s);
    RemovalInRange(s, r);
    StepContinues(s, RemovalClosed(r));
    UntouchedFields(s, RemovalClosed(r));
    MapInRange(s);
    assert t.removals[r].handle == s.removals[r].handle && t.removals[r].step.Removed?;
    hide Inv, Refs, Continues, MappedSound;
    UnhostingKeepsMapped(s, t, s.removals[r].handle);
  }

  lemma ArrivingShape(s: Router, o: OperationId, a: AttachmentId)
    requires Refs(s) && o < |s.operations| && s.operations[o].step == AwaitLease(a) && a < |s.attachments|
    requires s.attachments[a].handle < |s.handles|
    ensures var t, c := ArriveLease(s, o), s.attachments[a].client;
            || t.attachmentsByClient == s.attachmentsByClient
            || (t.attachmentsByClient == s.attachmentsByClient[c := a] && !Barred(s, c)
                && IsHosted(s.hostedSessions, s.handles, s.attachments[a].handle))
  {
    hide AttachmentRefs, ValuesBelow, OperationRefs, OpenRefs, RemovalRefs, Finish, StartRelease, Barred;
    var taken := s.(attachments := s.attachments[a := s.attachments[a].(lease := true)]);
    FinishFrame(DropFromHandle(s, a), o);
    StartReleaseFrame(taken, a, true, o, AwaitRelease(a));
  }

  lemma ArrivingKeepsMapped(s: Router, o: OperationId)
    requires Inv(s) && Enabled(s, LeaseArrives(o))
    requires MappedSound(s.attachmentsByClient, s.attachments, s.hostedSessions, s.handles, s.removals)
    ensures var t := Next(s, LeaseArrives(o));
            MappedSound(t.attachmentsByClient, t.attachments, t.hostedSessions, t.handles, t.removals)
  {
    var t, a := Next(s, LeaseArrives(o)), s.operations[o].step.attachment;
    StepContinues(s, LeaseArrives(o));
    UntouchedFields(s, LeaseArrives(o));
    MapInRange(s);
    HandleInRange(s, a);
    InvGivesRefs(s);
    ArrivingShape(s, o, a);
    hide Inv, Refs, ArriveLease, Enabled;
    forall c | c in t.attachmentsByClient && t.attachmentsByClient[c] < |t.attachments|
               && t.attachments[t.attachmentsByClient[c]].release.phase == NotStarted
      ensures var h := t.attachments[t.attachmentsByClient[c]].handle;
              IsHosted(t.hostedSessions, t.handles, h) || Gone(t.removals, h)
    {
      var b := t.attachmentsByClient[c];
      assert b < |s.attachments| && AttachmentContinues(s.attachments[b], t.attachments[b]);
      var h := s.attachments[b].handle;
      if IsHosted(s.hostedSessions, s.handles, h) {
        assert t.handles[h].id == s.handles[h].id;
      }
    }
  }

  // ---- removals --------------------------------------------------------------------------------

  lemma RemovalsFrames(s: Router, t: Router)
    requires RemovalsSound(s.removals, s.hostedSessions, s.handles) && Continues(s, t) && t.removals == s.removals
    requires OldHostings(s.hostedSessions, t.hostedSessions, |s.handles|)
    ensures RemovalsSound(t.removals, t.hostedSessions, t.handles)
  {
    forall r | 0 <= r < |t.removals| ensures RemovalSound(t.removals[r], t.hostedSessions, t.handles) {
      assert RemovalSound(s.removals[r], s.hostedSessions, s.handles);
      assert t.handles[s.removals[r].handle].id == s.handles[s.removals[r].handle].id;
    }
  }

  predicate OldHostings(before: map<SessionId, HandleId>, after: map<SessionId, HandleId>, handles: nat) {
    forall id {:trigger after[id]} :: id in after && after[id] < handles ==> id in before && before[id] == after[id]
  }

  lemma OpeningHosts(s: Router, n: OpenId, ok: bool)
    requires n < |s.opens| && s.opens[n].phase.Opening?
    ensures OldHostings(s.hostedSessions, OpenHandle(s, n, ok).hostedSessions, |s.handles|)
  {
  }

  lemma HostedShrinks(s: Router, e: Event)
    requires Refs(s) && Enabled(s, e) && (e.HandleOpens? || e.Invalidate? || e.CloseHandlesSettled?)
    ensures OldHostings(s.hostedSessions, Next(s, e).hostedSessions, |s.handles|)
  {
    if e.HandleOpens? {
      OpeningHosts(s, e.open, e.ok);
    }
    hide AttachmentRefs, ValuesBelow, OperationRefs, OpenRefs, RemovalRefs, OpenHandle, StartReleases;
    if e.Invalidate? {
      StartReleasesHosting(s.(hostedSessions := s.hostedSessions - {s.handles[e.handle].id}), s.handles[e.handle].attachments);
    }
  }

  lemma StartReleasesHosting(s: Router, targets: set<AttachmentId>)
    ensures StartReleases(s, targets).hostedSessions == s.hostedSessions
  {
  }

  lemma RemovalStepKeepsRemovals(s: Router, e: Event)
    requires Inv(s) && Enabled(s, e) && (e.Remove? || e.RemovalReleased? || e.RemovalClosed?)
    requires RemovalsSound(s.removals, s.hostedSessions, s.handles)
    ensures var t := Next(s, e); RemovalsSound(t.removals, t.hostedSessions, t.handles)
  {
    var t := Next(s, e);
    StepContinues(s, e);
    InvGivesRefs(s);
    if e.Remove? && e.session in s.hostedSessions {
      HostedUnderOwnId(s, e.session);
    }
    hide Inv, Refs, StartReleases;
    forall r | 0 <= r < |t.removals| ensures RemovalSound(t.removals[r], t.hostedSessions, t.handles) {
      if r < |s.removals| {
        assert RemovalSound(s.removals[r], s.hostedSessions, s.handles);
        assert t.handles[s.removals[r].handle].id == s.handles[s.removals[r].handle].id;
      }
    }
  }

  lemma StepKeepsRemovals(s: Router, e: Event)
    requires Inv(s) && Enabled(s, e) && RemovalsSound(s.removals, s.hostedSessions, s.handles)
    ensures var t := Next(s, e); RemovalsSound(t.removals, t.hostedSessions, t.handles)
  {
    InvGivesRefs(s);
    hide Inv, Refs, Next, Enabled, Continues, RemovalsSound;
    if e.Remove? || e.RemovalReleased? || e.RemovalClosed? {
      RemovalStepKeepsRemovals(s, e);
    } else {
      StepContinues(s, e);
      UntouchedFields(s, e);
      if e.HandleOpens? || e.Invalidate? || e.CloseHandlesSettled? {
        HostedShrinks(s, e);
      }
      RemovalsFrames(s, Next(s, e));
    }
  }

  lemma CompletionEmptiesMap(s: Router, failed: set<HandleId>)
    requires Refs(s) && Enabled(s, CloseHandlesSettled(failed))
    ensures Next(s, CloseHandlesSettled(failed)).attachmentsByClient == map[]
  {
    hide AttachmentRefs, ValuesBelow, OperationRefs, OpenRefs, RemovalRefs;
  }

  lemma StepKeepsSound(s: Router, e: Event)
    requires Inv(s) && HandleInv(s) && Enabled(s, e) && Sound(s)
    ensures Sound(Next(s, e))
  {
    InvGivesRefs(s);
    StepKeepsRemovals(s, e);
    hide Inv, Refs, HandleInv, RemovalsSound, Next, Enabled;
    match e {
      case HandleOpens(_, _) => HostingKeepsMapped(s, e);
      case Invalidate(h) => InvalidatingKeepsMapped(s, h);
      case RemovalClosed(r) => RemovingKeepsMapped(s, r);
      case LeaseArrives(o) => ArrivingKeepsMapped(s, o);
      case CloseHandlesSettled(failed) => CompletionEmptiesMap(s, failed);
      case _ => QuietStepKeepsMapped(s, e);
    }
  }

  lemma {:induction false} RunKeepsSound(s: Router, events: seq<Event>, t: Router)
    requires Inv(s) && HandleInv(s) && RemovalsClosed(s.removals, s.handles) && Sound(s)
    requires FaithfulRun(s, events) && Execute(s, events) == Some(t)
    ensures Inv(t) && HandleInv(t) && RemovalsClosed(t.removals, t.handles) && Sound(t)
    decreases |events|
  {
    hide Inv, HandleInv, RemovalsClosed, Sound, Next, Enabled, Faithful;
    if events != [] {
      Preserved(s, events[0]);
      HandlePreserved(s, events[0]);
      StepKeepsSound(s, events[0]);
      RunKeepsSound(Next(s, events[0]), events[1..], t);
    }
  }

  lemma ReachedIsSound(events: seq<Event>, s: Router)
    requires Reaches(events, s) && FaithfulRun(Initial(), events)
    ensures Inv(s) && HandleInv(s) && RemovalsClosed(s.removals, s.handles) && Sound(s)
  {
    InitialInv();
    RunKeepsSound(Initial(), events, s);
  }

  /** If `resolveSession` answers faithfully, a client's current attachment that nobody has begun to
      release is of a hosted session if and only if no removal of that session's handle has been carried
      out; and a handle that was removed has been closed. */
  lemma AttachedIsHostedIff(events: seq<Event>, s: Router, c: ClientId)
    requires Reaches(events, s) && FaithfulRun(Initial(), events) && c in s.attachmentsByClient
    ensures s.attachmentsByClient[c] < |s.attachments|
    ensures var h := s.attachments[s.attachmentsByClient[c]].handle;
            s.attachments[s.attachmentsByClient[c]].release.phase == NotStarted ==>
              && (IsHosted(s.hostedSessions, s.handles, h) <==> !Gone(s.removals, h))
              && (Gone(s.removals, h) ==> h < |s.handles| && s.handles[h].closed)
  {
    ReachedIsSound(events, s);
    MapInRange(s);
    hide Inv, HandleInv;
    var h := s.attachments[s.attachmentsByClient[c]].handle;
    if Gone(s.removals, h) {
      var r :| 0 <= r < |s.removals| && s.removals[r].handle == h && s.removals[r].step.Removed?;
      assert RemovalSound(s.removals[r], s.hostedSessions, s.handles);
    }
  }

  // ---- a client need not wait for `close` to be late -------------------------------------------

  /** Client 2 attaches while the removal still awaits the release of client 0. */
  lemma EarlyLateClientRun() returns (events: seq<Event>, s: Router)
    ensures Reaches(events, s)
    ensures s == Initial().(
      notices := s.notices,
      hostedSessions := map[1 := 0], attachmentsByClient := map[0 := 0, 2 := 1], clientOperations := map[2 := 1],
      handles := [Handle(1, {0, 1}, false, false)],
      attachments := [Attachment(0, 0, 0, {}, Leased, true, Release(Releasing, {}, true, None, true), 1),
                      Attachment(2, 0, 1, {}, Leased, true, Release(NotStarted, {}, false, None, true), 0)],
      operations := [Operation(0, Attach(1), None, Finished), Operation(2, Attach(1), None, AwaitPublish)],
      opens := [Open(1, Opened(0))],
      removals := [Removal(1, 0, AwaitReleases({0}))])
  {
    hide Refs, Reaches;
    events, s := ReleasingRun();
    events, s := Extend(events, s, Enqueue(2, Attach(1)));
    events, s := Extend(events, s, Start(1));
    assert s.operations[1] == Operation(2, Attach(1), None, AwaitHosted(Some(0), None));
    events, s := Extend(events, s, AttachResumes(1));
    assert {0} + {1} == {0, 1};
    assert s.handles == [Handle(1, {0, 1}, false, false)];
    events, s := Extend(events, s, LeaseSettles(1, true));
    events, s := Extend(events, s, LeaseArrives(1));
  }

  /** Client 2's attachment has been published. */
  lemma EarlyIdleRun() returns (events: seq<Event>, s: Router)
    ensures Reaches(events, s)
    ensures s == Initial().(
      notices := s.notices,
      hostedSessions := map[1 := 0], attachmentsByClient := map[0 := 0, 2 := 1],
      handles := [Handle(1, {0, 1}, false, false)],
      attachments := [Attachment(0, 0, 0, {}, Leased, true, Release(Releasing, {}, true, None, true), 1),
                      Attachment(2, 0, 1, {}, Leased, true, Release(NotStarted, {}, false, None, true), 0)],
      operations := [Operation(0, Attach(1), None, Finished), Operation(2, Attach(1), None, Finished)],
      opens := [Open(1, Opened(0))],
      removals := [Removal(1, 0, AwaitReleases({0}))])
  {
    hide Refs, Reaches;
    events, s := EarlyLateClientRun();
    events, s := Extend(events, s, AttachPublished(1));
  }

  /** Client 0's release has settled and been published. */
  lemma ReleasedEarlyRun() returns (events: seq<Event>, s: Router)
    ensures Reaches(events, s)
    ensures s == Initial().(
      notices := s.notices,
      hostedSessions := map[1 := 0], attachmentsByClient := map[2 := 1],
      handles := [Handle(1, {1}, false, false)],
      attachments := [Attachment(0, 0, 0, {}, Leased, true, Release(Settled, {}, true, None, true), 1),
                      Attachment(2, 0, 1, {}, Leased, true, Release(NotStarted, {}, false, None, true), 0)],
      operations := [Operation(0, Attach(1), None, Finished), Operation(2, Attach(1), None, Finished)],
      opens := [Open(1, Opened(0))],
      removals := [Removal(1, 0, AwaitReleases({0}))])
  {
    hide Refs, Reaches;
    events, s := EarlyIdleRun();
    events, s := Extend(events, s, ReleaseSettles(0, true));
    assert {0, 1} - {0} == {1};
    assert s.handles == [Handle(1, {1}, false, false)];
    assert s.attachmentsByClient == map[2 := 1];
    assert s.attachments[0] == Attachment(0, 0, 0, {}, Leased, true, Release(Publishing, {}, true, None, true), 1);
    events, s := Extend(events, s, ClearPublished(0, true));
  }

  /** The removal goes on to its end. */
  lemma OutlivedRun() returns (events: seq<Event>, s: Router)
    ensures Reaches(events, s)
    ensures s == Initial().(
      notices := s.notices,
      attachmentsByClient := map[2 := 1],
      handles := [Handle(1, {1}, true, false)],
      attachments := [Attachment(0, 0, 0, {}, Leased, true, Release(Settled, {}, true, None, true), 1),
                      Attachment(2, 0, 1, {}, Leased, true, Release(NotStarted, {}, false, None, true), 0)],
      operations := [Operation(0, Attach(1), None, Finished), Operation(2, Attach(1), None, Finished)],
      opens := [Open(1, Opened(0))],
      removals := [Removal(1, 0, Removed)])
  {
    hide Refs, Reaches;
    events, s := ReleasedEarlyRun();
    events, s := Extend(events, s, RemovalReleased(0));
    assert s.handles == [Handle(1, {1}, true, false)];
    events, s := Extend(events, s, RemovalClosed(0));
    assert s.hostedSessions == map[];
  }

  /** It need not attach while `close` is awaited to be left with an unhosted session. */
  lemma AttachingDuringReleasesOutlivesTheSession() returns (events: seq<Event>, s: Router)
    ensures Reaches(events, s) && 2 in s.attachmentsByClient && s.attachmentsByClient[2] == 1
    ensures |s.attachments| == 2 && s.attachments[1].lease && s.attachments[1].release.phase == NotStarted
    ensures s.attachments[1].handle !in s.hostedSessions.Values
  {
    hide Refs, Reaches;
    events, s := OutlivedRun();
  }
}
