/** What every interleaving of the session router keeps. */
module SessionRouterProof {
  import opened Wrappers
  import opened SessionRouterSpec

  // ---- the invariant ---------------------------------------------------------------------------

  predicate Members(handles: seq<Handle>, attachments: seq<Attachment>) {
    forall h, a {:trigger a in handles[h].attachments} ::
      0 <= h < |handles| && a in handles[h].attachments ==> a < |attachments| && attachments[a].handle == h
  }

  predicate Hosted(hosted: map<SessionId, HandleId>, handles: seq<Handle>) {
    forall sid {:trigger hosted[sid]} :: sid in hosted ==> hosted[sid] < |handles| && handles[hosted[sid]].id == sid
  }

  predicate OpeningEntries(opening: map<SessionId, OpenId>, opens: seq<Open>) {
    forall sid {:trigger opening[sid]} :: sid in opening ==> opening[sid] < |opens| && opens[opening[sid]].session == sid
  }

  /** A lease is released at most once, and until its release has been attempted the attachment stays
      in its session's set. */
  predicate Owned(a: AttachmentId, t: Attachment, handles: seq<Handle>) {
    && t.handle < |handles|
    && (t.lease ==> t.acquiring.Leased?)
    && t.releaseCalls <= 1
    && (t.releaseCalls == 1 ==> t.acquiring.Leased?)
    && (match t.release.phase
        case NotStarted => t.releaseCalls == 0 && t.release.starter.None?
        case Draining => t.releaseCalls == 0
        case AwaitingLease => t.releaseCalls == 0
        case Releasing => t.releaseCalls == 1
        case Publishing => t.releaseCalls == 1 || t.acquiring.Refused?
        case Settled => t.releaseCalls == 1 || t.acquiring.Refused?)
    && (!t.Cleared() && !t.acquiring.Refused? ==> a in handles[t.handle].attachments)
    && (t.Cleared() ==> a !in handles[t.handle].attachments)
  }

  predicate AllOwned(attachments: seq<Attachment>, handles: seq<Handle>) {
    forall a {:trigger attachments[a]} :: 0 <= a < |attachments| ==> Owned(a, attachments[a], handles)
  }

  predicate Openers(attachments: seq<Attachment>, operations: seq<Operation>) {
    forall a {:trigger attachments[a]} :: 0 <= a < |attachments| ==>
      attachments[a].opener < |operations| && operations[attachments[a].opener].client == attachments[a].client
  }

  predicate Clients(byClient: map<ClientId, AttachmentId>, attachments: seq<Attachment>) {
    forall c {:trigger byClient[c]} :: c in byClient ==>
      && byClient[c] < |attachments| && attachments[byClient[c]].client == c
      && attachments[byClient[c]].lease && !attachments[byClient[c]].Cleared()
  }

  /** One client's operations form a chain: each starts only after all earlier ones have finished. */
  predicate Chained(p: OperationId, earlier: Operation, later: Operation) {
    earlier.client == later.client ==>
      && (!later.step.Queued? ==> earlier.step.Finished?)
      && (later.previous.None? ==> earlier.step.Finished?)
      && (later.previous.Some? ==> p <= later.previous.value)
  }

  predicate Chain(operations: seq<Operation>) {
    forall p, o {:trigger operations[p], operations[o]} ::
      0 <= p < o < |operations| ==> Chained(p, operations[p], operations[o])
  }

  predicate Previous(operations: seq<Operation>) {
    forall o {:trigger operations[o]} :: 0 <= o < |operations| && operations[o].previous.Some? ==>
      operations[o].previous.value < o && operations[operations[o].previous.value].client == operations[o].client
  }

  predicate TailEntries(operations: seq<Operation>, tails: map<ClientId, OperationId>) {
    forall c {:trigger tails[c]} :: c in tails ==> tails[c] < |operations| && operations[tails[c]].client == c
  }

  predicate Tails(operations: seq<Operation>, tails: map<ClientId, OperationId>) {
    forall o {:trigger operations[o]} :: 0 <= o < |operations| ==> Tailed(o, operations[o], tails)
  }

  predicate Tailed(o: OperationId, op: Operation, tails: map<ClientId, OperationId>) {
    if op.client in tails then o <= tails[op.client] else op.step.Finished?
  }

  predicate OnlyMapped(byClient: map<ClientId, AttachmentId>, c: ClientId, current: Option<AttachmentId>) {
    c in byClient ==> current == Some(byClient[c])
  }

  predicate Belongs(attachments: seq<Attachment>, a: AttachmentId, c: ClientId) {
    a < |attachments| && attachments[a].client == c
  }

  /** What an operation that is under way knows about its client's entry in the attachment map. */
  predicate Consistent(o: OperationId, op: Operation, byClient: map<ClientId, AttachmentId>, attachments: seq<Attachment>) {
    match op.step
    case AwaitOpen(_, _, current) =>
      && OnlyMapped(byClient, op.client, current) && op.kind.Attach?
      && (current.Some? ==> Belongs(attachments, current.value, op.client))
    case AwaitHosted(_, current) =>
      && OnlyMapped(byClient, op.client, current) && op.kind.Attach?
      && (current.Some? ==> Belongs(attachments, current.value, op.client))
    case AwaitCurrent(_, a) =>
      && OnlyMapped(byClient, op.client, Some(a)) && Belongs(attachments, a, op.client) && op.kind.Attach?
      && attachments[a].release.phase != NotStarted
    case AwaitLease(a) =>
      && op.client !in byClient && Belongs(attachments, a, op.client) && op.kind.Attach?
      && attachments[a].opener == o && !attachments[a].lease
    case AwaitRelease(a) =>
      && OnlyMapped(byClient, op.client, Some(a)) && Belongs(attachments, a, op.client)
      && attachments[a].release.phase != NotStarted
    case AwaitPublish => op.kind.Attach?
    case _ => true
  }

  predicate AllConsistent(operations: seq<Operation>, byClient: map<ClientId, AttachmentId>, attachments: seq<Attachment>) {
    forall o {:trigger operations[o]} ::
      0 <= o < |operations| ==> Consistent(o, operations[o], byClient, attachments)
  }

  /** A lease nobody is releasing is either the client's current one or still being handed over. */
  predicate Reachable(a: AttachmentId, t: Attachment, byClient: map<ClientId, AttachmentId>, operations: seq<Operation>) {
    t.release.phase == NotStarted && !t.acquiring.Refused? ==>
      || (t.lease && Lookup(byClient, t.client) == Some(a))
      || (t.opener < |operations| && operations[t.opener].step == AwaitLease(a))
  }

  /** Reachable without an operation that is handing the lease over. */
  predicate Held(a: AttachmentId, t: Attachment, byClient: map<ClientId, AttachmentId>) {
    t.release.phase == NotStarted && !t.acquiring.Refused? ==> t.lease && Lookup(byClient, t.client) == Some(a)
  }

  predicate NoOrphans(attachments: seq<Attachment>, byClient: map<ClientId, AttachmentId>, operations: seq<Operation>) {
    forall a {:trigger attachments[a]} ::
      0 <= a < |attachments| ==> Reachable(a, attachments[a], byClient, operations)
  }

  /** A release the client's own queue started has the queue to itself, so no call is admitted behind
      its back and the lease is only released once the admitted calls have settled. */
  predicate QueueDrained(a: AttachmentId, t: Attachment, operations: seq<Operation>) {
    t.release.starter.Some? ==>
      var o := t.release.starter.value;
      && o < |operations| && operations[o].client == t.client
      && (t.release.phase != Settled ==> Awaits(operations[o].step, a))
      && (t.release.phase == Draining ==> t.calls <= t.release.waiting)
      && (t.release.phase != NotStarted && t.release.phase != Draining ==> t.calls == {})
  }

  predicate Awaits(step: Step, a: AttachmentId) {
    (step.AwaitRelease? || step.AwaitCurrent?) && step.released == a
  }

  predicate AllQueueDrained(attachments: seq<Attachment>, operations: seq<Operation>) {
    forall a {:trigger attachments[a]} :: 0 <= a < |attachments| ==> QueueDrained(a, attachments[a], operations)
  }

  predicate Delivered(deliveries: seq<Delivery>, attachments: seq<Attachment>) {
    forall i {:trigger deliveries[i]} :: 0 <= i < |deliveries| ==>
      && deliveries[i].receiver == deliveries[i].target < |attachments|
      && attachments[deliveries[i].target].lease
  }

  predicate ClosingInOrder(s: Router) {
    && (!s.shutdown.NotRequested? ==> s.closing)
    && (s.shutdown.Complete? ==> s.attachmentsByClient == map[])
  }

  predicate Inv(s: Router) {
    && Refs(s)
    && Members(s.handles, s.attachments)
    && Hosted(s.hostedSessions, s.handles)
    && OpeningEntries(s.openingSessions, s.opens)
    && AllOwned(s.attachments, s.handles)
    && Openers(s.attachments, s.operations)
    && Clients(s.attachmentsByClient, s.attachments)
    && Previous(s.operations)
    && TailEntries(s.operations, s.clientOperations)
    && (!s.shutdown.Complete? ==> Chain(s.operations) && Tails(s.operations, s.clientOperations))
    && AllConsistent(s.operations, s.attachmentsByClient, s.attachments)
    && (!s.shutdown.Complete? ==> NoOrphans(s.attachments, s.attachmentsByClient, s.operations))
    && AllQueueDrained(s.attachments, s.operations)
    && Delivered(s.deliveries, s.attachments)
    && ClosingInOrder(s)
  }

  lemma InitialInv()
    ensures Inv(Initial())
  {
  }

  // ---- one operation moves to another step -----------------------------------------------------

  function Moved(operations: seq<Operation>, o: OperationId, step: Step): seq<Operation>
    requires o < |operations|
  {
    operations[o := operations[o].(step := step)]
  }

  predicate EarlierFinished(operations: seq<Operation>, o: OperationId)
    requires o < |operations|
  {
    forall p {:trigger operations[p]} :: 0 <= p < o && operations[p].client == operations[o].client ==>
      operations[p].step.Finished?
  }

  lemma StartedHasEarlierFinished(operations: seq<Operation>, o: OperationId)
    requires Chain(operations) && o < |operations| && !operations[o].step.Queued?
    ensures EarlierFinished(operations, o)
  {
    forall p | 0 <= p < o && operations[p].client == operations[o].client
      ensures operations[p].step.Finished?
    {
      assert Chained(p, operations[p], operations[o]);
    }
  }

  lemma EnabledHasEarlierFinished(operations: seq<Operation>, o: OperationId)
    requires Chain(operations) && Previous(operations) && o < |operations|
    requires operations[o].previous.None?
             || (operations[o].previous.value < o && operations[operations[o].previous.value].step.Finished?)
    ensures EarlierFinished(operations, o)
  {
    forall p | 0 <= p < o && operations[p].client == operations[o].client
      ensures operations[p].step.Finished?
    {
      assert Chained(p, operations[p], operations[o]);
      if operations[o].previous.Some? && p != operations[o].previous.value {
        var q := operations[o].previous.value;
        assert operations[q].client == operations[o].client;
        assert Chained(p, operations[p], operations[q]);
      }
    }
  }

  lemma MoveKeepsChain(operations: seq<Operation>, o: OperationId, step: Step)
    requires Chain(operations) && Previous(operations) && o < |operations|
    requires !operations[o].step.Finished? && EarlierFinished(operations, o)
    ensures Chain(Moved(operations, o, step)) && Previous(Moved(operations, o, step))
  {
    var moved := Moved(operations, o, step);
    forall p, q | 0 <= p < q < |moved|
      ensures Chained(p, moved[p], moved[q])
    {
      assert Chained(p, operations[p], operations[q]);
    }
  }

  lemma MoveKeepsTails(operations: seq<Operation>, tails: map<ClientId, OperationId>, o: OperationId, step: Step)
    requires Tails(operations, tails) && o < |operations| && !operations[o].step.Finished?
    ensures Tails(Moved(operations, o, step), tails)
  {
    var moved := Moved(operations, o, step);
    forall q | 0 <= q < |moved|
      ensures Tailed(q, moved[q], tails)
    {
      assert Tailed(q, operations[q], tails);
    }
  }

  lemma MoveKeepsTailEntries(operations: seq<Operation>, tails: map<ClientId, OperationId>, o: OperationId, step: Step)
    requires TailEntries(operations, tails) && o < |operations|
    ensures TailEntries(Moved(operations, o, step), tails)
    ensures TailEntries(Moved(operations, o, step), DeleteIf(tails, operations[o].client, o))
  {
  }

  lemma FinishKeepsTails(operations: seq<Operation>, tails: map<ClientId, OperationId>, o: OperationId)
    requires Tails(operations, tails) && o < |operations| && EarlierFinished(operations, o)
    ensures Tails(Moved(operations, o, Finished), DeleteIf(tails, operations[o].client, o))
  {
    var moved := Moved(operations, o, Finished);
    var tails' := DeleteIf(tails, operations[o].client, o);
    forall q | 0 <= q < |moved|
      ensures Tailed(q, moved[q], tails')
    {
      assert Tailed(q, operations[q], tails);
    }
  }

  lemma MoveKeepsConsistent(operations: seq<Operation>, byClient: map<ClientId, AttachmentId>, attachments: seq<Attachment>,
                            o: OperationId, step: Step)
    requires AllConsistent(operations, byClient, attachments) && o < |operations|
    requires Consistent(o, operations[o].(step := step), byClient, attachments)
    ensures AllConsistent(Moved(operations, o, step), byClient, attachments)
  {
    var moved := Moved(operations, o, step);
    forall q | 0 <= q < |moved|
      ensures Consistent(q, moved[q], byClient, attachments)
    {
      assert Consistent(q, operations[q], byClient, attachments);
    }
  }

  lemma MoveKeepsOrphans(attachments: seq<Attachment>, byClient: map<ClientId, AttachmentId>, operations: seq<Operation>,
                         o: OperationId, step: Step)
    requires NoOrphans(attachments, byClient, operations) && o < |operations|
    requires operations[o].step.AwaitLease? && operations[o].step.attachment < |attachments| ==>
               Held(operations[o].step.attachment, attachments[operations[o].step.attachment], byClient)
    ensures NoOrphans(attachments, byClient, Moved(operations, o, step))
  {
    var moved := Moved(operations, o, step);
    forall a | 0 <= a < |attachments|
      ensures Reachable(a, attachments[a], byClient, moved)
    {
      assert Reachable(a, attachments[a], byClient, operations);
    }
  }

  lemma MoveKeepsDrained(attachments: seq<Attachment>, operations: seq<Operation>, o: OperationId, step: Step)
    requires AllQueueDrained(attachments, operations) && o < |operations|
    requires forall a {:trigger attachments[a]} :: 0 <= a < |attachments| && Awaits(operations[o].step, a) ==>
               attachments[a].release.phase == Settled
    ensures AllQueueDrained(attachments, Moved(operations, o, step))
  {
    var moved := Moved(operations, o, step);
    forall a | 0 <= a < |attachments|
      ensures QueueDrained(a, attachments[a], moved)
    {
      assert QueueDrained(a, attachments[a], operations);
    }
  }

  lemma MoveKeepsOpeners(attachments: seq<Attachment>, operations: seq<Operation>, o: OperationId, step: Step)
    requires Openers(attachments, operations) && o < |operations|
    ensures Openers(attachments, Moved(operations, o, step))
  {
  }

  lemma MoveKeepsRefs(operations: seq<Operation>, o: OperationId, step: Step, opens: nat, handles: nat, attachments: nat)
    requires OperationRefs(operations, opens, handles, attachments) && o < |operations|
    requires StepRefs(step, opens, handles, attachments)
    ensures OperationRefs(Moved(operations, o, step), opens, handles, attachments)
  {
  }

  // ---- one attachment changes ------------------------------------------------------------------

  /** Identity fields stay; a lease is never taken back and a release never restarts. */
  predicate Advances(before: Attachment, after: Attachment) {
    && after.client == before.client && after.handle == before.handle && after.opener == before.opener
    && (before.lease ==> after.lease)
    && (before.release.phase != NotStarted ==> after.release.phase != NotStarted)
  }

  lemma UpdateKeepsMembers(handles: seq<Handle>, attachments: seq<Attachment>, a: AttachmentId, t: Attachment)
    requires Members(handles, attachments) && a < |attachments| && Advances(attachments[a], t)
    ensures Members(handles, attachments[a := t])
  {
    forall h, x | 0 <= h < |handles| && x in handles[h].attachments
      ensures x < |attachments| && attachments[a := t][x].handle == h
    {
    }
  }

  lemma UpdateKeepsOwned(handles: seq<Handle>, attachments: seq<Attachment>, a: AttachmentId, t: Attachment)
    requires AllOwned(attachments, handles) && a < |attachments| && Owned(a, t, handles)
    ensures AllOwned(attachments[a := t], handles)
  {
  }

  lemma UpdateKeepsOpeners(attachments: seq<Attachment>, operations: seq<Operation>, a: AttachmentId, t: Attachment)
    requires Openers(attachments, operations) && a < |attachments| && Advances(attachments[a], t)
    ensures Openers(attachments[a := t], operations)
  {
  }

  lemma UpdateKeepsClients(byClient: map<ClientId, AttachmentId>, attachments: seq<Attachment>, a: AttachmentId, t: Attachment)
    requires Clients(byClient, attachments) && a < |attachments| && Advances(attachments[a], t)
    requires Lookup(byClient, t.client) == Some(a) ==> !t.Cleared()
    ensures Clients(byClient, attachments[a := t])
  {
  }

  lemma UpdateKeepsConsistent(operations: seq<Operation>, byClient: map<ClientId, AttachmentId>, attachments: seq<Attachment>,
                              a: AttachmentId, t: Attachment)
    requires AllConsistent(operations, byClient, attachments) && a < |attachments| && Advances(attachments[a], t)
    requires t.lease == attachments[a].lease
             || forall o {:trigger operations[o]} :: 0 <= o < |operations| ==> operations[o].step != AwaitLease(a)
    ensures AllConsistent(operations, byClient, attachments[a := t])
  {
    var updated := attachments[a := t];
    forall o | 0 <= o < |operations|
      ensures Consistent(o, operations[o], byClient, updated)
    {
      assert Consistent(o, operations[o], byClient, attachments);
    }
  }

  lemma UpdateKeepsOrphans(attachments: seq<Attachment>, byClient: map<ClientId, AttachmentId>, operations: seq<Operation>,
                           a: AttachmentId, t: Attachment)
    requires NoOrphans(attachments, byClient, operations) && a < |attachments| && Reachable(a, t, byClient, operations)
    ensures NoOrphans(attachments[a := t], byClient, operations)
  {
  }

  lemma UpdateKeepsDrained(attachments: seq<Attachment>, operations: seq<Operation>, a: AttachmentId, t: Attachment)
    requires AllQueueDrained(attachments, operations) && a < |attachments| && QueueDrained(a, t, operations)
    ensures AllQueueDrained(attachments[a := t], operations)
  {
  }

  lemma UpdateKeepsDelivered(deliveries: seq<Delivery>, attachments: seq<Attachment>, a: AttachmentId, t: Attachment)
    requires Delivered(deliveries, attachments) && a < |attachments| && Advances(attachments[a], t)
    ensures Delivered(deliveries, attachments[a := t])
  {
  }

  lemma UpdateKeepsRefs(attachments: seq<Attachment>, handles: nat, a: AttachmentId, t: Attachment)
    requires AttachmentRefs(attachments, handles) && a < |attachments| && Advances(attachments[a], t)
    ensures AttachmentRefs(attachments[a := t], handles)
  {
  }

  /** An attachment may advance on its own, as long as it stays owned, reachable and drained. */
  lemma UpdateKeepsInv(s: Router, a: AttachmentId, t: Attachment)
    requires Inv(s) && a < |s.attachments| && Advances(s.attachments[a], t)
    requires Owned(a, t, s.handles) && t.lease == s.attachments[a].lease
    requires Lookup(s.attachmentsByClient, t.client) == Some(a) ==> !t.Cleared()
    requires Reachable(a, t, s.attachmentsByClient, s.operations) || s.shutdown.Complete?
    requires QueueDrained(a, t, s.operations)
    ensures Inv(s.(attachments := s.attachments[a := t]))
  {
    hide Members, Hosted, OpeningEntries, AllOwned, Openers, Clients, Chain, Previous, TailEntries, Tails, AllConsistent,
         NoOrphans, AllQueueDrained, Delivered, AttachmentRefs, ValuesBelow, OperationRefs, OpenRefs, RemovalRefs;
    UpdateKeepsMembers(s.handles, s.attachments, a, t);
    UpdateKeepsOwned(s.handles, s.attachments, a, t);
    UpdateKeepsOpeners(s.attachments, s.operations, a, t);
    UpdateKeepsClients(s.attachmentsByClient, s.attachments, a, t);
    UpdateKeepsConsistent(s.operations, s.attachmentsByClient, s.attachments, a, t);
    if !s.shutdown.Complete? {
      UpdateKeepsOrphans(s.attachments, s.attachmentsByClient, s.operations, a, t);
    }
    UpdateKeepsDrained(s.attachments, s.operations, a, t);
    UpdateKeepsDelivered(s.deliveries, s.attachments, a, t);
    UpdateKeepsRefs(s.attachments, |s.handles|, a, t);
  }

  /** An operation may move on its own, as long as what it now claims holds. */
  lemma MoveKeepsInv(s: Router, o: OperationId, step: Step)
    requires Inv(s) && o < |s.operations|
    requires !s.operations[o].step.Finished? && !s.operations[o].step.AwaitLease?
    requires s.shutdown.Complete? || EarlierFinished(s.operations, o)
    requires StepRefs(step, |s.opens|, |s.handles|, |s.attachments|)
    requires Consistent(o, s.operations[o].(step := step), s.attachmentsByClient, s.attachments)
    requires forall a {:trigger s.attachments[a]} :: 0 <= a < |s.attachments| && Awaits(s.operations[o].step, a) ==>
               s.attachments[a].release.phase == Settled
    ensures Inv(At(s, o, step))
  {
    hide Members, Hosted, OpeningEntries, AllOwned, Openers, Clients, Chain, Previous, TailEntries, Tails, AllConsistent,
         NoOrphans, AllQueueDrained, Delivered, AttachmentRefs, ValuesBelow, OperationRefs, OpenRefs, RemovalRefs;
    if !s.shutdown.Complete? {
      MoveKeepsChain(s.operations, o, step);
      MoveKeepsTails(s.operations, s.clientOperations, o, step);
      MoveKeepsOrphans(s.attachments, s.attachmentsByClient, s.operations, o, step);
    }
    MoveKeepsPrevious(s.operations, o, step);
    MoveKeepsTailEntries(s.operations, s.clientOperations, o, step);
    MoveKeepsConsistent(s.operations, s.attachmentsByClient, s.attachments, o, step);
    MoveKeepsDrained(s.attachments, s.operations, o, step);
    MoveKeepsOpeners(s.attachments, s.operations, o, step);
    MoveKeepsRefs(s.operations, o, step, |s.opens|, |s.handles|, |s.attachments|);
  }

  lemma MoveKeepsPrevious(operations: seq<Operation>, o: OperationId, step: Step)
    requires Previous(operations) && o < |operations|
    ensures Previous(Moved(operations, o, step))
  {
  }

  lemma FinishKeepsInv(s: Router, o: OperationId)
    requires Inv(s) && o < |s.operations|
    requires !s.operations[o].step.Finished? && !s.operations[o].step.AwaitLease?
    requires s.shutdown.Complete? || EarlierFinished(s.operations, o)
    requires forall a {:trigger s.attachments[a]} :: 0 <= a < |s.attachments| && Awaits(s.operations[o].step, a) ==>
               s.attachments[a].release.phase == Settled
    ensures Inv(Finish(s, o))
  {
    hide Members, Hosted, OpeningEntries, AllOwned, Openers, Clients, Chain, Previous, TailEntries, Tails, AllConsistent,
         NoOrphans, AllQueueDrained, Delivered, AttachmentRefs, ValuesBelow, OperationRefs, OpenRefs, RemovalRefs;
    MoveKeepsInv(s, o, Finished);
    MoveKeepsTailEntries(s.operations, s.clientOperations, o, Finished);
    if !s.shutdown.Complete? {
      FinishKeepsTails(s.operations, s.clientOperations, o);
    }
  }

  // ---- what the invariant says about one entry -------------------------------------------------

  lemma AttachmentFacts(s: Router, a: AttachmentId)
    requires Inv(s) && a < |s.attachments|
    ensures Owned(a, s.attachments[a], s.handles)
    ensures s.shutdown.Complete? || Reachable(a, s.attachments[a], s.attachmentsByClient, s.operations)
    ensures QueueDrained(a, s.attachments[a], s.operations)
    ensures s.attachments[a].opener < |s.operations|
    ensures Lookup(s.attachmentsByClient, s.attachments[a].client) == Some(a) ==>
              s.attachments[a].lease && !s.attachments[a].Cleared()
  {
    hide Chain, Tails, TailEntries, Previous, AllConsistent, Members, Hosted, OpeningEntries, OperationRefs, ValuesBelow;
  }

  lemma OperationFacts(s: Router, o: OperationId)
    requires Inv(s) && o < |s.operations|
    ensures Consistent(o, s.operations[o], s.attachmentsByClient, s.attachments)
    ensures StepRefs(s.operations[o].step, |s.opens|, |s.handles|, |s.attachments|)
    ensures Lookup(s.attachmentsByClient, s.operations[o].client).Some? ==>
              Belongs(s.attachments, s.attachmentsByClient[s.operations[o].client], s.operations[o].client)
  {
    hide Chain, Tails, TailEntries, Previous, AllOwned, NoOrphans, AllQueueDrained, Members, Hosted, OpeningEntries;
  }

  // ---- compound changes ------------------------------------------------------------------------

  predicate InTurn(s: Router, o: OperationId)
    requires o < |s.operations|
  {
    !s.operations[o].step.Finished? && (s.shutdown.Complete? || EarlierFinished(s.operations, o))
  }

  lemma UnderWayInTurn(s: Router, o: OperationId)
    requires Inv(s) && o < |s.operations| && !s.operations[o].step.Queued? && !s.operations[o].step.Finished?
    ensures InTurn(s, o)
  {
    if !s.shutdown.Complete? {
      StartedHasEarlierFinished(s.operations, o);
    }
  }

  lemma StartableInTurn(s: Router, o: OperationId)
    requires Inv(s) && Enabled(s, Start(o))
    ensures InTurn(s, o)
  {
    if !s.shutdown.Complete? {
      EnabledHasEarlierFinished(s.operations, o);
    }
  }

  /** While one operation of a client is in turn, no other one of that client is under way. */
  lemma OthersIdle(s: Router, o: OperationId, q: OperationId)
    requires Inv(s) && !s.shutdown.Complete? && o < |s.operations| && q < |s.operations| && q != o
    requires InTurn(s, o) && s.operations[q].client == s.operations[o].client
    ensures s.operations[q].step.Queued? || s.operations[q].step.Finished?
  {
    if o < q {
      assert Chained(o, s.operations[o], s.operations[q]);
    }
  }

  predicate WaitsForNothing(s: Router, o: OperationId)
    requires o < |s.operations|
  {
    forall a {:trigger s.attachments[a]} :: 0 <= a < |s.attachments| && Awaits(s.operations[o].step, a) ==>
      s.attachments[a].release.phase == Settled
  }

  /** The client's queue starts (or joins) a release and waits for it. */
  lemma QueuedReleaseKeepsInv(s: Router, o: OperationId, a: AttachmentId, publish: bool, step: Step)
    requires Inv(s) && o < |s.operations| && a < |s.attachments|
    requires InTurn(s, o) && WaitsForNothing(s, o) && !s.operations[o].step.AwaitLease?
    requires Awaits(step, a) && StepRefs(step, |s.opens|, |s.handles|, |s.attachments|)
    requires step.AwaitCurrent? ==> s.operations[o].kind.Attach?
    requires s.attachments[a].client == s.operations[o].client
    requires OnlyMapped(s.attachmentsByClient, s.operations[o].client, Some(a))
    ensures Inv(At(StartRelease(s, a, publish, Some(o)), o, step))
  {
    if s.attachments[a].release.phase != NotStarted {
      assert s.attachments[a := s.attachments[a]] == s.attachments;
      JoinedReleaseIsConsistent(s, o, a, step);
      hide Members, Hosted, OpeningEntries, AllOwned, Openers, Clients, Chain, Previous, TailEntries, Tails, AllConsistent,
         NoOrphans, AllQueueDrained, Delivered, AttachmentRefs, ValuesBelow, OperationRefs, OpenRefs, RemovalRefs;
      MoveKeepsInv(s, o, step);
    } else {
      BegunReleaseKeepsInv(s, o, a, publish, step);
    }
  }

  lemma JoinedReleaseIsConsistent(s: Router, o: OperationId, a: AttachmentId, step: Step)
    requires o < |s.operations| && a < |s.attachments| && s.attachments[a].release.phase != NotStarted
    requires Awaits(step, a) && (step.AwaitCurrent? ==> s.operations[o].kind.Attach?)
    requires s.attachments[a].client == s.operations[o].client
    requires OnlyMapped(s.attachmentsByClient, s.operations[o].client, Some(a))
    ensures Consistent(o, s.operations[o].(step := step), s.attachmentsByClient, s.attachments)
  {
  }

  lemma BegunReleaseKeepsInv(s: Router, o: OperationId, a: AttachmentId, publish: bool, step: Step)
    requires Inv(s) && o < |s.operations| && a < |s.attachments|
    requires InTurn(s, o) && WaitsForNothing(s, o) && !s.operations[o].step.AwaitLease?
    requires Awaits(step, a) && StepRefs(step, |s.opens|, |s.handles|, |s.attachments|)
    requires step.AwaitCurrent? ==> s.operations[o].kind.Attach?
    requires s.attachments[a].client == s.operations[o].client
    requires OnlyMapped(s.attachmentsByClient, s.operations[o].client, Some(a))
    requires s.attachments[a].release.phase == NotStarted
    ensures Inv(At(StartRelease(s, a, publish, Some(o)), o, step))
  {
    hide Members, Hosted, OpeningEntries, AllOwned, Openers, Clients, Chain, Previous, TailEntries, Tails, AllConsistent,
         NoOrphans, AllQueueDrained, Delivered, AttachmentRefs, ValuesBelow, OperationRefs, OpenRefs, RemovalRefs;
    var t := Begun(s.attachments[a], publish, Some(o));
    var attachments' := s.attachments[a := t];
    BegunReleaseFacts(s, o, a, publish, step);
    hide Owned, Reachable, QueueDrained, Consistent, StepRefs, Awaits, Belongs;
    QueuedReleaseDrains(s.attachments, s.operations, o, a, publish, step);
    MoveKeepsPrevious(s.operations, o, step);
    MoveKeepsTailEntries(s.operations, s.clientOperations, o, step);
    UpdateKeepsMembers(s.handles, s.attachments, a, t);
    UpdateKeepsOwned(s.handles, s.attachments, a, t);
    UpdateKeepsOpeners(s.attachments, s.operations, a, t);
    UpdateKeepsClients(s.attachmentsByClient, s.attachments, a, t);
    UpdateKeepsConsistent(s.operations, s.attachmentsByClient, s.attachments, a, t);
    UpdateKeepsDelivered(s.deliveries, s.attachments, a, t);
    UpdateKeepsRefs(s.attachments, |s.handles|, a, t);
    if !s.shutdown.Complete? {
      UpdateKeepsOrphans(s.attachments, s.attachmentsByClient, s.operations, a, t);
      MoveKeepsChain(s.operations, o, step);
      MoveKeepsTails(s.operations, s.clientOperations, o, step);
      MoveKeepsOrphans(attachments', s.attachmentsByClient, s.operations, o, step);
    }
    MoveKeepsConsistent(s.operations, s.attachmentsByClient, attachments', o, step);
    MoveKeepsOpeners(attachments', s.operations, o, step);
    MoveKeepsRefs(s.operations, o, step, |s.opens|, |s.handles|, |s.attachments|);
  }

  lemma BegunReleaseFacts(s: Router, o: OperationId, a: AttachmentId, publish: bool, step: Step)
    requires Inv(s) && o < |s.operations| && a < |s.attachments|
    requires InTurn(s, o) && WaitsForNothing(s, o) && !s.operations[o].step.AwaitLease?
    requires Awaits(step, a) && StepRefs(step, |s.opens|, |s.handles|, |s.attachments|)
    requires step.AwaitCurrent? ==> s.operations[o].kind.Attach?
    requires s.attachments[a].client == s.operations[o].client
    requires OnlyMapped(s.attachmentsByClient, s.operations[o].client, Some(a))
    requires s.attachments[a].release.phase == NotStarted
    ensures var t := Begun(s.attachments[a], publish, Some(o));
            && Advances(s.attachments[a], t) && t.lease == s.attachments[a].lease && !t.Cleared()
            && Owned(a, t, s.handles)
            && Reachable(a, t, s.attachmentsByClient, s.operations)
            && Consistent(o, s.operations[o].(step := step), s.attachmentsByClient, s.attachments[a := t])
  {
    hide Members, Hosted, OpeningEntries, AllOwned, Openers, Clients, Chain, Previous, TailEntries, Tails, AllConsistent,
         NoOrphans, AllQueueDrained, Delivered, AttachmentRefs, ValuesBelow, OperationRefs, OpenRefs, RemovalRefs;
    AttachmentFacts(s, a);
  }

  lemma QueuedReleaseDrains(attachments: seq<Attachment>, operations: seq<Operation>, o: OperationId, a: AttachmentId,
                            publish: bool, step: Step)
    requires AllQueueDrained(attachments, operations) && o < |operations| && a < |attachments|
    requires forall x {:trigger attachments[x]} :: 0 <= x < |attachments| && Awaits(operations[o].step, x) ==>
               attachments[x].release.phase == Settled
    requires attachments[a].release.phase == NotStarted && Awaits(step, a)
    requires attachments[a].client == operations[o].client
    ensures AllQueueDrained(attachments[a := Begun(attachments[a], publish, Some(o))], Moved(operations, o, step))
  {
    var attachments' := attachments[a := Begun(attachments[a], publish, Some(o))];
    var moved := Moved(operations, o, step);
    forall x | 0 <= x < |attachments'|
      ensures QueueDrained(x, attachments'[x], moved)
    {
      assert QueueDrained(x, attachments[x], operations);
    }
  }

  /** A fresh attachment whose opener now waits for its lease. */
  lemma CreateKeepsInv(s: Router, o: OperationId, h: HandleId)
    requires Inv(s) && o < |s.operations| && h < |s.handles|
    requires InTurn(s, o) && WaitsForNothing(s, o) && !s.operations[o].step.AwaitLease?
    requires s.operations[o].kind.Attach? && s.operations[o].client !in s.attachmentsByClient
    ensures Inv(CreateAttachment(s, o, h))
  {
    hide Members, Hosted, OpeningEntries, AllOwned, Openers, Clients, Chain, Previous, TailEntries, Tails, AllConsistent,
         NoOrphans, AllQueueDrained, Delivered, AttachmentRefs, ValuesBelow, OperationRefs, OpenRefs, RemovalRefs;
    var s' := CreateAttachment(s, o, h);
    var step := AwaitLease(|s.attachments|);
    MoreAttachmentsKeepRefs(s.operations, |s.opens|, |s.handles|, |s.attachments|, |s'.attachments|);
    MoveKeepsRefs(s.operations, o, step, |s.opens|, |s.handles|, |s'.attachments|);
    MoveKeepsPrevious(s.operations, o, step);
    MoveKeepsTailEntries(s.operations, s.clientOperations, o, step);
    if !s.shutdown.Complete? {
      MoveKeepsChain(s.operations, o, step);
      MoveKeepsTails(s.operations, s.clientOperations, o, step);
    }
    CreateKeepsSets(s, o, h);
    CreateKeepsLookups(s, o, h);
    CreateKeepsClaims(s, o, h);
  }

  lemma MoreAttachmentsKeepRefs(operations: seq<Operation>, opens: nat, handles: nat, attachments: nat, more: nat)
    requires OperationRefs(operations, opens, handles, attachments) && attachments <= more
    ensures OperationRefs(operations, opens, handles, more)
  {
    forall q | 0 <= q < |operations|
      ensures StepRefs(operations[q].step, opens, handles, more)
    {
      assert StepRefs(operations[q].step, opens, handles, attachments);
    }
  }

  lemma CreateKeepsLookups(s: Router, o: OperationId, h: HandleId)
    requires Inv(s) && o < |s.operations| && h < |s.handles|
    ensures var s' := CreateAttachment(s, o, h);
            && Clients(s'.attachmentsByClient, s'.attachments) && Delivered(s'.deliveries, s'.attachments)
            && AttachmentRefs(s'.attachments, |s'.handles|) && ValuesBelow(s'.attachmentsByClient, |s'.attachments|)
  {
    hide Chain, Tails, Previous, AllConsistent, NoOrphans, AllQueueDrained, Openers, OperationRefs, Members, AllOwned;
  }

  lemma CreateKeepsSets(s: Router, o: OperationId, h: HandleId)
    requires Inv(s) && o < |s.operations| && h < |s.handles|
    ensures var s' := CreateAttachment(s, o, h);
            Members(s'.handles, s'.attachments) && AllOwned(s'.attachments, s'.handles)
            && Hosted(s'.hostedSessions, s'.handles) && Openers(s'.attachments, s'.operations)
  {
    hide Chain, Tails, TailEntries, Previous, AllConsistent, NoOrphans, AllQueueDrained, Delivered, OperationRefs, OpeningEntries, ValuesBelow, Clients;
    var s' := CreateAttachment(s, o, h);
    forall x | 0 <= x < |s'.attachments|
      ensures Owned(x, s'.attachments[x], s'.handles)
      ensures s'.attachments[x].opener < |s'.operations|
      ensures s'.operations[s'.attachments[x].opener].client == s'.attachments[x].client
    {
      if x < |s.attachments| {
        assert Owned(x, s.attachments[x], s.handles);
      }
    }
  }

  lemma CreateKeepsClaims(s: Router, o: OperationId, h: HandleId)
    requires Inv(s) && o < |s.operations| && h < |s.handles|
    requires WaitsForNothing(s, o) && !s.operations[o].step.AwaitLease?
    requires s.operations[o].kind.Attach? && s.operations[o].client !in s.attachmentsByClient
    ensures var s' := CreateAttachment(s, o, h);
            && AllConsistent(s'.operations, s'.attachmentsByClient, s'.attachments)
            && (!s.shutdown.Complete? ==> NoOrphans(s'.attachments, s'.attachmentsByClient, s'.operations))
            && AllQueueDrained(s'.attachments, s'.operations)
  {
    hide Chain, Tails, TailEntries, Previous, Members, AllOwned, Openers, Delivered, OperationRefs, OpeningEntries, Clients, Hosted;
    var s' := CreateAttachment(s, o, h);
    forall q | 0 <= q < |s'.operations|
      ensures Consistent(q, s'.operations[q], s'.attachmentsByClient, s'.attachments)
    {
      assert Consistent(q, s.operations[q], s.attachmentsByClient, s.attachments);
    }
    forall x | 0 <= x < |s'.attachments|
      ensures !s.shutdown.Complete? ==> Reachable(x, s'.attachments[x], s'.attachmentsByClient, s'.operations)
      ensures QueueDrained(x, s'.attachments[x], s'.operations)
    {
      if x < |s.attachments| {
        assert !s.shutdown.Complete? ==> Reachable(x, s.attachments[x], s.attachmentsByClient, s.operations);
        assert QueueDrained(x, s.attachments[x], s.operations);
      }
    }
  }

  lemma UnmapKeepsInv(s: Router, c: ClientId, a: AttachmentId)
    requires Inv(s) && a < |s.attachments| && s.attachments[a].release.phase != NotStarted
    ensures Inv(s.(attachmentsByClient := DeleteIf(s.attachmentsByClient, c, a)))
  {
    hide Members, Hosted, OpeningEntries, AllOwned, Openers, Clients, Chain, Previous, TailEntries, Tails, AllConsistent,
         NoOrphans, AllQueueDrained, Delivered, AttachmentRefs, ValuesBelow, OperationRefs, OpenRefs, RemovalRefs;
    UnmapKeepsConsistent(s.operations, s.attachmentsByClient, s.attachments, c, a);
    if !s.shutdown.Complete? {
      UnmapKeepsOrphans(s.attachments, s.attachmentsByClient, s.operations, c, a);
    }
    UnmapKeepsClients(s.attachmentsByClient, s.attachments, c, a);
  }

  lemma UnmapKeepsClients(byClient: map<ClientId, AttachmentId>, attachments: seq<Attachment>, c: ClientId, a: AttachmentId)
    requires Clients(byClient, attachments) && ValuesBelow(byClient, |attachments|)
    ensures Clients(DeleteIf(byClient, c, a), attachments) && ValuesBelow(DeleteIf(byClient, c, a), |attachments|)
  {
  }

  lemma UnmapKeepsConsistent(operations: seq<Operation>, byClient: map<ClientId, AttachmentId>,
                             attachments: seq<Attachment>, c: ClientId, a: AttachmentId)
    requires AllConsistent(operations, byClient, attachments)
    ensures AllConsistent(operations, DeleteIf(byClient, c, a), attachments)
  {
    forall q | 0 <= q < |operations|
      ensures Consistent(q, operations[q], DeleteIf(byClient, c, a), attachments)
    {
      assert Consistent(q, operations[q], byClient, attachments);
    }
  }

  lemma UnmapKeepsOrphans(attachments: seq<Attachment>, byClient: map<ClientId, AttachmentId>,
                          operations: seq<Operation>, c: ClientId, a: AttachmentId)
    requires NoOrphans(attachments, byClient, operations)
    requires a < |attachments| && attachments[a].release.phase != NotStarted
    ensures NoOrphans(attachments, DeleteIf(byClient, c, a), operations)
  {
    forall x | 0 <= x < |attachments|
      ensures Reachable(x, attachments[x], DeleteIf(byClient, c, a), operations)
    {
      assert Reachable(x, attachments[x], byClient, operations);
    }
  }

  lemma ClearKeepsInv(s: Router, a: AttachmentId, ok: bool)
    requires Inv(s) && a < |s.attachments|
    requires s.attachments[a].release.phase == Releasing
             || (s.attachments[a].release.phase == AwaitingLease && s.attachments[a].acquiring.Refused?)
    ensures Inv(Clear(s, a, ok))
  {
    hide Members, Hosted, OpeningEntries, AllOwned, Openers, Clients, Chain, Previous, TailEntries, Tails, AllConsistent,
         NoOrphans, AllQueueDrained, Delivered, AttachmentRefs, ValuesBelow, OperationRefs, OpenRefs, RemovalRefs;
    AttachmentFacts(s, a);
    var c := s.attachments[a].client;
    var s1 := s.(attachmentsByClient := DeleteIf(s.attachmentsByClient, c, a));
    var s' := Clear(s, a, ok);
    var t := s'.attachments[a];
    UnmapKeepsInv(s, c, a);
    ClearKeepsSets(s, a, ok);
    UpdateKeepsOpeners(s1.attachments, s1.operations, a, t);
    UpdateKeepsClients(s1.attachmentsByClient, s1.attachments, a, t);
    UpdateKeepsConsistent(s1.operations, s1.attachmentsByClient, s1.attachments, a, t);
    if !s.shutdown.Complete? {
      UpdateKeepsOrphans(s1.attachments, s1.attachmentsByClient, s1.operations, a, t);
    }
    UpdateKeepsDrained(s1.attachments, s1.operations, a, t);
    UpdateKeepsDelivered(s1.deliveries, s1.attachments, a, t);
    UpdateKeepsRefs(s1.attachments, |s1.handles|, a, t);
  }

  lemma ClearKeepsSets(s: Router, a: AttachmentId, ok: bool)
    requires Inv(s) && a < |s.attachments|
    requires s.attachments[a].release.phase == Releasing
             || (s.attachments[a].release.phase == AwaitingLease && s.attachments[a].acquiring.Refused?)
    ensures var s' := Clear(s, a, ok);
            Members(s'.handles, s'.attachments) && AllOwned(s'.attachments, s'.handles)
            && Hosted(s'.hostedSessions, s'.handles)
  {
    hide Chain, Tails, TailEntries, Previous, AllConsistent, NoOrphans, AllQueueDrained, Delivered, OperationRefs, OpeningEntries, ValuesBelow, Clients;
    var s' := Clear(s, a, ok);
    forall x | 0 <= x < |s'.attachments|
      ensures Owned(x, s'.attachments[x], s'.handles)
    {
      assert Owned(x, s.attachments[x], s.handles);
    }
  }

  predicate EachBegunOrSame(before: seq<Attachment>, after: seq<Attachment>) {
    && |after| == |before|
    && forall x {:trigger after[x]} :: 0 <= x < |after| ==>
         after[x] == before[x] || after[x] == Begun(before[x], true, None)
  }

  lemma BegunKeepsSets(handles: seq<Handle>, before: seq<Attachment>, after: seq<Attachment>)
    requires EachBegunOrSame(before, after)
    requires Members(handles, before) && AllOwned(before, handles) && AttachmentRefs(before, |handles|)
    ensures Members(handles, after) && AllOwned(after, handles) && AttachmentRefs(after, |handles|)
  {
    forall x | 0 <= x < |after|
      ensures Owned(x, after[x], handles)
    {
      assert Owned(x, before[x], handles);
    }
  }

  lemma BegunKeepsClaims(before: seq<Attachment>, after: seq<Attachment>, operations: seq<Operation>,
                         byClient: map<ClientId, AttachmentId>)
    requires EachBegunOrSame(before, after) && AllQueueDrained(before, operations)
    ensures AllQueueDrained(after, operations)
  {
    forall x | 0 <= x < |after|
      ensures QueueDrained(x, after[x], operations)
    {
      assert QueueDrained(x, before[x], operations);
    }
  }

  lemma BegunKeepsLookups(before: seq<Attachment>, after: seq<Attachment>, operations: seq<Operation>,
                          byClient: map<ClientId, AttachmentId>, deliveries: seq<Delivery>)
    requires EachBegunOrSame(before, after)
    requires Openers(before, operations) && Clients(byClient, before) && Delivered(deliveries, before)
    ensures Openers(after, operations) && Clients(byClient, after) && Delivered(deliveries, after)
  {
  }

  lemma BegunKeepsConsistent(before: seq<Attachment>, after: seq<Attachment>, operations: seq<Operation>,
                             byClient: map<ClientId, AttachmentId>)
    requires EachBegunOrSame(before, after) && AllConsistent(operations, byClient, before)
    ensures AllConsistent(operations, byClient, after)
  {
    forall q | 0 <= q < |operations|
      ensures Consistent(q, operations[q], byClient, after)
    {
      assert Consistent(q, operations[q], byClient, before);
    }
  }

  lemma BegunKeepsOrphans(before: seq<Attachment>, after: seq<Attachment>, operations: seq<Operation>,
                          byClient: map<ClientId, AttachmentId>)
    requires EachBegunOrSame(before, after) && NoOrphans(before, byClient, operations)
    ensures NoOrphans(after, byClient, operations)
  {
    forall x | 0 <= x < |after|
      ensures Reachable(x, after[x], byClient, operations)
    {
      assert Reachable(x, before[x], byClient, operations);
    }
  }

  /** Releases started outside the queues: every attachment stays, or begins to be released. */
  lemma StartReleasesKeepsInv(s: Router, targets: set<AttachmentId>)
    requires Inv(s)
    ensures Inv(StartReleases(s, targets))
  {
    hide Members, Hosted, OpeningEntries, AllOwned, Openers, Clients, Chain, Previous, TailEntries, Tails, AllConsistent,
         NoOrphans, AllQueueDrained, Delivered, AttachmentRefs, ValuesBelow, OperationRefs, OpenRefs, RemovalRefs;
    var s' := StartReleases(s, targets);
    BegunKeepsSets(s.handles, s.attachments, s'.attachments);
    BegunKeepsClaims(s.attachments, s'.attachments, s.operations, s.attachmentsByClient);
    BegunKeepsLookups(s.attachments, s'.attachments, s.operations, s.attachmentsByClient, s.deliveries);
    BegunKeepsConsistent(s.attachments, s'.attachments, s.operations, s.attachmentsByClient);
    if !s.shutdown.Complete? {
      BegunKeepsOrphans(s.attachments, s'.attachments, s.operations, s.attachmentsByClient);
    }
  }

  // ---- every event keeps the invariant ---------------------------------------------------------

  lemma PreservedEnqueue(s: Router, e: Event)
    requires Inv(s) && Enabled(s, e) && e.Enqueue?
    ensures Inv(Next(s, e))
  {
    hide Members, Hosted, OpeningEntries, AllOwned, Openers, Clients, Chain, Previous, TailEntries, Tails, AllConsistent,
         NoOrphans, AllQueueDrained, Delivered, AttachmentRefs, ValuesBelow, OperationRefs, OpenRefs, RemovalRefs;
    if !s.shutdown.Complete? {
      AddKeepsChain(s.operations, s.clientOperations, e.client, e.kind);
    }
    AddKeepsEntries(s.operations, s.clientOperations, e.client, e.kind);
    EnqueueKeepsClaims(s, e.client, e.kind);
  }

  lemma EnqueueKeepsClaims(s: Router, client: ClientId, kind: Kind)
    requires Inv(s)
    ensures var s' := Add(s, client, kind);
            && OperationRefs(s'.operations, |s'.opens|, |s'.handles|, |s'.attachments|)
            && AllConsistent(s'.operations, s'.attachmentsByClient, s'.attachments)
            && (!s.shutdown.Complete? ==> NoOrphans(s'.attachments, s'.attachmentsByClient, s'.operations))
            && AllQueueDrained(s'.attachments, s'.operations)
            && Openers(s'.attachments, s'.operations)
  {
    hide Chain, Tails, TailEntries, Previous, AllOwned, Delivered, Members, Clients, Hosted, OpeningEntries, ValuesBelow;
    var s' := Add(s, client, kind);
    forall x | 0 <= x < |s.attachments|
      ensures !s.shutdown.Complete? ==> Reachable(x, s.attachments[x], s.attachmentsByClient, s'.operations)
      ensures QueueDrained(x, s.attachments[x], s'.operations)
    {
      assert !s.shutdown.Complete? ==> Reachable(x, s.attachments[x], s.attachmentsByClient, s.operations);
      assert QueueDrained(x, s.attachments[x], s.operations);
    }
    hide Reachable, QueueDrained;
  }

  lemma AddKeepsEntries(operations: seq<Operation>, tails: map<ClientId, OperationId>, client: ClientId, kind: Kind)
    requires Previous(operations) && TailEntries(operations, tails)
    ensures var added := operations + [Operation(client, kind, Lookup(tails, client), Queued)];
            Previous(added) && TailEntries(added, tails[client := |operations|])
  {
  }

  lemma AddKeepsChain(operations: seq<Operation>, tails: map<ClientId, OperationId>, client: ClientId, kind: Kind)
    requires Chain(operations) && Tails(operations, tails) && TailEntries(operations, tails)
    ensures var added := operations + [Operation(client, kind, Lookup(tails, client), Queued)];
            Chain(added) && Tails(added, tails[client := |operations|])
  {
    var added := operations + [Operation(client, kind, Lookup(tails, client), Queued)];
    forall p, q | 0 <= p < q < |added|
      ensures Chained(p, added[p], added[q])
    {
      assert Tailed(p, operations[p], tails);
      if q < |operations| {
        assert Chained(p, operations[p], operations[q]);
      }
    }
    forall q | 0 <= q < |added|
      ensures Tailed(q, added[q], tails[client := |operations|])
    {
      if q < |operations| {
        assert Tailed(q, operations[q], tails);
      }
    }
  }

  lemma NewOpenKeepsEntries(opening: map<SessionId, OpenId>, opens: seq<Open>, session: SessionId, handles: nat)
    requires OpeningEntries(opening, opens) && ValuesBelow(opening, |opens|) && OpenRefs(opens, handles)
    ensures var opens' := opens + [Open(session, Resolving)];
            var opening' := opening[session := |opens|];
            OpeningEntries(opening', opens') && ValuesBelow(opening', |opens'|) && OpenRefs(opens', handles)
  {
  }

  lemma MoreOpensKeepRefs(operations: seq<Operation>, opens: nat, handles: nat, attachments: nat)
    requires OperationRefs(operations, opens, handles, attachments)
    ensures OperationRefs(operations, opens + 1, handles, attachments)
  {
    forall q | 0 <= q < |operations|
      ensures StepRefs(operations[q].step, opens + 1, handles, attachments)
    {
      assert StepRefs(operations[q].step, opens, handles, attachments);
    }
  }

  lemma OpenSessionKeepsInv(s: Router, session: SessionId)
    requires Inv(s)
    ensures Inv(s.(opens := s.opens + [Open(session, Resolving)],
                   openingSessions := s.openingSessions[session := |s.opens|]))
  {
    hide Members, Hosted, OpeningEntries, AllOwned, Openers, Clients, Chain, Previous, TailEntries, Tails, AllConsistent,
         NoOrphans, AllQueueDrained, Delivered, AttachmentRefs, ValuesBelow, OperationRefs, OpenRefs, RemovalRefs;
    NewOpenKeepsEntries(s.openingSessions, s.opens, session, |s.handles|);
    MoreOpensKeepRefs(s.operations, |s.opens|, |s.handles|, |s.attachments|);
  }

  lemma AcquireFacts(s: Router, session: SessionId)
    requires Inv(s)
    ensures session in s.hostedSessions ==> s.hostedSessions[session] < |s.handles|
    ensures session in s.openingSessions ==> s.openingSessions[session] < |s.opens|
  {
  }

  lemma AcquireKeepsInv(s: Router, o: OperationId, session: SessionId, current: Option<AttachmentId>)
    requires Inv(s) && o < |s.operations| && s.operations[o].step.Queued? && InTurn(s, o)
    requires s.operations[o].kind.Attach? && current == Lookup(s.attachmentsByClient, s.operations[o].client)
    ensures Inv(Acquire(s, o, session, current))
  {
    hide Members, Hosted, OpeningEntries, AllOwned, Openers, Clients, Chain, Previous, TailEntries, Tails, AllConsistent,
         NoOrphans, AllQueueDrained, Delivered, AttachmentRefs, ValuesBelow, OperationRefs, OpenRefs, RemovalRefs;
    hide Owned, Reachable, QueueDrained;
    OperationFacts(s, o);
    AcquireFacts(s, session);
    if session in s.hostedSessions {
      MoveKeepsInv(s, o, AwaitHosted(Some(s.hostedSessions[session]), current));
    } else if session in s.openingSessions {
      MoveKeepsInv(s, o, AwaitOpen(s.openingSessions[session], false, current));
    } else {
      var s1 := s.(opens := s.opens + [Open(session, Resolving)],
                   openingSessions := s.openingSessions[session := |s.opens|]);
      OpenSessionKeepsInv(s, session);
      MoveKeepsInv(s1, o, AwaitOpen(|s.opens|, true, current));
    }
  }

  /** A call is admitted only while its client's queue is not waiting for the attachment's release. */
  lemma AdmissionSeesNoQueuedRelease(s: Router, o: OperationId, a: AttachmentId)
    requires Inv(s) && !s.shutdown.Complete? && o < |s.operations| && s.operations[o].step.Queued? && InTurn(s, o)
    requires Lookup(s.attachmentsByClient, s.operations[o].client) == Some(a)
    ensures s.attachments[a].release.starter.None?
  {
    AttachmentFacts(s, a);
    OperationFacts(s, o);
    if s.attachments[a].release.starter.Some? {
      OthersIdle(s, o, s.attachments[a].release.starter.value);
    }
  }

  lemma DeliverKeepsDelivered(deliveries: seq<Delivery>, attachments: seq<Attachment>, o: OperationId, a: AttachmentId)
    requires Delivered(deliveries, attachments) && a < |attachments| && attachments[a].lease
    ensures Delivered(deliveries + [Delivery(o, a, a)], attachments)
  {
  }

  lemma CallKeepsTurn(s: Router, s1: Router, o: OperationId, a: AttachmentId)
    requires o < |s.operations| && s.operations[o].step.Queued? && s1.operations == s.operations
    ensures WaitsForNothing(s1, o)
  {
  }

  lemma AdmissionFacts(s: Router, o: OperationId, a: AttachmentId)
    requires Inv(s) && o < |s.operations| && s.operations[o].step.Queued? && InTurn(s, o) && !s.shutdown.Complete?
    requires Lookup(s.attachmentsByClient, s.operations[o].client) == Some(a)
    ensures a < |s.attachments| && s.attachments[a].lease && s.attachments[a].client == s.operations[o].client
    ensures var t := s.attachments[a].(calls := s.attachments[a].calls + {o});
            && Advances(s.attachments[a], t) && Owned(a, t, s.handles) && !t.Cleared()
            && Reachable(a, t, s.attachmentsByClient, s.operations) && QueueDrained(a, t, s.operations)
  {
    hide Members, Hosted, OpeningEntries, AllOwned, Openers, Clients, Chain, Previous, TailEntries, Tails, AllConsistent,
         NoOrphans, AllQueueDrained, Delivered, AttachmentRefs, ValuesBelow, OperationRefs, OpenRefs, RemovalRefs;
    AdmissionSeesNoQueuedRelease(s, o, a);
    OperationFacts(s, o);
    AttachmentFacts(s, a);
  }

  lemma FinishIgnoresCalls(s: Router, s1: Router, o: OperationId)
    requires o < |s.operations| && s1 == s.(attachments := s1.attachments, deliveries := s1.deliveries)
    ensures Finish(s1, o) == Finish(s, o).(attachments := s1.attachments, deliveries := s1.deliveries)
  {
  }

  lemma CallKeepsInv(s: Router, o: OperationId, a: AttachmentId)
    requires Inv(s) && o < |s.operations| && s.operations[o].step.Queued? && InTurn(s, o) && !s.shutdown.Complete?
    requires Lookup(s.attachmentsByClient, s.operations[o].client) == Some(a)
    ensures var t := s.attachments[a].(calls := s.attachments[a].calls + {o});
            Inv(Finish(s, o).(attachments := s.attachments[a := t], deliveries := s.deliveries + [Delivery(o, a, a)]))
  {
    hide Members, Hosted, OpeningEntries, AllOwned, Openers, Clients, Chain, Previous, TailEntries, Tails, AllConsistent,
         NoOrphans, AllQueueDrained, Delivered, AttachmentRefs, ValuesBelow, OperationRefs, OpenRefs, RemovalRefs;
    AdmissionFacts(s, o, a);
    var t := s.attachments[a].(calls := s.attachments[a].calls + {o});
    hide Owned, Reachable, QueueDrained, Consistent, StepRefs, Awaits, Finish;
    UpdateKeepsInv(s, a, t);
    var s1 := s.(attachments := s.attachments[a := t], deliveries := s.deliveries + [Delivery(o, a, a)]);
    DeliverKeepsDelivered(s.deliveries, s1.attachments, o, a);
    CallKeepsTurn(s, s1, o, a);
    FinishKeepsInv(s1, o);
    FinishIgnoresCalls(s, s1, o);
  }

  lemma PreservedStart(s: Router, e: Event)
    requires Inv(s) && Enabled(s, e) && e.Start?
    ensures Inv(Next(s, e))
  {
    hide Members, Hosted, OpeningEntries, AllOwned, Openers, Clients, Chain, Previous, TailEntries, Tails, AllConsistent,
         NoOrphans, AllQueueDrained, Delivered, AttachmentRefs, ValuesBelow, OperationRefs, OpenRefs, RemovalRefs;
    var o := e.op;
    var op := s.operations[o];
    StartableInTurn(s, o);
    var current := Lookup(s.attachmentsByClient, op.client);
    OperationFacts(s, o);
    if current.Some? {
      AttachmentFacts(s, current.value);
    }
    hide At, StartRelease, Acquire, Finish, Reachable, QueueDrained, Owned;
    match op.kind
    case Attach(session) =>
      if Barred(s, op.client)
         || (current.Some? && s.handles[s.attachments[current.value].handle].id == session) {
        FinishKeepsInv(s, o);
      } else {
        AcquireKeepsInv(s, o, session, current);
      }
    case Detach =>
      if current.None? {
        FinishKeepsInv(s, o);
      } else {
        QueuedReleaseKeepsInv(s, o, current.value, true, AwaitRelease(current.value));
      }
    case Disconnect =>
      if current.None? {
        FinishKeepsInv(s, o);
      } else {
        QueuedReleaseKeepsInv(s, o, current.value, false, AwaitRelease(current.value));
      }
    case Call(session, target) =>
      if Barred(s, op.client) || current != Some(target)
         || s.handles[s.attachments[target].handle].id != session {
        FinishKeepsInv(s, o);
      } else {
        CallKeepsInv(s, o, target);
      }
  }

  lemma DeleteOpeningKeepsEntries(opening: map<SessionId, OpenId>, opens: seq<Open>, session: SessionId, n: OpenId)
    requires OpeningEntries(opening, opens) && ValuesBelow(opening, |opens|)
    ensures OpeningEntries(DeleteIf(opening, session, n), opens) && ValuesBelow(DeleteIf(opening, session, n), |opens|)
  {
  }

  lemma DeleteOpeningKeepsInv(s: Router, session: SessionId, n: OpenId)
    requires Inv(s)
    ensures Inv(s.(openingSessions := DeleteIf(s.openingSessions, session, n)))
  {
    DeleteOpeningKeepsEntries(s.openingSessions, s.opens, session, n);
    hide Members, Hosted, OpeningEntries, AllOwned, Openers, Clients, Chain, Previous, TailEntries, Tails, AllConsistent,
         NoOrphans, AllQueueDrained, Delivered, AttachmentRefs, ValuesBelow, OperationRefs, OpenRefs, RemovalRefs;
  }

  lemma OpenedHandleInRange(s: Router, n: OpenId)
    requires Inv(s) && n < |s.opens|
    ensures s.opens[n].phase.Opened? ==> s.opens[n].phase.handle < |s.handles|
  {
    hide Members, Hosted, OpeningEntries, AllOwned, Openers, Clients, Chain, Previous, TailEntries, Tails, AllConsistent,
         NoOrphans, AllQueueDrained, Delivered, AttachmentRefs, ValuesBelow, OperationRefs, RemovalRefs;
  }

  lemma PreservedAcquireReturns(s: Router, e: Event)
    requires Inv(s) && Enabled(s, e) && e.AcquireReturns?
    ensures Inv(Next(s, e))
  {
    var o := e.op;
    hide Members, Hosted, OpeningEntries, AllOwned, Openers, Clients, Chain, Previous, TailEntries, Tails, AllConsistent,
         NoOrphans, AllQueueDrained, Delivered, AttachmentRefs, ValuesBelow, OperationRefs, OpenRefs, RemovalRefs;
    var step := s.operations[o].step;
    var open := s.opens[step.open];
    UnderWayInTurn(s, o);
    OperationFacts(s, o);
    OpenedHandleInRange(s, step.open);
    var hosted := if open.phase.Opened? then Some(open.phase.handle) else None;
    MoveKeepsInv(s, o, AwaitHosted(hosted, step.current));
    var moved := At(s, o, AwaitHosted(hosted, step.current));
    DeleteOpeningKeepsInv(moved, open.session, step.open);
    assert Next(s, e) == if step.owner then moved.(openingSessions := DeleteIf(s.openingSessions, open.session, step.open)) else moved;
    hide Inv;
  }

  lemma PreservedAttachResumes(s: Router, e: Event)
    requires Inv(s) && Enabled(s, e) && e.AttachResumes?
    ensures Inv(Next(s, e))
  {
    hide Members, Hosted, OpeningEntries, AllOwned, Openers, Clients, Chain, Previous, TailEntries, Tails, AllConsistent,
         NoOrphans, AllQueueDrained, Delivered, AttachmentRefs, ValuesBelow, OperationRefs, OpenRefs, RemovalRefs;
    var o := e.op;
    var step := s.operations[o].step;
    UnderWayInTurn(s, o);
    OperationFacts(s, o);
    if step.hosted.None? || Barred(s, s.operations[o].client) {
      FinishKeepsInv(s, o);
    } else if step.current.Some? {
      QueuedReleaseKeepsInv(s, o, step.current.value, false, AwaitCurrent(step.hosted.value, step.current.value));
    } else {
      CreateKeepsInv(s, o, step.hosted.value);
    }
  }

  lemma PreservedCurrentReleased(s: Router, e: Event)
    requires Inv(s) && Enabled(s, e) && e.CurrentReleased?
    ensures Inv(Next(s, e))
  {
    var o := e.op;
    var a := s.operations[o].step.released;
    UnderWayInTurn(s, o);
    OperationFacts(s, o);
    AttachmentFacts(s, a);
    assert s.operations[o].client !in s.attachmentsByClient;
    hide Members, Hosted, OpeningEntries, AllOwned, Openers, Clients, Chain, Previous, TailEntries, Tails, AllConsistent,
         NoOrphans, AllQueueDrained, Delivered, AttachmentRefs, ValuesBelow, OperationRefs, OpenRefs, RemovalRefs;
    if s.attachments[a].release.ok {
      CreateKeepsInv(s, o, s.operations[o].step.handle);
    } else {
      FinishKeepsInv(s, o);
    }
  }

  lemma DropKeepsSets(handles: seq<Handle>, attachments: seq<Attachment>, hosted: map<SessionId, HandleId>, a: AttachmentId)
    requires a < |attachments| && attachments[a].handle < |handles| && attachments[a].acquiring.Refused?
    requires Members(handles, attachments) && AllOwned(attachments, handles) && Hosted(hosted, handles)
    ensures var h := attachments[a].handle;
            var handles' := handles[h := handles[h].(attachments := handles[h].attachments - {a})];
            Members(handles', attachments) && AllOwned(attachments, handles') && Hosted(hosted, handles')
  {
    var h := attachments[a].handle;
    var handles' := handles[h := handles[h].(attachments := handles[h].attachments - {a})];
    forall x | 0 <= x < |attachments|
      ensures Owned(x, attachments[x], handles')
    {
      assert Owned(x, attachments[x], handles);
    }
  }

  lemma RefusedLeaseKeepsInv(s: Router, o: OperationId, a: AttachmentId)
    requires Inv(s) && o < |s.operations| && a < |s.attachments| && s.operations[o].step == AwaitLease(a)
    requires s.attachments[a].acquiring.Refused? && InTurn(s, o)
    ensures Inv(Finish(DropFromHandle(s, a), o))
  {
    hide Members, Hosted, OpeningEntries, AllOwned, Openers, Clients, Chain, Previous, TailEntries, Tails, AllConsistent,
         NoOrphans, AllQueueDrained, Delivered, AttachmentRefs, ValuesBelow, OperationRefs, OpenRefs, RemovalRefs;
    OperationFacts(s, o);
    AttachmentFacts(s, a);
    DropKeepsSets(s.handles, s.attachments, s.hostedSessions, a);
    MoveKeepsClaims(s, o, a, Finished);
    MoveKeepsTailEntries(s.operations, s.clientOperations, o, Finished);
    if !s.shutdown.Complete? {
      FinishKeepsTails(s.operations, s.clientOperations, o);
    }
  }

  /** Everything but the attachment's own reachability survives its opener moving on. */
  lemma MoveKeepsClaims(s: Router, o: OperationId, a: AttachmentId, step: Step)
    requires Inv(s) && o < |s.operations| && a < |s.attachments| && s.operations[o].step == AwaitLease(a) && InTurn(s, o)
    requires StepRefs(step, |s.opens|, |s.handles|, |s.attachments|)
    requires Consistent(o, s.operations[o].(step := step), s.attachmentsByClient, s.attachments)
    ensures var moved := Moved(s.operations, o, step);
            && Previous(moved)
            && (!s.shutdown.Complete? ==> Chain(moved) && Tails(moved, s.clientOperations))
            && AllConsistent(moved, s.attachmentsByClient, s.attachments)
            && AllQueueDrained(s.attachments, moved)
            && Openers(s.attachments, moved)
            && OperationRefs(moved, |s.opens|, |s.handles|, |s.attachments|)
            && (s.attachments[a].acquiring.Refused? && !s.shutdown.Complete? ==>
                  NoOrphans(s.attachments, s.attachmentsByClient, moved))
  {
    hide Members, Hosted, OpeningEntries, AllOwned, Openers, Clients, Chain, Previous, TailEntries, Tails, AllConsistent,
         NoOrphans, AllQueueDrained, Delivered, AttachmentRefs, ValuesBelow, OperationRefs, OpenRefs, RemovalRefs;
    MoveKeepsPrevious(s.operations, o, step);
    if !s.shutdown.Complete? {
      MoveKeepsChain(s.operations, o, step);
      MoveKeepsTails(s.operations, s.clientOperations, o, step);
      if s.attachments[a].acquiring.Refused? {
        MoveKeepsOrphans(s.attachments, s.attachmentsByClient, s.operations, o, step);
      }
    }
    MoveKeepsConsistent(s.operations, s.attachmentsByClient, s.attachments, o, step);
    MoveKeepsDrained(s.attachments, s.operations, o, step);
    MoveKeepsOpeners(s.attachments, s.operations, o, step);
    MoveKeepsRefs(s.operations, o, step, |s.opens|, |s.handles|, |s.attachments|);
  }

  lemma OnlyOpenerWaits(s: Router, o: OperationId, a: AttachmentId)
    requires Inv(s) && o < |s.operations| && s.operations[o].step == AwaitLease(a)
    ensures forall q {:trigger s.operations[q]} :: 0 <= q < |s.operations| && q != o ==> s.operations[q].step != AwaitLease(a)
  {
    hide Chain, Tails, TailEntries, Previous, AllOwned, NoOrphans, AllQueueDrained, Members, Hosted, OpeningEntries, OperationRefs, Delivered, Openers, Clients, ValuesBelow;
    assert Consistent(o, s.operations[o], s.attachmentsByClient, s.attachments);
    forall q | 0 <= q < |s.operations| && q != o
      ensures s.operations[q].step != AwaitLease(a)
    {
      assert Consistent(q, s.operations[q], s.attachmentsByClient, s.attachments);
    }
  }

  lemma UnwantedLeaseFacts(s: Router, o: OperationId, a: AttachmentId)
    requires Inv(s) && o < |s.operations| && a < |s.attachments| && s.operations[o].step == AwaitLease(a)
    requires s.attachments[a].acquiring.Leased? && InTurn(s, o)
    ensures var t := Begun(s.attachments[a].(lease := true), true, Some(o));
            var moved := Moved(s.operations, o, AwaitPublish);
            && Advances(s.attachments[a], t) && s.attachments[a].client == s.operations[o].client
            && Owned(a, t, s.handles)
            && (Lookup(s.attachmentsByClient, t.client) == Some(a) ==> !t.Cleared())
            && (forall q {:trigger moved[q]} :: 0 <= q < |moved| ==> moved[q].step != AwaitLease(a))
            && Consistent(o, moved[o].(step := AwaitRelease(a)), s.attachmentsByClient, s.attachments[a := t])
            && Consistent(o, moved[o], s.attachmentsByClient, s.attachments)
            && StepRefs(AwaitPublish, |s.opens|, |s.handles|, |s.attachments|)
            && StepRefs(AwaitRelease(a), |s.opens|, |s.handles|, |s.attachments|)
  {
    hide Members, Hosted, OpeningEntries, AllOwned, Openers, Clients, Chain, Previous, TailEntries, Tails, AllConsistent,
         NoOrphans, AllQueueDrained, Delivered, AttachmentRefs, ValuesBelow, OperationRefs, OpenRefs, RemovalRefs;
    OperationFacts(s, o);
    AttachmentFacts(s, a);
    OnlyOpenerWaits(s, o, a);
  }

  /** The state after an unwanted lease has been taken to be given back. */
  function LeaseReturned(s: Router, o: OperationId, a: AttachmentId): Router
    requires o < |s.operations| && a < |s.attachments|
  {
    s.(attachments := s.attachments[a := Begun(s.attachments[a].(lease := true), true, Some(o))],
       operations := Moved(s.operations, o, AwaitRelease(a)))
  }

  lemma UnwantedLeaseKeepsInv(s: Router, o: OperationId, a: AttachmentId)
    requires Inv(s) && o < |s.operations| && a < |s.attachments| && s.operations[o].step == AwaitLease(a)
    requires s.attachments[a].acquiring.Leased? && InTurn(s, o)
    ensures Inv(At(StartRelease(s.(attachments := s.attachments[a := s.attachments[a].(lease := true)]), a, true, Some(o)),
                   o, AwaitRelease(a)))
  {
    ReturnedLeaseKeepsInv(s, o, a);
    hide Inv, Begun;
    var leased := s.(attachments := s.attachments[a := s.attachments[a].(lease := true)]);
    assert At(StartRelease(leased, a, true, Some(o)), o, AwaitRelease(a)).attachments == LeaseReturned(s, o, a).attachments;
    assert At(StartRelease(leased, a, true, Some(o)), o, AwaitRelease(a)) == LeaseReturned(s, o, a);
  }

  lemma ReturnedLeaseKeepsInv(s: Router, o: OperationId, a: AttachmentId)
    requires Inv(s) && o < |s.operations| && a < |s.attachments| && s.operations[o].step == AwaitLease(a)
    requires s.attachments[a].acquiring.Leased? && InTurn(s, o)
    ensures Inv(LeaseReturned(s, o, a))
  {
    hide Members, Hosted, OpeningEntries, AllOwned, Openers, Clients, Chain, Previous, TailEntries, Tails, AllConsistent,
         NoOrphans, AllQueueDrained, Delivered, AttachmentRefs, ValuesBelow, OperationRefs, OpenRefs, RemovalRefs;
    hide Owned, Reachable, QueueDrained, Consistent, StepRefs, Awaits, Belongs, Begun, InTurn;
    var t := Begun(s.attachments[a].(lease := true), true, Some(o));
    var moved := Moved(s.operations, o, AwaitPublish);
    var step := AwaitRelease(a);
    UnwantedLeaseFacts(s, o, a);
    assert Moved(moved, o, step) == Moved(s.operations, o, step);
    MoveKeepsClaims(s, o, a, AwaitPublish);
    UnwantedLeaseDrains(s.attachments, s.operations, o, a);
    UnwantedLeaseReachable(s, o, a);
    MoveKeepsRefs(moved, o, step, |s.opens|, |s.handles|, |s.attachments|);
    UnwantedLeaseOrder(s, o, step);
    UpdateKeepsMembers(s.handles, s.attachments, a, t);
    UpdateKeepsOwned(s.handles, s.attachments, a, t);
    UpdateKeepsOpeners(s.attachments, moved, a, t);
    MoveKeepsOpeners(s.attachments[a := t], moved, o, step);
    UpdateKeepsClients(s.attachmentsByClient, s.attachments, a, t);
    UpdateKeepsConsistent(moved, s.attachmentsByClient, s.attachments, a, t);
    MoveKeepsConsistent(moved, s.attachmentsByClient, s.attachments[a := t], o, step);
    UpdateKeepsDelivered(s.deliveries, s.attachments, a, t);
    UpdateKeepsRefs(s.attachments, |s.handles|, a, t);
  }

  lemma UnwantedLeaseOrder(s: Router, o: OperationId, step: Step)
    requires Inv(s) && o < |s.operations| && InTurn(s, o)
    ensures Previous(Moved(s.operations, o, step)) && TailEntries(Moved(s.operations, o, step), s.clientOperations)
    ensures !s.shutdown.Complete? ==>
              Chain(Moved(s.operations, o, step)) && Tails(Moved(s.operations, o, step), s.clientOperations)
  {
    hide Members, Hosted, OpeningEntries, AllOwned, Openers, Clients, Chain, Previous, TailEntries, Tails, AllConsistent,
         NoOrphans, AllQueueDrained, Delivered, AttachmentRefs, ValuesBelow, OperationRefs, OpenRefs, RemovalRefs;
    MoveKeepsPrevious(s.operations, o, step);
    MoveKeepsTailEntries(s.operations, s.clientOperations, o, step);
    if !s.shutdown.Complete? {
      MoveKeepsChain(s.operations, o, step);
      MoveKeepsTails(s.operations, s.clientOperations, o, step);
    }
  }

  lemma UnwantedLeaseDrains(attachments: seq<Attachment>, operations: seq<Operation>, o: OperationId, a: AttachmentId)
    requires AllQueueDrained(attachments, operations) && o < |operations| && a < |attachments|
    requires operations[o].step == AwaitLease(a) && attachments[a].client == operations[o].client
    ensures AllQueueDrained(attachments[a := Begun(attachments[a].(lease := true), true, Some(o))],
                            Moved(operations, o, AwaitRelease(a)))
  {
    var attachments' := attachments[a := Begun(attachments[a].(lease := true), true, Some(o))];
    var moved := Moved(operations, o, AwaitRelease(a));
    forall x | 0 <= x < |attachments'|
      ensures QueueDrained(x, attachments'[x], moved)
    {
      assert QueueDrained(x, attachments[x], operations);
    }
  }

  lemma UnwantedLeaseReachable(s: Router, o: OperationId, a: AttachmentId)
    requires Inv(s) && o < |s.operations| && a < |s.attachments| && s.operations[o].step == AwaitLease(a)
    ensures !s.shutdown.Complete? ==>
              NoOrphans(s.attachments[a := Begun(s.attachments[a].(lease := true), true, Some(o))],
                        s.attachmentsByClient, Moved(s.operations, o, AwaitRelease(a)))
  {
    hide Chain, Tails, TailEntries, Previous, AllOwned, AllConsistent, AllQueueDrained, Members, Hosted, OpeningEntries, OperationRefs, Delivered, Openers, Clients, ValuesBelow;
    var attachments' := s.attachments[a := Begun(s.attachments[a].(lease := true), true, Some(o))];
    var moved := Moved(s.operations, o, AwaitRelease(a));
    if !s.shutdown.Complete? {
      forall x | 0 <= x < |attachments'|
        ensures Reachable(x, attachments'[x], s.attachmentsByClient, moved)
      {
        assert Reachable(x, s.attachments[x], s.attachmentsByClient, s.operations);
      }
    }
  }

  lemma InstalledLeaseKeepsInv(s: Router, o: OperationId, a: AttachmentId)
    requires Inv(s) && o < |s.operations| && a < |s.attachments| && s.operations[o].step == AwaitLease(a)
    requires s.attachments[a].acquiring.Leased? && InTurn(s, o) && !s.closing
    requires a in s.handles[s.attachments[a].handle].attachments
    ensures Inv(At(s.(attachments := s.attachments[a := s.attachments[a].(lease := true)]), o, AwaitPublish).(
                  attachmentsByClient := s.attachmentsByClient[s.attachments[a].client := a]))
  {
    var t := s.attachments[a].(lease := true);
    var moved := Moved(s.operations, o, AwaitPublish);
    var s' := At(s.(attachments := s.attachments[a := t]), o, AwaitPublish).(
                 attachmentsByClient := s.attachmentsByClient[t.client := a]);
    hide Members, Hosted, OpeningEntries, AllOwned, Openers, Clients, Chain, Previous, TailEntries, Tails, AllConsistent,
         NoOrphans, AllQueueDrained, Delivered, AttachmentRefs, ValuesBelow, OperationRefs, OpenRefs, RemovalRefs;
    hide QueueDrained, Consistent, Reachable;
    OperationFacts(s, o);
    AttachmentFacts(s, a);
    ExtendKeepsValuesBelow(s.attachmentsByClient, t.client, a, |s.attachments|);
    OnlyOpenerWaits(s, o, a);
    MoveKeepsClaims(s, o, a, AwaitPublish);
    MoveKeepsTailEntries(s.operations, s.clientOperations, o, AwaitPublish);
    InstalledLeaseClients(s, o, a);
    InstalledLeaseConsistent(s, o, a);
    InstalledLeaseReachable(s, o, a);
    UpdateKeepsMembers(s.handles, s.attachments, a, t);
    UpdateKeepsOwned(s.handles, s.attachments, a, t);
    UpdateKeepsOpeners(s.attachments, moved, a, t);
    UpdateKeepsDrained(s.attachments, moved, a, t);
    UpdateKeepsDelivered(s.deliveries, s.attachments, a, t);
    UpdateKeepsRefs(s.attachments, |s.handles|, a, t);
  }

  lemma ExtendKeepsValuesBelow(m: map<nat, nat>, k: nat, v: nat, bound: nat)
    requires ValuesBelow(m, bound) && v < bound
    ensures ValuesBelow(m[k := v], bound)
  {
  }

  lemma InstalledLeaseClients(s: Router, o: OperationId, a: AttachmentId)
    requires Inv(s) && o < |s.operations| && a < |s.attachments| && s.operations[o].step == AwaitLease(a)
    requires s.attachments[a].acquiring.Leased? && InTurn(s, o)
    requires a in s.handles[s.attachments[a].handle].attachments
    ensures var t := s.attachments[a].(lease := true);
            && Clients(s.attachmentsByClient[t.client := a], s.attachments[a := t])
            && QueueDrained(a, t, Moved(s.operations, o, AwaitPublish))
  {
    OperationFacts(s, o);
    AttachmentFacts(s, a);
    hide Chain, Tails, TailEntries, Previous, AllOwned, AllConsistent, NoOrphans, AllQueueDrained, Members, Hosted,
         OpeningEntries, OperationRefs, Delivered, Openers, ValuesBelow;
  }

  lemma InstalledLeaseConsistentAt(s: Router, o: OperationId, a: AttachmentId, q: OperationId)
    requires Inv(s) && o < |s.operations| && a < |s.attachments| && s.operations[o].step == AwaitLease(a)
    requires InTurn(s, o) && !s.closing && q < |s.operations|
    ensures var t := s.attachments[a].(lease := true);
            Consistent(q, Moved(s.operations, o, AwaitPublish)[q], s.attachmentsByClient[t.client := a], s.attachments[a := t])
  {
    hide Members, Hosted, OpeningEntries, AllOwned, Openers, Clients, Chain, Previous, TailEntries, Tails, AllConsistent,
         NoOrphans, AllQueueDrained, Delivered, AttachmentRefs, ValuesBelow, OperationRefs, OpenRefs, RemovalRefs;
    OperationFacts(s, o);
    OperationFacts(s, q);
    OnlyOpenerWaits(s, o, a);
    if q != o && s.operations[q].client == s.attachments[a].client {
      OthersIdle(s, o, q);
    }
  }

  lemma InstalledLeaseConsistent(s: Router, o: OperationId, a: AttachmentId)
    requires Inv(s) && o < |s.operations| && a < |s.attachments| && s.operations[o].step == AwaitLease(a)
    requires InTurn(s, o) && !s.closing
    ensures var t := s.attachments[a].(lease := true);
            AllConsistent(Moved(s.operations, o, AwaitPublish), s.attachmentsByClient[t.client := a], s.attachments[a := t])
  {
    hide Members, Hosted, OpeningEntries, AllOwned, Openers, Clients, Chain, Previous, TailEntries, Tails, AllConsistent,
         NoOrphans, AllQueueDrained, Delivered, AttachmentRefs, ValuesBelow, OperationRefs, OpenRefs, RemovalRefs;
    var t := s.attachments[a].(lease := true);
    var moved := Moved(s.operations, o, AwaitPublish);
    forall q | 0 <= q < |moved|
      ensures Consistent(q, moved[q], s.attachmentsByClient[t.client := a], s.attachments[a := t])
    {
      InstalledLeaseConsistentAt(s, o, a, q);
    }
    ConsistentEverywhere(moved, s.attachmentsByClient[t.client := a], s.attachments[a := t]);
  }

  lemma ConsistentEverywhere(operations: seq<Operation>, byClient: map<ClientId, AttachmentId>, attachments: seq<Attachment>)
    requires forall q :: 0 <= q < |operations| ==> Consistent(q, operations[q], byClient, attachments)
    ensures AllConsistent(operations, byClient, attachments)
  {
  }

  lemma InstalledLeaseReachable(s: Router, o: OperationId, a: AttachmentId)
    requires Inv(s) && o < |s.operations| && a < |s.attachments| && s.operations[o].step == AwaitLease(a) && !s.closing
    ensures var t := s.attachments[a].(lease := true);
            NoOrphans(s.attachments[a := t], s.attachmentsByClient[t.client := a], Moved(s.operations, o, AwaitPublish))
  {
    hide Chain, Tails, TailEntries, Previous, AllOwned, AllConsistent, AllQueueDrained, Members, Hosted, OpeningEntries,
         OperationRefs, Delivered, Openers, Clients, ValuesBelow;
    var t := s.attachments[a].(lease := true);
    var moved := Moved(s.operations, o, AwaitPublish);
    var updated := s.attachments[a := t];
    OperationFacts(s, o);
    forall x | 0 <= x < |updated|
      ensures Reachable(x, updated[x], s.attachmentsByClient[t.client := a], moved)
    {
      assert Reachable(x, s.attachments[x], s.attachmentsByClient, s.operations);
    }
  }

  lemma PreservedLeaseArrives(s: Router, e: Event)
    requires Inv(s) && Enabled(s, e) && e.LeaseArrives?
    ensures Inv(Next(s, e))
  {
    hide Members, Hosted, OpeningEntries, AllOwned, Openers, Clients, Chain, Previous, TailEntries, Tails, AllConsistent,
         NoOrphans, AllQueueDrained, Delivered, AttachmentRefs, ValuesBelow, OperationRefs, OpenRefs, RemovalRefs;
    var o := e.op;
    var a := s.operations[o].step.attachment;
    var att := s.attachments[a];
    UnderWayInTurn(s, o);
    OperationFacts(s, o);
    AttachmentFacts(s, a);
    if !att.acquiring.Leased? {
      RefusedLeaseKeepsInv(s, o, a);
    } else if Lookup(s.hostedSessions, s.handles[att.handle].id) != Some(att.handle)
              || a !in s.handles[att.handle].attachments || Barred(s, att.client) {
      UnwantedLeaseKeepsInv(s, o, a);
    } else {
      InstalledLeaseKeepsInv(s, o, a);
    }
  }

  lemma PreservedAttachPublished(s: Router, e: Event)
    requires Inv(s) && Enabled(s, e) && e.AttachPublished?
    ensures Inv(Next(s, e))
  {
    hide Members, Hosted, OpeningEntries, AllOwned, Openers, Clients, Chain, Previous, TailEntries, Tails, AllConsistent,
         NoOrphans, AllQueueDrained, Delivered, AttachmentRefs, ValuesBelow, OperationRefs, OpenRefs, RemovalRefs;
    UnderWayInTurn(s, e.op);
    FinishKeepsInv(s, e.op);
  }

  lemma PreservedReleaseAwaited(s: Router, e: Event)
    requires Inv(s) && Enabled(s, e) && e.ReleaseAwaited?
    ensures Inv(Next(s, e))
  {
    hide Members, Hosted, OpeningEntries, AllOwned, Openers, Clients, Chain, Previous, TailEntries, Tails, AllConsistent,
         NoOrphans, AllQueueDrained, Delivered, AttachmentRefs, ValuesBelow, OperationRefs, OpenRefs, RemovalRefs;
    UnderWayInTurn(s, e.op);
    FinishKeepsInv(s, e.op);
  }

  lemma PreservedLeaseSettles(s: Router, e: Event)
    requires Inv(s) && Enabled(s, e) && e.LeaseSettles?
    ensures Inv(Next(s, e))
  {
    hide Members, Hosted, OpeningEntries, AllOwned, Openers, Clients, Chain, Previous, TailEntries, Tails, AllConsistent,
         NoOrphans, AllQueueDrained, Delivered, AttachmentRefs, ValuesBelow, OperationRefs, OpenRefs, RemovalRefs;
    var a := e.att;
    AttachmentFacts(s, a);
    UpdateKeepsInv(s, a, Next(s, e).attachments[a]);
  }

  lemma PreservedCallSettles(s: Router, e: Event)
    requires Inv(s) && Enabled(s, e) && e.CallSettles?
    ensures Inv(Next(s, e))
  {
    hide Members, Hosted, OpeningEntries, AllOwned, Openers, Clients, Chain, Previous, TailEntries, Tails, AllConsistent,
         NoOrphans, AllQueueDrained, Delivered, AttachmentRefs, ValuesBelow, OperationRefs, OpenRefs, RemovalRefs;
    var a := e.att;
    AttachmentFacts(s, a);
    UpdateKeepsInv(s, a, Next(s, e).attachments[a]);
  }

  lemma CallReleaseKeepsInv(s: Router, a: AttachmentId)
    requires Inv(s) && a < |s.attachments| && s.attachments[a].acquiring.Leased?
    requires s.attachments[a].release.phase == Draining || s.attachments[a].release.phase == AwaitingLease
    requires s.attachments[a].release.starter.Some? ==> s.attachments[a].calls == {}
    ensures Inv(CallRelease(s, a))
  {
    hide Members, Hosted, OpeningEntries, AllOwned, Openers, Clients, Chain, Previous, TailEntries, Tails, AllConsistent,
         NoOrphans, AllQueueDrained, Delivered, AttachmentRefs, ValuesBelow, OperationRefs, OpenRefs, RemovalRefs;
    AttachmentFacts(s, a);
    UpdateKeepsInv(s, a, CallRelease(s, a).attachments[a]);
  }

  lemma AwaitLeaseKeepsInv(s: Router, a: AttachmentId)
    requires Inv(s) && a < |s.attachments| && s.attachments[a].release.phase == Draining
    requires s.attachments[a].release.starter.Some? ==> s.attachments[a].calls == {}
    ensures Inv(SetRelease(s, a, AwaitingLease, true))
  {
    hide Members, Hosted, OpeningEntries, AllOwned, Openers, Clients, Chain, Previous, TailEntries, Tails, AllConsistent,
         NoOrphans, AllQueueDrained, Delivered, AttachmentRefs, ValuesBelow, OperationRefs, OpenRefs, RemovalRefs;
    AttachmentFacts(s, a);
    UpdateKeepsInv(s, a, SetRelease(s, a, AwaitingLease, true).attachments[a]);
  }

  lemma DrainedIsQuiet(s: Router, a: AttachmentId)
    requires Inv(s) && Enabled(s, Drained(a))
    ensures s.attachments[a].release.starter.Some? ==> s.attachments[a].calls == {}
    ensures s.attachments[a].lease ==> s.attachments[a].acquiring.Leased?
  {
    AttachmentFacts(s, a);
  }

  lemma PreservedDrained(s: Router, e: Event)
    requires Inv(s) && Enabled(s, e) && e.Drained?
    ensures Inv(Next(s, e))
  {
    hide Members, Hosted, OpeningEntries, AllOwned, Openers, Clients, Chain, Previous, TailEntries, Tails, AllConsistent,
         NoOrphans, AllQueueDrained, Delivered, AttachmentRefs, ValuesBelow, OperationRefs, OpenRefs, RemovalRefs;
    var a := e.att;
    DrainedIsQuiet(s, a);
    if s.attachments[a].lease {
      CallReleaseKeepsInv(s, a);
    } else {
      AwaitLeaseKeepsInv(s, a);
    }
  }

  lemma PreservedLeaseForRelease(s: Router, e: Event)
    requires Inv(s) && Enabled(s, e) && e.LeaseForRelease?
    ensures Inv(Next(s, e))
  {
    hide Members, Hosted, OpeningEntries, AllOwned, Openers, Clients, Chain, Previous, TailEntries, Tails, AllConsistent,
         NoOrphans, AllQueueDrained, Delivered, AttachmentRefs, ValuesBelow, OperationRefs, OpenRefs, RemovalRefs;
    var a := e.att;
    AttachmentFacts(s, a);
    if s.attachments[a].acquiring.Leased? {
      CallReleaseKeepsInv(s, a);
    } else {
      ClearKeepsInv(s, a, false);
    }
  }

  lemma PreservedReleaseSettles(s: Router, e: Event)
    requires Inv(s) && Enabled(s, e) && e.ReleaseSettles?
    ensures Inv(Next(s, e))
  {
    ClearKeepsInv(s, e.att, e.ok);
  }

  lemma PreservedClearPublished(s: Router, e: Event)
    requires Inv(s) && Enabled(s, e) && e.ClearPublished?
    ensures Inv(Next(s, e))
  {
    hide Members, Hosted, OpeningEntries, AllOwned, Openers, Clients, Chain, Previous, TailEntries, Tails, AllConsistent,
         NoOrphans, AllQueueDrained, Delivered, AttachmentRefs, ValuesBelow, OperationRefs, OpenRefs, RemovalRefs;
    var a := e.att;
    AttachmentFacts(s, a);
    UpdateKeepsInv(s, a, Next(s, e).attachments[a]);
  }

  lemma PreservedSessionResolves(s: Router, e: Event)
    requires Inv(s) && Enabled(s, e) && e.SessionResolves?
    ensures Inv(Next(s, e))
  {
    hide Chain, Tails, TailEntries, Previous, AllConsistent, NoOrphans, AllQueueDrained, Openers, Delivered, Clients, Members, AllOwned, Hosted, AttachmentRefs, RemovalRefs, OperationRefs;
  }

  lemma MoreHandlesKeepSets(handles: seq<Handle>, attachments: seq<Attachment>, h: Handle)
    requires Members(handles, attachments) && AllOwned(attachments, handles) && h.attachments == {}
    ensures Members(handles + [h], attachments) && AllOwned(attachments, handles + [h])
  {
    forall x | 0 <= x < |attachments|
      ensures Owned(x, attachments[x], handles + [h])
    {
      assert Owned(x, attachments[x], handles);
    }
  }

  lemma MoreHandlesKeepRefs(operations: seq<Operation>, attachments: seq<Attachment>, removals: seq<Removal>,
                            opens: nat, handles: nat, bound: nat)
    requires OperationRefs(operations, opens, handles, bound)
    requires AttachmentRefs(attachments, handles) && RemovalRefs(removals, handles)
    ensures OperationRefs(operations, opens, handles + 1, bound)
    ensures AttachmentRefs(attachments, handles + 1) && RemovalRefs(removals, handles + 1)
  {
    forall q | 0 <= q < |operations|
      ensures StepRefs(operations[q].step, opens, handles + 1, bound)
    {
      assert StepRefs(operations[q].step, opens, handles, bound);
    }
  }

  lemma PreservedHandleOpens(s: Router, e: Event)
    requires Inv(s) && Enabled(s, e) && e.HandleOpens?
    ensures Inv(Next(s, e))
  {
    hide Chain, Tails, TailEntries, Previous, AllConsistent, NoOrphans, AllQueueDrained, Openers, Delivered, Clients, Members, AllOwned, AttachmentRefs, RemovalRefs, OperationRefs;
    MoreHandlesKeepSets(s.handles, s.attachments, Handle(s.opens[e.open].phase.metadata, {}, s.closing, false));
    MoreHandlesKeepRefs(s.operations, s.attachments, s.removals, |s.opens|, |s.handles|, |s.attachments|);
  }

  lemma PreservedAcquiredClosed(s: Router, e: Event)
    requires Inv(s) && Enabled(s, e) && e.AcquiredClosed?
    ensures Inv(Next(s, e))
  {
    hide Chain, Tails, TailEntries, Previous, AllConsistent, NoOrphans, AllQueueDrained, Openers, Delivered, Clients, Members, AllOwned, Hosted, AttachmentRefs, RemovalRefs, OperationRefs;
  }

  lemma PreservedTerminates(s: Router, e: Event)
    requires Inv(s) && Enabled(s, e) && e.Terminates?
    ensures Inv(Next(s, e))
  {
    hide Chain, Tails, TailEntries, Previous, AllConsistent, NoOrphans, AllQueueDrained, Openers, Delivered, Clients, OpeningEntries, AttachmentRefs, OpenRefs, OperationRefs;
  }

  lemma PreservedInvalidate(s: Router, e: Event)
    requires Inv(s) && Enabled(s, e) && e.Invalidate?
    ensures Inv(Next(s, e))
  {
    if Lookup(s.hostedSessions, s.handles[e.handle].id) == Some(e.handle) {
      var s1 := s.(hostedSessions := s.hostedSessions - {s.handles[e.handle].id});
      assert Hosted(s1.hostedSessions, s1.handles) && ValuesBelow(s1.hostedSessions, |s1.handles|);
      hide Members, Hosted, OpeningEntries, AllOwned, Openers, Clients, Chain, Previous, TailEntries, Tails, AllConsistent,
         NoOrphans, AllQueueDrained, Delivered, AttachmentRefs, ValuesBelow, OperationRefs, OpenRefs, RemovalRefs;
      StartReleasesKeepsInv(s1, s.handles[e.handle].attachments);
    }
  }

  lemma PreservedRemove(s: Router, e: Event)
    requires Inv(s) && Enabled(s, e) && e.Remove?
    ensures Inv(Next(s, e))
  {
    if !s.closing && e.session in s.hostedSessions {
      var h := s.hostedSessions[e.session];
      assert RemovalRefs(s.removals + [Removal(e.session, h, AwaitReleases(s.handles[h].attachments))], |s.handles|);
      hide Members, Hosted, OpeningEntries, AllOwned, Openers, Clients, Chain, Previous, TailEntries, Tails, AllConsistent,
         NoOrphans, AllQueueDrained, Delivered, AttachmentRefs, ValuesBelow, OperationRefs, OpenRefs, RemovalRefs;
      StartReleasesKeepsInv(s, s.handles[h].attachments);
    }
  }

  lemma PreservedRemovalReleased(s: Router, e: Event)
    requires Inv(s) && Enabled(s, e) && e.RemovalReleased?
    ensures Inv(Next(s, e))
  {
    hide Chain, Tails, TailEntries, Previous, AllConsistent, NoOrphans, AllQueueDrained, Openers, Delivered, Clients, OpeningEntries, AttachmentRefs, OpenRefs, OperationRefs;
  }

  lemma PreservedRemovalClosed(s: Router, e: Event)
    requires Inv(s) && Enabled(s, e) && e.RemovalClosed?
    ensures Inv(Next(s, e))
  {
    hide Chain, Tails, TailEntries, Previous, AllConsistent, NoOrphans, AllQueueDrained, Openers, Delivered, Clients, Members, AllOwned, OpeningEntries, AttachmentRefs, OpenRefs, OperationRefs;
  }

  lemma PreservedBeginClosing(s: Router, e: Event)
    requires Inv(s) && Enabled(s, e) && e.BeginClosing?
    ensures Inv(Next(s, e))
  {
    hide Members, Hosted, OpeningEntries, AllOwned, Openers, Clients, Chain, Previous, TailEntries, Tails, AllConsistent,
         NoOrphans, AllQueueDrained, Delivered, AttachmentRefs, ValuesBelow, OperationRefs, OpenRefs, RemovalRefs;
  }

  lemma PreservedClose(s: Router, e: Event)
    requires Inv(s) && Enabled(s, e) && e.Close?
    ensures Inv(Next(s, e))
  {
    hide Members, Hosted, OpeningEntries, AllOwned, Openers, Clients, Chain, Previous, TailEntries, Tails, AllConsistent,
         NoOrphans, AllQueueDrained, Delivered, AttachmentRefs, ValuesBelow, OperationRefs, OpenRefs, RemovalRefs;
  }

  lemma PreservedCloseOperationsSettled(s: Router, e: Event)
    requires Inv(s) && Enabled(s, e) && e.CloseOperationsSettled?
    ensures Inv(Next(s, e))
  {
    hide Members, Hosted, OpeningEntries, AllOwned, Openers, Clients, Chain, Previous, TailEntries, Tails, AllConsistent,
         NoOrphans, AllQueueDrained, Delivered, AttachmentRefs, ValuesBelow, OperationRefs, OpenRefs, RemovalRefs;
    hide AllAttachments;
    StartReleasesKeepsInv(s, AllAttachments(s));
  }

  lemma PreservedCloseAttachmentsSettled(s: Router, e: Event)
    requires Inv(s) && Enabled(s, e) && e.CloseAttachmentsSettled?
    ensures Inv(Next(s, e))
  {
    hide Chain, Tails, TailEntries, Previous, AllConsistent, NoOrphans, AllQueueDrained, Openers, Delivered, Clients, OpeningEntries, AttachmentRefs, OpenRefs, OperationRefs, RemovalRefs;
  }

  lemma UnmapAllKeepsConsistent(operations: seq<Operation>, byClient: map<ClientId, AttachmentId>, attachments: seq<Attachment>)
    requires AllConsistent(operations, byClient, attachments)
    ensures AllConsistent(operations, map[], attachments)
  {
    forall q | 0 <= q < |operations|
      ensures Consistent(q, operations[q], map[], attachments)
    {
      assert Consistent(q, operations[q], byClient, attachments);
    }
  }

  lemma PreservedCloseHandlesSettled(s: Router, e: Event)
    requires Inv(s) && Enabled(s, e) && e.CloseHandlesSettled?
    ensures Inv(Next(s, e))
  {
    var s' := Next(s, e);
    assert Hosted(s'.hostedSessions, s'.handles) && ValuesBelow(s'.hostedSessions, |s'.handles|);
    UnmapAllKeepsConsistent(s.operations, s.attachmentsByClient, s.attachments);
    assert Clients(s'.attachmentsByClient, s'.attachments) && ValuesBelow(s'.attachmentsByClient, |s'.attachments|);
    assert TailEntries(s'.operations, s'.clientOperations);
    hide Members, Hosted, OpeningEntries, AllOwned, Openers, Clients, Chain, Previous, TailEntries, Tails, AllConsistent,
         NoOrphans, AllQueueDrained, Delivered, AttachmentRefs, ValuesBelow, OperationRefs, OpenRefs, RemovalRefs;
  }

  lemma Preserved(s: Router, e: Event)
    requires Inv(s) && Enabled(s, e)
    ensures Inv(Next(s, e))
  {
    hide Inv, Enabled, Next;
    match e {
      case Enqueue(client, kind) => PreservedEnqueue(s, e);
      case Start(o) => PreservedStart(s, e);
      case AcquireReturns(o) => PreservedAcquireReturns(s, e);
      case AttachResumes(o) => PreservedAttachResumes(s, e);
      case CurrentReleased(o) => PreservedCurrentReleased(s, e);
      case LeaseArrives(o) => PreservedLeaseArrives(s, e);
      case AttachPublished(o) => PreservedAttachPublished(s, e);
      case ReleaseAwaited(o) => PreservedReleaseAwaited(s, e);
      case LeaseSettles(a, ok) => PreservedLeaseSettles(s, e);
      case CallSettles(a, call) => PreservedCallSettles(s, e);
      case Drained(a) => PreservedDrained(s, e);
      case LeaseForRelease(a) => PreservedLeaseForRelease(s, e);
      case ReleaseSettles(a, ok) => PreservedReleaseSettles(s, e);
      case ClearPublished(a, ok) => PreservedClearPublished(s, e);
      case SessionResolves(n, metadata) => PreservedSessionResolves(s, e);
      case HandleOpens(n, ok) => PreservedHandleOpens(s, e);
      case AcquiredClosed(n) => PreservedAcquiredClosed(s, e);
      case Terminates(h) => PreservedTerminates(s, e);
      case Invalidate(h) => PreservedInvalidate(s, e);
      case Remove(session) => PreservedRemove(s, e);
      case RemovalReleased(r) => PreservedRemovalReleased(s, e);
      case RemovalClosed(r) => PreservedRemovalClosed(s, e);
      case BeginClosing => PreservedBeginClosing(s, e);
      case Close => PreservedClose(s, e);
      case CloseOperationsSettled => PreservedCloseOperationsSettled(s, e);
      case CloseAttachmentsSettled => PreservedCloseAttachmentsSettled(s, e);
      case CloseHandlesSettled(failed) => PreservedCloseHandlesSettled(s, e);
    }
  }
}
