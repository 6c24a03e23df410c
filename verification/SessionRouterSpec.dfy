/** The session router as a state machine. One step is one synchronous stretch of code between two
    awaits, or one outcome the environment delivers; any enabled step may come next. */
module SessionRouterSpec {
  import opened Wrappers

  // Identities are positions in the tables of `Router`: a new object is appended, so no identity is
  // ever given out twice.
  type ClientId = nat
  type SessionId = nat
  type HandleId = nat
  type AttachmentId = nat
  type OperationId = nat
  type OpenId = nat
  type RemovalId = nat

  datatype Acquisition = InFlight | Leased | Refused

  datatype ReleasePhase = NotStarted | Draining | AwaitingLease | Releasing | Publishing | Settled

  /** One memoized run of `releaseAttachment`. `starter` is the queue operation that started it, if any;
      `waiting` are the calls it waits for. */
  datatype Release = Release(phase: ReleasePhase, waiting: set<OperationId>, publish: bool,
                             starter: Option<OperationId>, ok: bool)

  datatype Attachment = Attachment(client: ClientId, handle: HandleId, opener: OperationId,
                                   calls: set<OperationId>, acquiring: Acquisition, lease: bool,
                                   release: Release, releaseCalls: nat)
  {
    predicate Cleared() {
      release.phase == Publishing || release.phase == Settled
    }
  }

  /** A session handle together with the router's `HostedSession` for it. */
  datatype Handle = Handle(id: SessionId, attachments: set<AttachmentId>, closed: bool, terminated: bool)
  {
    predicate Live() {
      !closed && !terminated
    }
  }

  datatype OpenPhase =
    | Resolving
    | Opening(metadata: SessionId)
    | ClosingAcquired(handle: HandleId)
    | Opened(handle: HandleId)
    | OpenFailed

  datatype Open = Open(session: SessionId, phase: OpenPhase)
  {
    predicate Done() {
      phase.Opened? || phase.OpenFailed?
    }
  }

  datatype Kind =
    | Attach(session: SessionId)
    | Detach
    | Disconnect
    | Call(session: SessionId, target: AttachmentId)
  {
    predicate Leaves() {
      Detach? || Disconnect?
    }
  }

  datatype Step =
    | Queued
    | AwaitOpen(open: OpenId, owner: bool, current: Option<AttachmentId>)
    | AwaitHosted(hosted: Option<HandleId>, current: Option<AttachmentId>)
    | AwaitCurrent(handle: HandleId, released: AttachmentId)
    | AwaitLease(attachment: AttachmentId)
    | AwaitRelease(released: AttachmentId)
    | AwaitPublish
    | Finished

  /** One operation of a client's promise chain; it may start once `previous` has finished. */
  datatype Operation = Operation(client: ClientId, kind: Kind, previous: Option<OperationId>, step: Step)

  datatype RemovalStep = AwaitReleases(attachments: set<AttachmentId>) | AwaitClose | Removed

  datatype Removal = Removal(session: SessionId, handle: HandleId, step: RemovalStep)

  datatype Shutdown =
    | NotRequested
    | AwaitOperations(operations: set<OperationId>, opens: set<OpenId>)
    | AwaitAttachments(attachments: set<AttachmentId>)
    | AwaitHandles(handles: set<HandleId>)
    | Complete

  /** One invocation of `lease.invokeService`: the call, the attachment it named, the one that got it. */
  datatype Delivery = Delivery(call: OperationId, target: AttachmentId, receiver: AttachmentId)

  /** One call of `publishAttachment`: what the client is told its attachment is. */
  datatype Notice = Notice(client: ClientId, attachment: Option<AttachmentId>)

  datatype Router = Router(
    hostedSessions: map<SessionId, HandleId>,
    openingSessions: map<SessionId, OpenId>,
    attachmentsByClient: map<ClientId, AttachmentId>,
    disconnectedClients: set<ClientId>,
    clientOperations: map<ClientId, OperationId>,
    closing: bool,
    shutdown: Shutdown,
    handles: seq<Handle>,
    attachments: seq<Attachment>,
    operations: seq<Operation>,
    opens: seq<Open>,
    removals: seq<Removal>,
    deliveries: seq<Delivery>,
    notices: seq<Notice>)

  function Initial(): Router {
    Router(map[], map[], map[], {}, map[], false, NotRequested, [], [], [], [], [], [], [])
  }

  function Lookup<K, V>(m: map<K, V>, k: K): Option<V> {
    if k in m then Some(m[k]) else None
  }

  /** `if (m.get(k) === v) m.delete(k)` */
  function DeleteIf<K, V(==)>(m: map<K, V>, k: K, v: V): map<K, V> {
    if k in m && m[k] == v then m - {k} else m
  }

  // ---- pieces of steps -------------------------------------------------------------------------

  function At(s: Router, o: OperationId, step: Step): Router
    requires o < |s.operations|
  {
    s.(operations := s.operations[o := s.operations[o].(step := step)])
  }

  /** The operation settles: its tail leaves the chain map if it is still the last one. */
  function Finish(s: Router, o: OperationId): Router
    requires o < |s.operations|
  {
    var op := s.operations[o];
    At(s, o, Finished).(
      clientOperations := DeleteIf(s.clientOperations, op.client, o),
      disconnectedClients := if op.kind.Disconnect? then s.disconnectedClients - {op.client} else s.disconnectedClients)
  }

  function Begun(a: Attachment, publish: bool, starter: Option<OperationId>): Attachment {
    if a.release.phase == NotStarted
    then a.(release := Release(Draining, a.calls, publish, starter, true))
    else a
  }

  function StartRelease(s: Router, a: AttachmentId, publish: bool, starter: Option<OperationId>): Router
    requires a < |s.attachments|
  {
    s.(attachments := s.attachments[a := Begun(s.attachments[a], publish, starter)])
  }

  function StartReleases(s: Router, targets: set<AttachmentId>): Router {
    s.(attachments := seq(|s.attachments|, i requires 0 <= i < |s.attachments| =>
      if i in targets then Begun(s.attachments[i], true, None) else s.attachments[i]))
  }

  function DropFromHandle(s: Router, a: AttachmentId): Router
    requires a < |s.attachments| && s.attachments[a].handle < |s.handles|
  {
    var h := s.attachments[a].handle;
    s.(handles := s.handles[h := s.handles[h].(attachments := s.handles[h].attachments - {a})])
  }

  function SetRelease(s: Router, a: AttachmentId, phase: ReleasePhase, ok: bool): Router
    requires a < |s.attachments|
  {
    s.(attachments := s.attachments[a :=
      s.attachments[a].(release := s.attachments[a].release.(phase := phase, ok := ok))])
  }

  /** `clearAttachment` */
  function Clear(s: Router, a: AttachmentId, ok: bool): Router
    requires a < |s.attachments| && s.attachments[a].handle < |s.handles|
  {
    var att := s.attachments[a];
    var mapped := Lookup(s.attachmentsByClient, att.client) == Some(a);
    var phase := if mapped && att.release.publish then Publishing else Settled;
    DropFromHandle(SetRelease(s, a, phase, ok), a).(
      attachmentsByClient := DeleteIf(s.attachmentsByClient, att.client, a),
      notices := if phase == Publishing then s.notices + [Notice(att.client, None)] else s.notices)
  }

  function CallRelease(s: Router, a: AttachmentId): Router
    requires a < |s.attachments|
  {
    var att := s.attachments[a];
    s.(attachments := s.attachments[a :=
      att.(release := att.release.(phase := Releasing), releaseCalls := att.releaseCalls + 1)])
  }

  function CreateAttachment(s: Router, o: OperationId, h: HandleId): Router
    requires o < |s.operations| && h < |s.handles|
  {
    var a := |s.attachments|;
    var idle := Release(NotStarted, {}, false, None, true);
    At(s, o, AwaitLease(a)).(
      attachments := s.attachments + [Attachment(s.operations[o].client, h, o, {}, InFlight, false, idle, 0)],
      handles := s.handles[h := s.handles[h].(attachments := s.handles[h].attachments + {a})])
  }

  function AllAttachments(s: Router): set<AttachmentId> {
    set a | 0 <= a < |s.attachments|
            && s.attachments[a].handle in s.hostedSessions.Values
            && s.attachments[a].handle < |s.handles|
            && a in s.handles[s.attachments[a].handle].attachments
  }

  // ---- events ----------------------------------------------------------------------------------

  datatype Event =
    | Enqueue(client: ClientId, kind: Kind)
    | Start(op: OperationId)
    | AcquireReturns(op: OperationId)
    | AttachResumes(op: OperationId)
    | CurrentReleased(op: OperationId)
    | LeaseArrives(op: OperationId)
    // `publishAttachment` for a new attachment settles, well or badly: the attach is over either way
    | AttachPublished(op: OperationId)
    | ReleaseAwaited(op: OperationId)
    | LeaseSettles(att: AttachmentId, ok: bool)
    | CallSettles(att: AttachmentId, call: OperationId)
    | Drained(att: AttachmentId)
    | LeaseForRelease(att: AttachmentId)
    | ReleaseSettles(att: AttachmentId, ok: bool)
    | ClearPublished(att: AttachmentId, ok: bool)
    | SessionResolves(open: OpenId, metadata: Option<SessionId>)
    | HandleOpens(open: OpenId, ok: bool)
    | AcquiredClosed(open: OpenId)
    | Terminates(handle: HandleId)
    | Invalidate(handle: HandleId)
    | Remove(session: SessionId)
    | RemovalReleased(removal: RemovalId)
    | RemovalClosed(removal: RemovalId)
    | BeginClosing
    | Close
    | CloseOperationsSettled
    | CloseAttachmentsSettled
    | CloseHandlesSettled(failed: set<HandleId>)

  predicate AllSettled(s: Router, targets: set<AttachmentId>) {
    forall a :: a in targets && a < |s.attachments| ==> s.attachments[a].release.phase == Settled
  }

  predicate Enabled(s: Router, e: Event) {
    match e
    case Enqueue(_, _) => true
    case Start(o) =>
      && o < |s.operations| && s.operations[o].step.Queued?
      && (s.operations[o].previous.None?
          || (s.operations[o].previous.value < |s.operations|
              && s.operations[s.operations[o].previous.value].step.Finished?))
    case AcquireReturns(o) =>
      && o < |s.operations| && s.operations[o].step.AwaitOpen?
      && s.operations[o].step.open < |s.opens| && s.opens[s.operations[o].step.open].Done()
    case AttachResumes(o) =>
      o < |s.operations| && s.operations[o].step.AwaitHosted?
    case CurrentReleased(o) =>
      && o < |s.operations| && s.operations[o].step.AwaitCurrent?
      && s.operations[o].step.released < |s.attachments|
      && s.attachments[s.operations[o].step.released].release.phase == Settled
    case LeaseArrives(o) =>
      && o < |s.operations| && s.operations[o].step.AwaitLease?
      && s.operations[o].step.attachment < |s.attachments|
      && !s.attachments[s.operations[o].step.attachment].acquiring.InFlight?
    case AttachPublished(o) =>
      o < |s.operations| && s.operations[o].step.AwaitPublish?
    case ReleaseAwaited(o) =>
      && o < |s.operations| && s.operations[o].step.AwaitRelease?
      && s.operations[o].step.released < |s.attachments|
      && s.attachments[s.operations[o].step.released].release.phase == Settled
    case LeaseSettles(a, _) =>
      a < |s.attachments| && s.attachments[a].acquiring.InFlight?
    case CallSettles(a, call) =>
      a < |s.attachments| && call in s.attachments[a].calls
    case Drained(a) =>
      && a < |s.attachments| && s.attachments[a].release.phase == Draining
      && s.attachments[a].release.waiting !! s.attachments[a].calls
    case LeaseForRelease(a) =>
      && a < |s.attachments| && s.attachments[a].release.phase == AwaitingLease
      && !s.attachments[a].acquiring.InFlight?
    case ReleaseSettles(a, _) =>
      a < |s.attachments| && s.attachments[a].release.phase == Releasing
    case ClearPublished(a, _) =>
      a < |s.attachments| && s.attachments[a].release.phase == Publishing
    case SessionResolves(n, _) =>
      n < |s.opens| && s.opens[n].phase.Resolving?
    case HandleOpens(n, _) =>
      n < |s.opens| && s.opens[n].phase.Opening?
    case AcquiredClosed(n) =>
      n < |s.opens| && s.opens[n].phase.ClosingAcquired?
    case Terminates(h) =>
      h < |s.handles|
    case Invalidate(h) =>
      h < |s.handles| && s.handles[h].terminated
    case Remove(_) => true
    case RemovalReleased(r) =>
      && r < |s.removals| && s.removals[r].step.AwaitReleases?
      && AllSettled(s, s.removals[r].step.attachments)
    case RemovalClosed(r) =>
      r < |s.removals| && s.removals[r].step.AwaitClose?
    case BeginClosing => true
    case Close =>
      s.closing && s.shutdown.NotRequested?
    case CloseOperationsSettled =>
      && s.shutdown.AwaitOperations?
      && (forall o :: o in s.shutdown.operations && o < |s.operations| ==> s.operations[o].step.Finished?)
      && (forall n :: n in s.shutdown.opens && n < |s.opens| ==> s.opens[n].Done())
    case CloseAttachmentsSettled =>
      s.shutdown.AwaitAttachments? && AllSettled(s, s.shutdown.attachments)
    case CloseHandlesSettled(_) =>
      s.shutdown.AwaitHandles?
  }

  function Add(s: Router, client: ClientId, kind: Kind): Router {
    var o := |s.operations|;
    s.(operations := s.operations + [Operation(client, kind, Lookup(s.clientOperations, client), Queued)],
       clientOperations := s.clientOperations[client := o],
       disconnectedClients := if kind.Disconnect? then s.disconnectedClients + {client} else s.disconnectedClients)
  }

  predicate Barred(s: Router, client: ClientId) {
    s.closing || client in s.disconnectedClients
  }

  /** `acquire`: share the hosted session, share the open in flight, or start one. */
  function Acquire(s: Router, o: OperationId, session: SessionId, current: Option<AttachmentId>): Router
    requires o < |s.operations|
  {
    if session in s.hostedSessions then At(s, o, AwaitHosted(Some(s.hostedSessions[session]), current))
    else if session in s.openingSessions then At(s, o, AwaitOpen(s.openingSessions[session], false, current))
    else
      At(s, o, AwaitOpen(|s.opens|, true, current)).(
        opens := s.opens + [Open(session, Resolving)],
        openingSessions := s.openingSessions[session := |s.opens|])
  }

  /** Every identity in a table names an entry. */
  predicate Refs(s: Router) {
    && AttachmentRefs(s.attachments, |s.handles|)
    && ValuesBelow(s.hostedSessions, |s.handles|)
    && ValuesBelow(s.attachmentsByClient, |s.attachments|)
    && ValuesBelow(s.openingSessions, |s.opens|)
    && OperationRefs(s.operations, |s.opens|, |s.handles|, |s.attachments|)
    && OpenRefs(s.opens, |s.handles|)
    && RemovalRefs(s.removals, |s.handles|)
  }

  predicate AttachmentRefs(attachments: seq<Attachment>, handles: nat) {
    forall a {:trigger attachments[a]} :: 0 <= a < |attachments| ==> attachments[a].handle < handles
  }

  predicate ValuesBelow(m: map<nat, nat>, bound: nat) {
    forall k {:trigger m[k]} :: k in m ==> m[k] < bound
  }

  predicate OperationRefs(operations: seq<Operation>, opens: nat, handles: nat, attachments: nat) {
    forall o {:trigger operations[o]} ::
      0 <= o < |operations| ==> StepRefs(operations[o].step, opens, handles, attachments)
  }

  predicate StepRefs(step: Step, opens: nat, handles: nat, attachments: nat) {
    match step
    case AwaitOpen(n, _, current) => n < opens && OptionBelow(current, attachments)
    case AwaitHosted(h, current) => OptionBelow(h, handles) && OptionBelow(current, attachments)
    case AwaitCurrent(h, a) => h < handles && a < attachments
    case AwaitLease(a) => a < attachments
    case AwaitRelease(a) => a < attachments
    case _ => true
  }

  predicate OpenRefs(opens: seq<Open>, handles: nat) {
    forall n {:trigger opens[n]} :: 0 <= n < |opens| && opens[n].phase.Opened? ==> opens[n].phase.handle < handles
  }

  predicate RemovalRefs(removals: seq<Removal>, handles: nat) {
    forall r {:trigger removals[r]} :: 0 <= r < |removals| ==> removals[r].handle < handles
  }

  predicate OptionBelow(o: Option<nat>, bound: nat) {
    o.None? || o.value < bound
  }

  function StartOperation(s: Router, o: OperationId): Router
    requires Refs(s) && o < |s.operations|
  {
    var op := s.operations[o];
    var current := Lookup(s.attachmentsByClient, op.client);
    match op.kind
    case Attach(session) =>
      if Barred(s, op.client) then Finish(s, o)
      else if current.Some? && s.handles[s.attachments[current.value].handle].id == session then Finish(s, o)
      else Acquire(s, o, session, current)
    case Detach =>
      if current.None? then Finish(s, o)
      else At(StartRelease(s, current.value, true, Some(o)), o, AwaitRelease(current.value))
    case Disconnect =>
      if current.None? then Finish(s, o)
      else At(StartRelease(s, current.value, false, Some(o)), o, AwaitRelease(current.value))
    case Call(session, target) =>
      if Barred(s, op.client) || current != Some(target)
         || s.handles[s.attachments[target].handle].id != session then Finish(s, o)
      else
        var att := s.attachments[target];
        Finish(s, o).(
          attachments := s.attachments[target := att.(calls := att.calls + {o})],
          deliveries := s.deliveries + [Delivery(o, target, current.value)])
  }

  function ResumeAttach(s: Router, o: OperationId): Router
    requires Refs(s) && o < |s.operations| && s.operations[o].step.AwaitHosted?
  {
    var step := s.operations[o].step;
    if step.hosted.None? || Barred(s, s.operations[o].client) then Finish(s, o)
    else if step.current.Some? then
      At(StartRelease(s, step.current.value, false, Some(o)), o, AwaitCurrent(step.hosted.value, step.current.value))
    else CreateAttachment(s, o, step.hosted.value)
  }

  function ArriveLease(s: Router, o: OperationId): Router
    requires Refs(s) && o < |s.operations| && s.operations[o].step.AwaitLease?
  {
    var a := s.operations[o].step.attachment;
    var att := s.attachments[a];
    var h := att.handle;
    if !att.acquiring.Leased? then Finish(DropFromHandle(s, a), o)
    else
      var s1 := s.(attachments := s.attachments[a := att.(lease := true)]);
      if Lookup(s.hostedSessions, s.handles[h].id) != Some(h) || a !in s.handles[h].attachments
         || Barred(s, att.client) then
        At(StartRelease(s1, a, true, Some(o)), o, AwaitRelease(a))
      else
        At(s1, o, AwaitPublish).(attachmentsByClient := s.attachmentsByClient[att.client := a],
                                 notices := s.notices + [Notice(att.client, Some(a))])
  }

  function OpenHandle(s: Router, n: OpenId, ok: bool): Router
    requires n < |s.opens| && s.opens[n].phase.Opening?
  {
    var metadata := s.opens[n].phase.metadata;
    var h := |s.handles|;
    if !ok then s.(opens := s.opens[n := s.opens[n].(phase := OpenFailed)])
    else if s.closing then
      s.(handles := s.handles + [Handle(metadata, {}, true, false)],
         opens := s.opens[n := s.opens[n].(phase := ClosingAcquired(h))])
    else
      s.(handles := s.handles + [Handle(metadata, {}, false, false)],
         hostedSessions := s.hostedSessions[metadata := h],
         opens := s.opens[n := s.opens[n].(phase := Opened(h))])
  }

  function Next(s: Router, e: Event): Router
    requires Refs(s) && Enabled(s, e)
  {
    match e
    case Enqueue(client, kind) =>
      if kind.Attach? && s.closing then s else Add(s, client, kind)
    case Start(o) => StartOperation(s, o)
    case AcquireReturns(o) =>
      var step := s.operations[o].step;
      var open := s.opens[step.open];
      var hosted := if open.phase.Opened? then Some(open.phase.handle) else None;
      At(s, o, AwaitHosted(hosted, step.current)).(
        openingSessions := if step.owner then DeleteIf(s.openingSessions, open.session, step.open) else s.openingSessions)
    case AttachResumes(o) => ResumeAttach(s, o)
    case CurrentReleased(o) =>
      if s.attachments[s.operations[o].step.released].release.ok
      then CreateAttachment(s, o, s.operations[o].step.handle)
      else Finish(s, o)
    case LeaseArrives(o) => ArriveLease(s, o)
    case AttachPublished(o) => Finish(s, o)
    case ReleaseAwaited(o) => Finish(s, o)
    case LeaseSettles(a, ok) =>
      s.(attachments := s.attachments[a := s.attachments[a].(acquiring := if ok then Leased else Refused)])
    case CallSettles(a, call) =>
      s.(attachments := s.attachments[a := s.attachments[a].(calls := s.attachments[a].calls - {call})])
    case Drained(a) =>
      if s.attachments[a].lease then CallRelease(s, a) else SetRelease(s, a, AwaitingLease, true)
    case LeaseForRelease(a) =>
      if s.attachments[a].acquiring.Leased? then CallRelease(s, a) else Clear(s, a, false)
    case ReleaseSettles(a, ok) => Clear(s, a, ok)
    case ClearPublished(a, ok) => SetRelease(s, a, Settled, s.attachments[a].release.ok && ok)
    case SessionResolves(n, metadata) =>
      s.(opens := s.opens[n := s.opens[n].(phase :=
        if metadata.None? then OpenFailed else Opening(metadata.value))])
    case HandleOpens(n, ok) => OpenHandle(s, n, ok)
    case AcquiredClosed(n) =>
      s.(opens := s.opens[n := s.opens[n].(phase := OpenFailed)])
    case Terminates(h) =>
      s.(handles := s.handles[h := s.handles[h].(terminated := true)])
    case Invalidate(h) =>
      if Lookup(s.hostedSessions, s.handles[h].id) != Some(h) then s
      else StartReleases(s.(hostedSessions := s.hostedSessions - {s.handles[h].id}), s.handles[h].attachments)
    case Remove(session) =>
      if s.closing || session !in s.hostedSessions then s
      else
        var h := s.hostedSessions[session];
        StartReleases(s, s.handles[h].attachments).(
          removals := s.removals + [Removal(session, h, AwaitReleases(s.handles[h].attachments))])
    case RemovalReleased(r) =>
      var h := s.removals[r].handle;
      s.(handles := s.handles[h := s.handles[h].(closed := true)],
         removals := s.removals[r := s.removals[r].(step := AwaitClose)])
    case RemovalClosed(r) =>
      s.(hostedSessions := DeleteIf(s.hostedSessions, s.removals[r].session, s.removals[r].handle),
         removals := s.removals[r := s.removals[r].(step := Removed)])
    case BeginClosing => s.(closing := true)
    case Close =>
      s.(shutdown := AwaitOperations(s.clientOperations.Values, s.openingSessions.Values))
    case CloseOperationsSettled =>
      StartReleases(s, AllAttachments(s)).(shutdown := AwaitAttachments(AllAttachments(s)))
    case CloseAttachmentsSettled =>
      s.(handles := seq(|s.handles|, h requires 0 <= h < |s.handles| =>
           if h in s.hostedSessions.Values then s.handles[h].(closed := true) else s.handles[h]),
         shutdown := AwaitHandles(s.hostedSessions.Values))
    case CloseHandlesSettled(failed) =>
      s.(hostedSessions := map sid | sid in s.hostedSessions
           && (s.hostedSessions[sid] !in s.shutdown.handles || s.hostedSessions[sid] in failed) :: s.hostedSessions[sid],
         attachmentsByClient := map[],
         clientOperations := map[],
         shutdown := Complete)
  }
}
