/** Which events stop a refresh, and what becomes of its publications. */
module CatalogHistory {
  import opened Wrappers
  import opened CatalogSpec
  import opened CatalogProof
  import opened CatalogTheorems

  // ---- which events supersede ------------------------------------------------------------------

  /** Replacing, deleting or clearing the provider, or beginning another refresh of it. */
  predicate Supersedes(e: Event, p: ProviderId) {
    match e
    case SetProvider(q) => q == p
    case DeleteProvider(q) => q == p
    case ClearProviders(order) => p in order
    case Begins(q) => q == p
    case _ => false
  }

  function Supersessions(events: seq<Event>, p: ProviderId): nat
    decreases |events|
  {
    if events == [] then 0 else (if Supersedes(events[0], p) then 1 else 0) + Supersessions(events[1..], p)
  }

  lemma {:induction false} NoneSupersedes(events: seq<Event>, p: ProviderId)
    ensures Supersessions(events, p) == 0 <==> forall i :: 0 <= i < |events| ==> !Supersedes(events[i], p)
    decreases |events|
  {
    if events != [] {
      NoneSupersedes(events[1..], p);
      assert events == [events[0]] + events[1..];
    }
  }

  lemma {:induction false} SupersedeAllGeneration(s: Catalog, ps: seq<ProviderId>, p: ProviderId)
    requires RefreshInv(s.refreshes, s.generations, s.controllers)
    requires forall i, j :: 0 <= i < j < |ps| ==> ps[i] != ps[j]
    ensures Generation(SupersedeAll(s, ps), p) == Generation(s, p) + if p in ps then 1 else 0
    decreases |ps|
  {
    if ps != [] {
      SupersedeFacts(s, ps[0]);
      SupersedeKeepsRefreshes(s, ps[0]);
      hide Supersede, RefreshInv;
      SupersedeAllGeneration(Supersede(s, ps[0]), ps[1..], p);
      assert p in ps <==> p == ps[0] || p in ps[1..];
    }
  }

  lemma SupersedingGeneration(s: Catalog, e: Event, p: ProviderId)
    requires Inv(s) && Enabled(s, e) && (e.SetProvider? || e.DeleteProvider? || e.ClearProviders? || e.Begins?)
    ensures Generation(Next(s, e), p) == Generation(s, p) + if Supersedes(e, p) then 1 else 0
  {
    RefreshInvHolds(s);
    if e.ClearProviders? {
      SupersedeAllGeneration(s, e.order, p);
    } else {
      SupersedeFacts(s, e.provider);
    }
    hide Inv, RefreshInv, SupersedeAll, Supersede;
  }

  lemma ConcludeLeaves(s: Catalog, n: PublicationId)
    requires n < |s.publications| && s.publications[n].refresh < |s.refreshes|
    ensures var t := Conclude(s, n);
            t == s.(publications := t.publications, memory := t.memory, updates := t.updates)
  {
    hide MayGoOn;
  }

  lemma ProceedLeaves(s: Catalog, n: PublicationId)
    requires n < |s.publications| && s.publications[n].refresh < |s.refreshes|
    ensures var t := Proceed(s, n);
            t == s.(publications := t.publications, memory := t.memory, updates := t.updates)
  {
    ConcludeLeaves(s, n);
    hide MayGoOn, Conclude;
  }

  /** Publishing leaves the providers and the generations alone. */
  lemma OtherLeaves(s: Catalog, e: Event)
    requires Enabled(s, e) && !(e.SetProvider? || e.DeleteProvider? || e.ClearProviders? || e.Begins?)
    ensures Next(s, e).generations == s.generations && Next(s, e).providers == s.providers
  {
    if e.Proceeds? {
      ProceedLeaves(s, e.publication);
    } else if e.StoreReturns? {
      ConcludeLeaves(s, e.publication);
    }
    hide Supersede, SupersedeAll, BeginRefresh, Proceed, Conclude, PreviousSettled, Lists;
  }

  lemma StepGeneration(s: Catalog, e: Event, p: ProviderId)
    requires Inv(s) && Enabled(s, e)
    ensures Generation(Next(s, e), p) == Generation(s, p) + if Supersedes(e, p) then 1 else 0
  {
    hide Inv, Enabled, Next;
    if e.SetProvider? || e.DeleteProvider? || e.ClearProviders? || e.Begins? {
      SupersedingGeneration(s, e, p);
    } else {
      OtherLeaves(s, e);
    }
  }

  /** A provider's generation is the number of times it was superseded. */
  lemma {:induction false} GenerationCounts(s: Catalog, events: seq<Event>, t: Catalog, p: ProviderId)
    requires Inv(s) && Execute(s, events) == Some(t)
    ensures Generation(t, p) == Generation(s, p) + Supersessions(events, p)
    decreases |events|
  {
    hide Inv, Enabled, Next, Generation;
    if events != [] {
      Preserved(s, events[0]);
      StepGeneration(s, events[0], p);
      GenerationCounts(Next(s, events[0]), events[1..], t, p);
    }
  }

  // ---- which refreshes are current -------------------------------------------------------------

  /** The refresh may still publish. */
  predicate Current(s: Catalog, r: RefreshId)
    requires r < |s.refreshes|
  {
    !s.refreshes[r].Cancelled() && s.refreshes[r].generation == Generation(s, s.refreshes[r].provider)
  }

  /** The event supersedes the refresh's provider, or the refresh's caller gives up. */
  predicate Stops(e: Event, p: ProviderId, r: RefreshId) {
    Supersedes(e, p) || e == CallerAborts(r)
  }

  lemma SupersedeSpares(s: Catalog, p: ProviderId, r: RefreshId)
    requires RefreshInv(s.refreshes, s.generations, s.controllers) && r < |s.refreshes| && s.refreshes[r].provider != p
    ensures r < |Supersede(s, p).refreshes| && Supersede(s, p).refreshes[r] == s.refreshes[r]
  {
  }

  lemma {:induction false} SupersedeAllSpares(s: Catalog, ps: seq<ProviderId>, r: RefreshId)
    requires RefreshInv(s.refreshes, s.generations, s.controllers) && r < |s.refreshes| && s.refreshes[r].provider !in ps
    ensures r < |SupersedeAll(s, ps).refreshes| && SupersedeAll(s, ps).refreshes[r] == s.refreshes[r]
    decreases |ps|
  {
    if ps != [] {
      SupersedeSpares(s, ps[0], r);
      SupersedeKeepsRefreshes(s, ps[0]);
      hide Supersede, RefreshInv;
      SupersedeAllSpares(Supersede(s, ps[0]), ps[1..], r);
    }
  }

  lemma OtherStepSpares(s: Catalog, e: Event, r: RefreshId)
    requires Inv(s) && Enabled(s, e) && r < |s.refreshes| && !Stops(e, s.refreshes[r].provider, r)
    ensures r < |Next(s, e).refreshes|
    ensures Next(s, e).refreshes[r] == s.refreshes[r].(ended := s.refreshes[r].ended || e == Ends(r))
  {
    hide Inv, RefreshInv, SupersedeAll, Supersede, Proceed, Conclude, PreviousSettled, Lists;
    RefreshInvHolds(s);
    match e {
      case ClearProviders(order) => SupersedeAllSpares(s, order, r);
      case SetProvider(p) => SupersedeSpares(s, p, r);
      case DeleteProvider(p) => SupersedeSpares(s, p, r);
      case Begins(p) => SupersedeSpares(s, p, r);
      case Proceeds(n) => ProceedLeaves(s, n);
      case StoreReturns(n, _) => ConcludeLeaves(s, n);
      case _ =>
    }
  }

  lemma StepCurrentIff(s: Catalog, e: Event, r: RefreshId)
    requires Inv(s) && Enabled(s, e) && r < |s.refreshes|
    ensures r < |Next(s, e).refreshes| && Next(s, e).refreshes[r].provider == s.refreshes[r].provider
    ensures Current(Next(s, e), r) <==> Current(s, r) && !Stops(e, s.refreshes[r].provider, r)
  {
    var p := s.refreshes[r].provider;
    StepGeneration(s, e, p);
    StepIsLater(s, e);
    RefreshInvHolds(s);
    assert RefreshSound(r, s.refreshes[r], s.generations, s.controllers);
    if !Stops(e, p, r) {
      OtherStepSpares(s, e, r);
    } else if e == CallerAborts(r) {
      assert Next(s, e).refreshes[r].callerAborted;
    }
    hide Inv, RefreshInv, Enabled, Next;
  }

  /** A refresh stays current exactly as long as nothing supersedes its provider and its caller does not
      give up. */
  lemma {:induction false} CurrentIff(s: Catalog, events: seq<Event>, t: Catalog, r: RefreshId)
    requires Inv(s) && Execute(s, events) == Some(t) && r < |s.refreshes|
    ensures r < |t.refreshes| && t.refreshes[r].provider == s.refreshes[r].provider
    ensures Current(t, r) <==>
              Current(s, r) && forall i :: 0 <= i < |events| ==> !Stops(events[i], s.refreshes[r].provider, r)
    decreases |events|
  {
    hide Inv, Enabled, Next, Current, Stops;
    if events != [] {
      Preserved(s, events[0]);
      StepCurrentIff(s, events[0], r);
      CurrentIff(Next(s, events[0]), events[1..], t, r);
      assert events == [events[0]] + events[1..];
    }
  }

  lemma BegunIsCurrent(s: Catalog, p: ProviderId)
    requires Inv(s) && Enabled(s, Begins(p))
    ensures var t, r := Next(s, Begins(p)), |s.refreshes|;
            |t.refreshes| == r + 1 && t.refreshes[r].provider == p && Current(t, r)
  {
    RefreshInvHolds(s);
    SupersedeFacts(s, p);
    hide Inv, RefreshInv, Supersede;
  }

  /** A refresh that was begun is current exactly as long as nothing stops it. */
  lemma BegunIsCurrentIff(before: seq<Event>, s: Catalog, p: ProviderId, after: seq<Event>, t: Catalog)
    requires Reaches(before, s) && Enabled(s, Begins(p)) && Execute(Next(s, Begins(p)), after) == Some(t)
    ensures |s.refreshes| < |t.refreshes|
    ensures Current(t, |s.refreshes|) <==> forall i :: 0 <= i < |after| ==> !Stops(after[i], p, |s.refreshes|)
  {
    ReachedKeepsInv(before, s);
    Preserved(s, Begins(p));
    BegunIsCurrent(s, p);
    hide Inv, Next, Enabled, Current, Stops;
    CurrentIff(Next(s, Begins(p)), after, t, |s.refreshes|);
  }

  // ---- superseding silences --------------------------------------------------------------------

  /** After a provider was replaced, deleted or cleared, or another refresh of it begun, no refresh of it
      that was there before changes the memory any more; and if one was under way it is aborted. */
  lemma SupersedingSilences(before: seq<Event>, s: Catalog, e: Event, after: seq<Event>, t: Catalog, r: RefreshId, i: nat)
    requires Reaches(before, s) && Enabled(s, e) && Execute(Next(s, e), after) == Some(t)
    requires r < |s.refreshes| && Supersedes(e, s.refreshes[r].provider)
    requires |s.updates| <= i < |t.updates|
    ensures t.updates[i].publication < |t.publications| && t.publications[t.updates[i].publication].refresh != r
  {
    ReachedKeepsInv(before, s);
    Preserved(s, e);
    SupersedingIsLater(s, e);
    StepGeneration(s, e, s.refreshes[r].provider);
    RefreshInvHolds(s);
    assert RefreshSound(r, s.refreshes[r], s.generations, s.controllers);
    hide Inv, Enabled, Next, RefreshInv;
    ReachedBy(before, s, e);
    SupersededStaysSilent(before + [e], Next(s, e), after, t, r, i);
  }

  lemma {:induction false} ExecuteAppend(s: Catalog, events: seq<Event>, t: Catalog, e: Event)
    requires Execute(s, events) == Some(t) && Enabled(t, e)
    ensures Execute(s, events + [e]) == Some(Next(t, e))
    decreases |events|
  {
    hide Enabled, Next;
    if events == [] {
      assert Execute(Next(s, e), [e][1..]) == Some(Next(t, e));
    } else {
      ExecuteAppend(Next(s, events[0]), events[1..], t, e);
      assert (events + [e])[1..] == events[1..] + [e];
    }
  }

  lemma ReachedBy(events: seq<Event>, s: Catalog, e: Event)
    requires Reaches(events, s) && Enabled(s, e)
    ensures Reaches(events + [e], Next(s, e))
  {
    hide Enabled, Next;
    ExecuteAppend(Initial(), events, s, e);
  }

  lemma SupersedeAborts(s: Catalog, p: ProviderId, r: RefreshId)
    requires RefreshInv(s.refreshes, s.generations, s.controllers) && r < |s.refreshes| && !s.refreshes[r].ended
    requires s.refreshes[r].provider == p || s.refreshes[r].aborted
    ensures r < |Supersede(s, p).refreshes| && Supersede(s, p).refreshes[r] == s.refreshes[r].(aborted := true)
  {
    assert RefreshSound(r, s.refreshes[r], s.generations, s.controllers);
  }

  lemma {:induction false} SupersedeAllAborts(s: Catalog, ps: seq<ProviderId>, r: RefreshId)
    requires RefreshInv(s.refreshes, s.generations, s.controllers) && r < |s.refreshes| && !s.refreshes[r].ended
    requires s.refreshes[r].provider in ps || s.refreshes[r].aborted
    ensures r < |SupersedeAll(s, ps).refreshes|
    ensures SupersedeAll(s, ps).refreshes[r] == s.refreshes[r].(aborted := true)
    decreases |ps|
  {
    if ps != [] {
      SupersedeKeepsRefreshes(s, ps[0]);
      if s.refreshes[r].provider == ps[0] || s.refreshes[r].aborted {
        SupersedeAborts(s, ps[0], r);
      } else {
        SupersedeSpares(s, ps[0], r);
      }
      hide Supersede, RefreshInv;
      SupersedeAllAborts(Supersede(s, ps[0]), ps[1..], r);
    }
  }

  /** A refresh that is superseded while it is under way has its signal aborted. */
  lemma SupersedingAborts(before: seq<Event>, s: Catalog, e: Event, r: RefreshId)
    requires Reaches(before, s) && Enabled(s, e)
    requires r < |s.refreshes| && Supersedes(e, s.refreshes[r].provider) && !s.refreshes[r].ended
    ensures r < |Next(s, e).refreshes| && Next(s, e).refreshes[r].aborted
  {
    ReachedKeepsInv(before, s);
    RefreshInvHolds(s);
    if e.ClearProviders? {
      SupersedeAllAborts(s, e.order, r);
    } else {
      SupersedeAborts(s, e.provider, r);
    }
    hide Inv, RefreshInv, Supersede, SupersedeAll;
  }

  lemma SupersedeSparesEnded(s: Catalog, p: ProviderId, r: RefreshId)
    requires RefreshInv(s.refreshes, s.generations, s.controllers) && r < |s.refreshes| && s.refreshes[r].ended
    ensures r < |Supersede(s, p).refreshes| && Supersede(s, p).refreshes[r] == s.refreshes[r]
  {
  }

  lemma {:induction false} SupersedeAllSparesEnded(s: Catalog, ps: seq<ProviderId>, r: RefreshId)
    requires RefreshInv(s.refreshes, s.generations, s.controllers) && r < |s.refreshes| && s.refreshes[r].ended
    ensures r < |SupersedeAll(s, ps).refreshes| && SupersedeAll(s, ps).refreshes[r] == s.refreshes[r]
    decreases |ps|
  {
    hide RefreshInv, Supersede;
    if ps != [] {
      SupersedeSparesEnded(s, ps[0], r);
      SupersedeKeepsRefreshes(s, ps[0]);
      SupersedeAllSparesEnded(Supersede(s, ps[0]), ps[1..], r);
    }
  }

  lemma StepSparesEnded(s: Catalog, e: Event, r: RefreshId)
    requires Inv(s) && Enabled(s, e) && r < |s.refreshes| && s.refreshes[r].ended
    ensures var t := Next(s, e);
            r < |t.refreshes| && t.refreshes[r].ended && t.refreshes[r].aborted == s.refreshes[r].aborted
  {
    hide Inv, RefreshInv, Supersede, SupersedeAll, MayGoOn;
    RefreshInvHolds(s);
    if e.ClearProviders? {
      SupersedeAllSparesEnded(s, e.order, r);
    } else if e.SetProvider? || e.DeleteProvider? || e.Begins? {
      SupersedeSparesEnded(s, e.provider, r);
    }
  }

  lemma {:induction false} RunSparesEnded(s: Catalog, events: seq<Event>, t: Catalog, r: RefreshId)
    requires Inv(s) && Execute(s, events) == Some(t) && r < |s.refreshes| && s.refreshes[r].ended
    ensures r < |t.refreshes| && t.refreshes[r].ended && t.refreshes[r].aborted == s.refreshes[r].aborted
    decreases |events|
  {
    hide Inv, Enabled, Next;
    if events != [] {
      Preserved(s, events[0]);
      StepSparesEnded(s, events[0], r);
      RunSparesEnded(Next(s, events[0]), events[1..], t, r);
    }
  }

  /** A refresh that is over is never aborted any more: superseding reaches only what is under way. */
  lemma EndedIsSpared(before: seq<Event>, s: Catalog, r: RefreshId, after: seq<Event>, t: Catalog)
    requires Reaches(before, s) && r < |s.refreshes| && s.refreshes[r].ended && Execute(s, after) == Some(t)
    ensures r < |t.refreshes| && t.refreshes[r].ended && t.refreshes[r].aborted == s.refreshes[r].aborted
  {
    ReachedKeepsInv(before, s);
    RunSparesEnded(s, after, t, r);
  }

  // ---- what becomes of publications ------------------------------------------------------------

  lemma MayGoOnIsCurrent(s: Catalog, n: PublicationId)
    requires Inv(s) && n < |s.publications|
    ensures s.publications[n].refresh < |s.refreshes|
    ensures MayGoOn(s, n) <==> Current(s, s.publications[n].refresh)
  {
    assert PublicationSound(n, s.publications[n], s.refreshes);
    assert RefreshSound(s.publications[n].refresh, s.refreshes[s.publications[n].refresh], s.generations, s.controllers);
  }

  lemma ConcludeRefuses(s: Catalog, m: PublicationId, n: PublicationId)
    requires Inv(s) && m < |s.publications| && n < |s.publications| && s.publications[m].refresh < |s.refreshes|
    requires s.publications[n].phase != Settled(false)
    ensures |Conclude(s, m).publications| == |Proceed(s, m).publications| == |s.publications|
    ensures s.publications[n].refresh < |s.refreshes|
    ensures Conclude(s, m).publications[n].phase == Settled(false) || Proceed(s, m).publications[n].phase == Settled(false) ==>
              n == m && !Current(s, s.publications[n].refresh)
  {
    hide Inv, Current, MayGoOn;
    MayGoOnIsCurrent(s, m);
    MayGoOnIsCurrent(s, n);
  }

  lemma PublishingRefuses(s: Catalog, e: Event, n: PublicationId)
    requires Inv(s) && Enabled(s, e) && (e.Proceeds? || e.StoreReturns?)
    ensures |Next(s, e).publications| == |s.publications|
    ensures n < |s.publications| && s.publications[n].phase != Settled(false) && Next(s, e).publications[n].phase == Settled(false) ==>
              s.publications[n].refresh < |s.refreshes| && (!Current(s, s.publications[n].refresh) || e == StoreReturns(n, false))
  {
    var m := e.publication;
    assert m < |s.publications| && s.publications[m].refresh < |s.refreshes|;
    if n < |s.publications| && s.publications[n].phase != Settled(false) {
      MayGoOnIsCurrent(s, n);
      ConcludeRefuses(s, m, n);
    }
    hide Inv, Current, MayGoOn, Conclude, Proceed;
    assert Next(s, e) == if e.Proceeds? then Proceed(s, m) else if e.ok then Conclude(s, m) else At(s, m, Settled(false));
    hide Next;
    ConcludeLeaves(s, m);
    ProceedLeaves(s, m);
  }

  lemma OtherRefusesNone(s: Catalog, e: Event, n: PublicationId)
    requires Enabled(s, e) && (e.CallerAborts? || e.Ends? || e.Publishes? || e.StoreApplies? || e.TailForgotten?)
    requires n < |Next(s, e).publications| && Next(s, e).publications[n].phase == Settled(false)
    ensures n < |s.publications| && s.publications[n].phase == Settled(false)
  {
  }

  /** A step that settles a publication unpublished. */
  lemma StepRefuses(s: Catalog, e: Event, n: PublicationId)
    requires Inv(s) && Enabled(s, e) && n < |Next(s, e).publications|
    requires Next(s, e).publications[n].phase == Settled(false)
    requires n < |s.publications| ==> s.publications[n].phase != Settled(false)
    ensures n < |s.publications| && s.publications[n].refresh < |s.refreshes|
    ensures !Current(s, s.publications[n].refresh) || e == StoreReturns(n, false)
  {
    hide Inv, Next, Enabled, Current;
    if e.SetProvider? || e.DeleteProvider? || e.ClearProviders? || e.Begins? {
      SupersedingLeaves(s, e);
    } else if e.Proceeds? || e.StoreReturns? {
      PublishingRefuses(s, e, n);
    } else {
      OtherRefusesNone(s, e, n);
    }
  }

  lemma {:induction false} SupersedeAllLeaves(s: Catalog, ps: seq<ProviderId>)
    ensures var t := SupersedeAll(s, ps);
            t == s.(generations := t.generations, controllers := t.controllers, refreshes := t.refreshes)
    decreases |ps|
  {
    if ps != [] {
      SupersedeAllLeaves(Supersede(s, ps[0]), ps[1..]);
    }
  }

  lemma SupersedingLeaves(s: Catalog, e: Event)
    requires Enabled(s, e) && (e.SetProvider? || e.DeleteProvider? || e.ClearProviders? || e.Begins?)
    ensures var t := Next(s, e);
            t == s.(providers := t.providers, generations := t.generations, controllers := t.controllers, refreshes := t.refreshes)
  {
    if e.ClearProviders? {
      SupersedeAllLeaves(s, e.order);
    }
  }

  lemma {:induction false} RunRefuses(s: Catalog, events: seq<Event>, t: Catalog, n: PublicationId)
    requires Inv(s) && Execute(s, events) == Some(t) && n < |t.publications| && t.publications[n].phase == Settled(false)
    requires n < |s.publications| ==> s.publications[n].phase != Settled(false)
    ensures t.publications[n].refresh < |t.refreshes|
    ensures !Current(t, t.publications[n].refresh) || StoreReturns(n, false) in events
    decreases |events|
  {
    hide Inv, Enabled, Next, Current, Stops;
    if events != [] {
      var u := Next(s, events[0]);
      Preserved(s, events[0]);
      if n < |u.publications| && u.publications[n].phase == Settled(false) {
        StepRefuses(s, events[0], n);
        StepIsLater(s, events[0]);
        RunIsLater(u, events[1..], t);
        assert t.publications[n].refresh == s.publications[n].refresh;
        CurrentIff(s, events, t, s.publications[n].refresh);
      } else {
        RunRefuses(u, events[1..], t, n);
      }
    }
  }

  /** A publication settles unpublished only if its refresh was stopped or its store operation failed. */
  lemma RefusedForAReason(events: seq<Event>, s: Catalog, n: PublicationId)
    requires Reaches(events, s) && n < |s.publications| && s.publications[n].phase == Settled(false)
    ensures s.publications[n].refresh < |s.refreshes|
    ensures !Current(s, s.publications[n].refresh) || StoreReturns(n, false) in events
  {
    InitialInv();
    hide Inv;
    RunRefuses(Initial(), events, s, n);
  }

  // ---- memory and store ------------------------------------------------------------------------

  /** What the last update of the provider wrote. */
  function LatestUpdate(updates: seq<Updated>, publications: seq<Publication>, p: ProviderId): Option<Entry>
    decreases |updates|
  {
    if updates == [] then None
    else
      var n := updates[|updates| - 1].publication;
      if n < |publications| && publications[n].provider == p then publications[n].update
      else LatestUpdate(updates[..|updates| - 1], publications, p)
  }

  /** What the last store operation of the provider left. */
  function LatestMutation(mutations: seq<Mutation>, publications: seq<Publication>, p: ProviderId): Option<Entry>
    decreases |mutations|
  {
    if mutations == [] then None
    else
      var n := mutations[|mutations| - 1].publication;
      if n < |publications| && publications[n].provider == p then Effect(publications[n].persist, None)
      else LatestMutation(mutations[..|mutations| - 1], publications, p)
  }

  function UpdatesBy(updates: seq<Updated>, n: PublicationId): nat
    decreases |updates|
  {
    if updates == [] then 0
    else (if updates[|updates| - 1].publication == n then 1 else 0) + UpdatesBy(updates[..|updates| - 1], n)
  }

  function MutationsBy(mutations: seq<Mutation>, n: PublicationId): nat
    decreases |mutations|
  {
    if mutations == [] then 0
    else (if mutations[|mutations| - 1].publication == n then 1 else 0) + MutationsBy(mutations[..|mutations| - 1], n)
  }

  /** A publication has made as many updates and store operations as its phase says. */
  predicate Accounted(pub: Publication, updates: nat, mutations: nat) {
    && updates == (if pub.phase == Settled(true) && pub.update.Some? then 1 else 0)
    && (pub.persist.Keep? ==> mutations == 0)
    && match pub.phase
       case Waiting => mutations == 0
       case Storing(applied) => mutations == if applied then 1 else 0
       case Settled(published) => mutations <= 1 && (published && !pub.persist.Keep? ==> mutations == 1)
  }

  predicate AllAccounted(s: Catalog) {
    && (forall i {:trigger s.updates[i]} :: 0 <= i < |s.updates| ==> s.updates[i].publication < |s.publications|)
    && (forall i {:trigger s.mutations[i]} :: 0 <= i < |s.mutations| ==> s.mutations[i].publication < |s.publications|)
    && (forall n {:trigger s.publications[n]} :: 0 <= n < |s.publications| ==>
          Accounted(s.publications[n], UpdatesBy(s.updates, n), MutationsBy(s.mutations, n)))
  }

  predicate Reflects(s: Catalog, p: ProviderId) {
    && Lookup(s.memory, p) == LatestUpdate(s.updates, s.publications, p)
    && Lookup(s.store, p) == LatestMutation(s.mutations, s.publications, p)
  }

  ghost predicate Kept(s: Catalog) {
    AllAccounted(s) && forall p {:trigger Reflects(s, p)} :: Reflects(s, p)
  }

  /** Publications keep what they are. */
  predicate SameBut(before: seq<Publication>, after: seq<Publication>) {
    && |before| <= |after|
    && (forall n {:trigger after[n]} :: 0 <= n < |before| ==>
          && after[n].provider == before[n].provider && after[n].update == before[n].update
          && after[n].persist == before[n].persist)
  }

  lemma {:induction false} LatestUpdateSame(updates: seq<Updated>, before: seq<Publication>, after: seq<Publication>, p: ProviderId)
    requires SameBut(before, after) && forall i :: 0 <= i < |updates| ==> updates[i].publication < |before|
    ensures LatestUpdate(updates, after, p) == LatestUpdate(updates, before, p)
    decreases |updates|
  {
    if updates != [] {
      LatestUpdateSame(updates[..|updates| - 1], before, after, p);
    }
  }

  lemma {:induction false} LatestMutationSame(mutations: seq<Mutation>, before: seq<Publication>, after: seq<Publication>,
                                              p: ProviderId)
    requires SameBut(before, after) && forall i :: 0 <= i < |mutations| ==> mutations[i].publication < |before|
    ensures LatestMutation(mutations, after, p) == LatestMutation(mutations, before, p)
    decreases |mutations|
  {
    if mutations != [] {
      LatestMutationSame(mutations[..|mutations| - 1], before, after, p);
    }
  }

  lemma {:induction false} NoneBy(updates: seq<Updated>, mutations: seq<Mutation>, n: PublicationId)
    requires forall i :: 0 <= i < |updates| ==> updates[i].publication < n
    requires forall i :: 0 <= i < |mutations| ==> mutations[i].publication < n
    ensures UpdatesBy(updates, n) == 0 && MutationsBy(mutations, n) == 0
    decreases |updates| + |mutations|
  {
    if updates != [] {
      NoneBy(updates[..|updates| - 1], mutations, n);
    } else if mutations != [] {
      NoneBy(updates, mutations[..|mutations| - 1], n);
    }
  }

  /** Nothing was stored or updated; publications may have been added. */
  lemma QuietKeeps(s: Catalog, t: Catalog)
    requires Kept(s) && SameBut(s.publications, t.publications)
    requires t.updates == s.updates && t.mutations == s.mutations && t.store == s.store && t.memory == s.memory
    requires forall n {:trigger t.publications[n]} :: 0 <= n < |s.publications| && t.publications[n] != s.publications[n] ==>
               Accounted(t.publications[n], UpdatesBy(s.updates, n), MutationsBy(s.mutations, n))
    requires forall n {:trigger t.publications[n]} :: |s.publications| <= n < |t.publications| ==> t.publications[n].phase.Waiting?
    ensures Kept(t)
  {
    hide Accounted, Reflects;
    forall n | |s.publications| <= n < |t.publications|
      ensures Accounted(t.publications[n], UpdatesBy(t.updates, n), MutationsBy(t.mutations, n))
    {
      NoneBy(t.updates, t.mutations, n);
      WaitingIsAccounted(t.publications[n]);
    }
    forall p ensures Reflects(t, p) {
      assert Reflects(s, p);
      ReflectsSame(s, t, p);
    }
  }

  lemma WaitingIsAccounted(pub: Publication)
    requires pub.phase.Waiting?
    ensures Accounted(pub, 0, 0)
  {
  }

  lemma ReflectsSame(s: Catalog, t: Catalog, p: ProviderId)
    requires AllAccounted(s) && SameBut(s.publications, t.publications) && Reflects(s, p)
    requires t.updates == s.updates && t.mutations == s.mutations && t.store == s.store && t.memory == s.memory
    ensures Reflects(t, p)
  {
    LatestUpdateSame(s.updates, s.publications, t.publications, p);
    LatestMutationSame(s.mutations, s.publications, t.publications, p);
  }

  lemma AtKeeps(s: Catalog, n: PublicationId, phase: Phase)
    requires Kept(s) && n < |s.publications|
    requires Accounted(s.publications[n].(phase := phase), UpdatesBy(s.updates, n), MutationsBy(s.mutations, n))
    ensures Kept(At(s, n, phase))
  {
    hide Kept, Accounted;
    QuietKeeps(s, At(s, n, phase));
  }

  lemma ConcludeKeeps(s: Catalog, n: PublicationId)
    requires Kept(s) && n < |s.publications| && s.publications[n].refresh < |s.refreshes|
    requires s.publications[n].phase == Storing(true) || (s.publications[n].phase.Waiting? && s.publications[n].persist.Keep?)
    ensures Kept(Conclude(s, n))
  {
    var pub, t := s.publications[n], Conclude(s, n);
    if !MayGoOn(s, n) {
      AtKeeps(s, n, Settled(false));
    } else if pub.update.None? {
      AtKeeps(s, n, Settled(true));
    } else {
      assert t.updates[..|t.updates| - 1] == s.updates;
      forall p ensures Reflects(t, p) {
        assert Reflects(s, p);
        LatestUpdateSame(s.updates, s.publications, t.publications, p);
        LatestMutationSame(s.mutations, s.publications, t.publications, p);
      }
      hide Reflects, MayGoOn;
    }
  }

  lemma ApplyKeeps(s: Catalog, n: PublicationId)
    requires Kept(s) && n < |s.publications| && s.publications[n].phase == Storing(false) && !s.publications[n].persist.Keep?
    ensures Kept(Apply(s, n))
  {
    var t := Apply(s, n);
    assert t.mutations[..|t.mutations| - 1] == s.mutations;
    forall p ensures Reflects(t, p) {
      assert Reflects(s, p);
      LatestUpdateSame(s.updates, s.publications, t.publications, p);
      LatestMutationSame(s.mutations, s.publications, t.publications, p);
    }
    hide Reflects;
  }

  lemma StepKeeps(s: Catalog, e: Event)
    requires Inv(s) && Kept(s) && Enabled(s, e)
    ensures Kept(Next(s, e))
  {
    if e.SetProvider? || e.DeleteProvider? || e.ClearProviders? || e.Begins? {
      SupersedingLeaves(s, e);
      hide Kept, Inv, Next, Enabled;
      QuietKeeps(s, Next(s, e));
    } else if e.Proceeds? || e.StoreReturns? || e.StoreApplies? {
      PublishingKeeps(s, e);
    } else {
      hide Kept, Inv;
      QuietKeeps(s, Next(s, e));
    }
  }

  lemma PublishingKeeps(s: Catalog, e: Event)
    requires Inv(s) && Kept(s) && Enabled(s, e) && (e.Proceeds? || e.StoreReturns? || e.StoreApplies?)
    ensures Kept(Next(s, e))
  {
    var n := e.publication;
    assert PublicationSound(n, s.publications[n], s.refreshes);
    assert Accounted(s.publications[n], UpdatesBy(s.updates, n), MutationsBy(s.mutations, n));
    hide Kept, Inv, Conclude, At, Apply, MayGoOn;
    match e {
      case Proceeds(_) =>
        if !MayGoOn(s, n) {
          AtKeeps(s, n, Settled(false));
        } else if s.publications[n].persist.Keep? {
          ConcludeKeeps(s, n);
        } else {
          AtKeeps(s, n, Storing(false));
        }
      case StoreApplies(_) => ApplyKeeps(s, n);
      case StoreReturns(_, ok) =>
        if ok { ConcludeKeeps(s, n); } else { AtKeeps(s, n, Settled(false)); }
    }
  }

  lemma {:induction false} RunKeeps(s: Catalog, events: seq<Event>, t: Catalog)
    requires Inv(s) && Kept(s) && Execute(s, events) == Some(t)
    ensures Kept(t)
    decreases |events|
  {
    hide Inv, Enabled, Next, Kept;
    if events != [] {
      Preserved(s, events[0]);
      StepKeeps(s, events[0]);
      RunKeeps(Next(s, events[0]), events[1..], t);
    }
  }

  /** Memory and store of a provider hold what the last update and the last store operation of it wrote. A
      publication that has settled as published has made its update exactly once, and its store operation
      exactly once; a publication that has settled otherwise has made no update. */
  lemma PublishedIsWritten(events: seq<Event>, s: Catalog, n: PublicationId, p: ProviderId)
    requires Reaches(events, s) && n < |s.publications|
    ensures Reflects(s, p) && Accounted(s.publications[n], UpdatesBy(s.updates, n), MutationsBy(s.mutations, n))
  {
    InitialInv();
    assert Kept(Initial()) by {
      forall q ensures Reflects(Initial(), q) {}
    }
    hide Inv;
    RunKeeps(Initial(), events, s);
    hide Accounted, Reflects;
  }

  // ---- publications are queued and come to their turn ------------------------------------------

  datatype Order = Order(refresh: RefreshId, persist: Persist, update: Option<Entry>)

  function Orders(events: seq<Event>): seq<Order>
    decreases |events|
  {
    if events == [] then []
    else (if events[0].Publishes? then [Order(events[0].refresh, events[0].persist, events[0].update)] else [])
         + Orders(events[1..])
  }

  function Queued(publications: seq<Publication>): seq<Order> {
    seq(|publications|, n requires 0 <= n < |publications| =>
      Order(publications[n].refresh, publications[n].persist, publications[n].update))
  }

  /** A publication follows one of its own provider. */
  predicate Chained(publications: seq<Publication>) {
    forall n {:trigger publications[n]} :: 0 <= n < |publications| && publications[n].previous.Some? ==>
      && publications[n].previous.value < n
      && publications[publications[n].previous.value].provider == publications[n].provider
  }

  lemma StepCounts(s: Catalog, e: Event)
    requires Inv(s) && Enabled(s, e) && !e.Publishes?
    ensures |Next(s, e).publications| == |s.publications|
  {
    if e.SetProvider? || e.DeleteProvider? || e.ClearProviders? || e.Begins? {
      SupersedingLeaves(s, e);
      hide Next;
    } else if e.Proceeds? || e.StoreReturns? {
      PublishingRefuses(s, e, e.publication);
      hide Next;
    }
    hide Inv;
  }

  lemma PublishQueues(s: Catalog, r: RefreshId, persist: Persist, update: Option<Entry>)
    requires Inv(s) && Chained(s.publications) && r < |s.refreshes|
    ensures Queued(Publish(s, r, persist, update).publications) == Queued(s.publications) + [Order(r, persist, update)]
    ensures Chained(Publish(s, r, persist, update).publications)
  {
    hide RefreshInv, PublicationsSound, AllOrdered, MutationsSound, NoneAhead, AllHold, UpdatesSound;
  }

  lemma LaterQueues(before: seq<Publication>, after: seq<Publication>)
    requires |after| == |before| && Chained(before)
    requires forall n {:trigger after[n]} :: 0 <= n < |before| ==> after[n] == before[n].(phase := after[n].phase)
    ensures Queued(after) == Queued(before) && Chained(after)
  {
  }

  lemma StepQueues(s: Catalog, e: Event)
    requires Inv(s) && Enabled(s, e) && Chained(s.publications)
    ensures Queued(Next(s, e).publications) == Queued(s.publications) + Orders([e])
    ensures Chained(Next(s, e).publications)
  {
    assert [e][1..] == [];
    if e.Publishes? {
      PublishQueues(s, e.refresh, e.persist, e.update);
      hide Inv, Publish, Chained, Queued;
    } else {
      StepCounts(s, e);
      StepIsLater(s, e);
      hide Inv, Next, Chained, Queued, Enabled;
      LaterQueues(s.publications, Next(s, e).publications);
    }
  }

  lemma {:induction false} RunQueues(s: Catalog, events: seq<Event>, t: Catalog)
    requires Inv(s) && Chained(s.publications) && Execute(s, events) == Some(t)
    ensures Queued(t.publications) == Queued(s.publications) + Orders(events)
    ensures Chained(t.publications)
    decreases |events|
  {
    hide Inv, Enabled, Next, Chained, Queued;
    if events != [] {
      Preserved(s, events[0]);
      StepQueues(s, events[0]);
      RunQueues(Next(s, events[0]), events[1..], t);
      assert [events[0]][1..] == [];
    }
  }

  /** Every publication asked for is queued, with what it is to store and to show, in the order asked. */
  lemma PublicationsAreQueued(events: seq<Event>, s: Catalog)
    requires Reaches(events, s)
    ensures Queued(s.publications) == Orders(events)
  {
    InitialInv();
    hide Inv;
    RunQueues(Initial(), events, s);
    assert Queued(Initial().publications) == [];
  }

  /** The publication's own next step can be taken. */
  predicate CanMove(s: Catalog, n: PublicationId) {
    || Enabled(s, Proceeds(n)) || Enabled(s, StoreApplies(n)) || Enabled(s, StoreReturns(n, true))
  }

  lemma {:induction false} FirstUnsettledMoves(s: Catalog, n: PublicationId) returns (m: PublicationId)
    requires Inv(s) && Chained(s.publications) && n < |s.publications| && !s.publications[n].phase.Settled?
    ensures m <= n && s.publications[m].provider == s.publications[n].provider && CanMove(s, m)
    decreases n
  {
    var pub := s.publications[n];
    if pub.phase.Waiting? && pub.previous.Some? && !s.publications[pub.previous.value].phase.Settled? {
      m := FirstUnsettledMoves(s, pub.previous.value);
    } else {
      m := n;
      assert PublicationSound(n, pub, s.refreshes);
    }
    hide Inv, Chained;
  }

  /** The queue of a provider is never stuck: if a publication has not settled, it or one it waits for can
      take its next step. */
  lemma NeverStuck(events: seq<Event>, s: Catalog, n: PublicationId) returns (m: PublicationId)
    requires Reaches(events, s) && n < |s.publications| && !s.publications[n].phase.Settled?
    ensures m <= n && s.publications[m].provider == s.publications[n].provider && CanMove(s, m)
  {
    ReachedKeepsInv(events, s);
    InitialInv();
    hide Inv, CanMove;
    RunQueues(Initial(), events, s);
    m := FirstUnsettledMoves(s, n);
  }

  // ---- which providers there are ---------------------------------------------------------------

  predicate Removes(e: Event, p: ProviderId) {
    e == DeleteProvider(p) || e.ClearProviders?
  }

  lemma StepProviders(s: Catalog, e: Event, p: ProviderId)
    requires Enabled(s, e)
    ensures p in Next(s, e).providers <==> e == SetProvider(p) || (p in s.providers && !Removes(e, p))
  {
    hide Inv, MayGoOn;
    if !(e.SetProvider? || e.DeleteProvider? || e.ClearProviders? || e.Begins?) {
      OtherLeaves(s, e);
      hide Next;
    }
    hide SupersedeAll;
  }

  /** A provider is there if it has been set since it was last removed, or was there and has not been. */
  lemma {:induction false} ThereIff(s: Catalog, events: seq<Event>, t: Catalog, p: ProviderId)
    requires Execute(s, events) == Some(t)
    ensures p in t.providers <==>
              || (p in s.providers && forall j :: 0 <= j < |events| ==> !Removes(events[j], p))
              || (exists i :: 0 <= i < |events| && events[i] == SetProvider(p)
                              && forall j :: i < j < |events| ==> !Removes(events[j], p))
    decreases |events|
  {
    hide Enabled, Next, Removes;
    if events != [] {
      StepProviders(s, events[0], p);
      ThereIff(Next(s, events[0]), events[1..], t, p);
    }
  }
}
