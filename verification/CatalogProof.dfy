/** Store mutations of one provider never overlap and follow the generations; memory changes only for the
    current, uncancelled refresh, and then agrees with the store. */
module CatalogProof {
  import opened Wrappers
  import opened CatalogSpec

  // ---- the invariant ---------------------------------------------------------------------------

  /** Generations only grow, and the refresh that holds the controller is of the current one and under way. */
  predicate RefreshInv(refreshes: seq<Refresh>, generations: map<ProviderId, nat>, controllers: map<ProviderId, RefreshId>) {
    && (forall r {:trigger refreshes[r]} :: 0 <= r < |refreshes| ==> RefreshSound(r, refreshes[r], generations, controllers))
    && (forall p {:trigger controllers[p]} :: p in controllers ==>
          && controllers[p] < |refreshes| && refreshes[controllers[p]].provider == p
          && p in generations && refreshes[controllers[p]].generation == generations[p] && !refreshes[controllers[p]].ended)
  }

  predicate RefreshSound(r: RefreshId, refresh: Refresh, generations: map<ProviderId, nat>,
                         controllers: map<ProviderId, RefreshId>) {
    && refresh.provider in generations && refresh.generation <= generations[refresh.provider]
    && (!refresh.ended && !refresh.aborted ==> Lookup(controllers, refresh.provider) == Some(r))
  }

  /** A publication carries its refresh's generation and follows an earlier one of the same provider. */
  predicate PublicationSound(n: PublicationId, pub: Publication, refreshes: seq<Refresh>) {
    && pub.refresh < |refreshes| && refreshes[pub.refresh].provider == pub.provider
    && refreshes[pub.refresh].generation == pub.generation
    && (pub.previous.Some? ==> pub.previous.value < n)
    && (pub.phase.Storing? ==> !pub.persist.Keep?)
  }

  predicate PublicationsSound(publications: seq<Publication>, refreshes: seq<Refresh>) {
    forall n {:trigger publications[n]} :: 0 <= n < |publications| ==> PublicationSound(n, publications[n], refreshes)
  }

  /** Between a publication and the one it waits for, everything of the provider has settled; and it
      leaves the queue only when everything before it has. */
  predicate Ordered(publications: seq<Publication>, i: PublicationId, n: PublicationId)
    requires i < |publications| && n < |publications|
  {
    i < n && publications[i].provider == publications[n].provider && !publications[i].phase.Settled? ==>
      && publications[n].phase.Waiting?
      && publications[n].previous.Some? && i <= publications[n].previous.value < |publications|
      && publications[publications[n].previous.value].provider == publications[n].provider
  }

  predicate AllOrdered(publications: seq<Publication>) {
    forall i, n {:trigger Ordered(publications, i, n)} :: 0 <= i < |publications| && 0 <= n < |publications| ==>
      Ordered(publications, i, n)
  }

  /** Everything of a provider that is not settled is at or before the tail of its chain. */
  predicate TailSound(publications: seq<Publication>, chains: map<ProviderId, PublicationId>) {
    && (forall p {:trigger chains[p]} :: p in chains ==> chains[p] < |publications| && publications[chains[p]].provider == p)
    && (forall n {:trigger publications[n]} :: 0 <= n < |publications| && !publications[n].phase.Settled? ==>
          publications[n].provider in chains && n <= chains[publications[n].provider])
  }

  /** Mutations of a provider so far are of no later generation than it has reached. */
  predicate MutationsSound(mutations: seq<Mutation>, generations: map<ProviderId, nat>) {
    && (forall i {:trigger mutations[i]} :: 0 <= i < |mutations| ==>
          mutations[i].provider in generations && mutations[i].generation <= generations[mutations[i].provider])
    && (forall i, j {:trigger mutations[i], mutations[j]} ::
          0 <= i < j < |mutations| && mutations[i].provider == mutations[j].provider ==>
            mutations[i].generation <= mutations[j].generation)
  }

  /** No mutation is of a later generation than a publication that is inside the store. */
  predicate NoneAhead(mutations: seq<Mutation>, publications: seq<Publication>) {
    forall i, n {:trigger mutations[i], publications[n]} ::
      (0 <= i < |mutations| && 0 <= n < |publications|
       && publications[n].phase.Storing? && mutations[i].provider == publications[n].provider) ==>
        mutations[i].generation <= publications[n].generation
  }

  predicate Holds(store: map<ProviderId, Entry>, pub: Publication) {
    pub.phase == Storing(true) ==> Lookup(store, pub.provider) == Effect(pub.persist, None)
  }

  predicate AllHold(store: map<ProviderId, Entry>, publications: seq<Publication>) {
    forall n {:trigger publications[n]} :: 0 <= n < |publications| ==> Holds(store, publications[n])
  }

  /** An update ran for the generation that was current, was not cancelled, and saw its own entry stored. */
  predicate UpdateSound(u: Updated, publications: seq<Publication>) {
    && u.publication < |publications| && !u.cancelled
    && u.current == publications[u.publication].generation
    && (!publications[u.publication].persist.Keep? ==> u.stored == Effect(publications[u.publication].persist, None))
  }

  predicate UpdatesSound(updates: seq<Updated>, publications: seq<Publication>) {
    forall i {:trigger updates[i]} :: 0 <= i < |updates| ==> UpdateSound(updates[i], publications)
  }

  predicate Inv(s: Catalog) {
    && RefreshInv(s.refreshes, s.generations, s.controllers)
    && PublicationsSound(s.publications, s.refreshes)
    && AllOrdered(s.publications)
    && TailSound(s.publications, s.chains)
    && MutationsSound(s.mutations, s.generations)
    && NoneAhead(s.mutations, s.publications)
    && AllHold(s.store, s.publications)
    && UpdatesSound(s.updates, s.publications)
  }

  lemma InitialInv()
    ensures Inv(Initial())
  {
  }

  // ---- generations and controllers -------------------------------------------------------------

  /** Refreshes keep who they are. */
  predicate SameRefreshes(before: seq<Refresh>, after: seq<Refresh>) {
    && |before| <= |after|
    && forall r {:trigger after[r]} :: 0 <= r < |before| ==>
         after[r].provider == before[r].provider && after[r].generation == before[r].generation
  }

  lemma SamePublications(publications: seq<Publication>, before: seq<Refresh>, after: seq<Refresh>)
    requires PublicationsSound(publications, before) && SameRefreshes(before, after)
    ensures PublicationsSound(publications, after)
  {
    forall n | 0 <= n < |publications| ensures PublicationSound(n, publications[n], after) {
      assert PublicationSound(n, publications[n], before);
      assert after[publications[n].refresh].generation == before[publications[n].refresh].generation;
    }
  }

  lemma LaterGenerations(mutations: seq<Mutation>, before: map<ProviderId, nat>, after: map<ProviderId, nat>)
    requires MutationsSound(mutations, before)
    requires forall p :: p in before ==> p in after && before[p] <= after[p]
    ensures MutationsSound(mutations, after)
  {
  }

  lemma SupersedeFacts(s: Catalog, p: ProviderId)
    requires RefreshInv(s.refreshes, s.generations, s.controllers)
    ensures var t := Supersede(s, p);
            && |t.refreshes| == |s.refreshes| && p !in t.controllers && p in t.generations
            && t.generations[p] == Generation(s, p) + 1
            && t == s.(generations := t.generations, controllers := t.controllers, refreshes := t.refreshes)
            && (forall q :: q in s.generations ==> q in t.generations && s.generations[q] <= t.generations[q])
            && (forall q :: q in t.controllers ==> q in s.controllers && q != p && t.controllers[q] == s.controllers[q])
            && (forall q :: q in t.generations && q != p ==> q in s.generations && t.generations[q] == s.generations[q])
  {
  }

  lemma SupersedeKeepsEach(s: Catalog, p: ProviderId, r: RefreshId)
    requires RefreshInv(s.refreshes, s.generations, s.controllers) && r < |s.refreshes|
    ensures var t := Supersede(s, p);
            && |t.refreshes| == |s.refreshes| && RefreshSound(r, t.refreshes[r], t.generations, t.controllers)
            && t.refreshes[r] == s.refreshes[r].(aborted := t.refreshes[r].aborted)
  {
    assert RefreshSound(r, s.refreshes[r], s.generations, s.controllers);
  }

  lemma SupersedeKeepsRefreshes(s: Catalog, p: ProviderId)
    requires RefreshInv(s.refreshes, s.generations, s.controllers)
    ensures var t := Supersede(s, p);
            RefreshInv(t.refreshes, t.generations, t.controllers) && SameRefreshes(s.refreshes, t.refreshes)
  {
    var t := Supersede(s, p);
    SupersedeFacts(s, p);
    hide Supersede, RefreshSound;
    forall r | 0 <= r < |t.refreshes|
      ensures RefreshSound(r, t.refreshes[r], t.generations, t.controllers)
      ensures t.refreshes[r] == s.refreshes[r].(aborted := t.refreshes[r].aborted)
    {
      SupersedeKeepsEach(s, p, r);
    }
  }

  lemma RefreshesKeepInv(s: Catalog, t: Catalog)
    requires Inv(s) && RefreshInv(t.refreshes, t.generations, t.controllers) && SameRefreshes(s.refreshes, t.refreshes)
    requires forall p :: p in s.generations ==> p in t.generations && s.generations[p] <= t.generations[p]
    requires t == s.(providers := t.providers, generations := t.generations, controllers := t.controllers,
                     refreshes := t.refreshes)
    ensures Inv(t)
  {
    hide RefreshInv, AllOrdered, TailSound, NoneAhead, AllHold, UpdatesSound, SameRefreshes;
    SamePublications(s.publications, s.refreshes, t.refreshes);
    LaterGenerations(s.mutations, s.generations, t.generations);
    hide PublicationsSound, MutationsSound;
  }

  lemma SupersedeKeepsInv(s: Catalog, p: ProviderId)
    requires Inv(s)
    ensures Inv(Supersede(s, p))
  {
    SupersedeKeepsRefreshes(s, p);
    SupersedeFacts(s, p);
    hide RefreshInv, PublicationsSound, MutationsSound, AllOrdered, TailSound, NoneAhead, AllHold, UpdatesSound, SameRefreshes;
    RefreshesKeepInv(s, Supersede(s, p));
  }

  lemma {:induction false} SupersedeAllKeepsInv(s: Catalog, ps: seq<ProviderId>)
    requires Inv(s)
    ensures Inv(SupersedeAll(s, ps))
    decreases |ps|
  {
    hide Inv, Supersede;
    if ps != [] {
      SupersedeKeepsInv(s, ps[0]);
      SupersedeAllKeepsInv(Supersede(s, ps[0]), ps[1..]);
    }
  }

  lemma BeginKeepsRefreshes(s: Catalog, p: ProviderId)
    requires RefreshInv(s.refreshes, s.generations, s.controllers)
    ensures var t, u := Supersede(s, p), BeginRefresh(s, p);
            && RefreshInv(u.refreshes, u.generations, u.controllers) && SameRefreshes(t.refreshes, u.refreshes)
            && u == t.(controllers := u.controllers, refreshes := u.refreshes)
  {
    var t := Supersede(s, p);
    var u := BeginRefresh(s, p);
    SupersedeKeepsRefreshes(s, p);
    SupersedeFacts(s, p);
    hide Supersede;
    forall r | 0 <= r < |u.refreshes| ensures RefreshSound(r, u.refreshes[r], u.generations, u.controllers) {
      assert r < |t.refreshes| ==> RefreshSound(r, t.refreshes[r], t.generations, t.controllers);
    }
  }

  lemma RefreshInvHolds(s: Catalog)
    requires Inv(s)
    ensures RefreshInv(s.refreshes, s.generations, s.controllers)
  {
    hide RefreshInv, PublicationsSound, MutationsSound, AllOrdered, TailSound, NoneAhead, AllHold, UpdatesSound;
  }

  lemma BeginKeepsInv(s: Catalog, p: ProviderId)
    requires Inv(s)
    ensures Inv(BeginRefresh(s, p))
  {
    RefreshInvHolds(s);
    hide Inv, RefreshInv, SameRefreshes, Supersede, BeginRefresh;
    BeginKeepsRefreshes(s, p);
    SupersedeKeepsInv(s, p);
    RefreshesKeepInv(Supersede(s, p), BeginRefresh(s, p));
  }

  lemma RefreshEventKeepsInv(s: Catalog, e: Event)
    requires Inv(s) && Enabled(s, e) && (e.CallerAborts? || e.Ends?)
    ensures Inv(Next(s, e))
  {
    var t := Next(s, e);
    assert RefreshInv(t.refreshes, t.generations, t.controllers) by {
      forall r | 0 <= r < |t.refreshes| ensures RefreshSound(r, t.refreshes[r], t.generations, t.controllers) {
        assert RefreshSound(r, s.refreshes[r], s.generations, s.controllers);
      }
    }
    hide RefreshInv, PublicationsSound, MutationsSound, AllOrdered, TailSound, NoneAhead, AllHold, UpdatesSound;
    RefreshesKeepInv(s, t);
  }

  // ---- the chain of publications ---------------------------------------------------------------

  /** When its turn has come, everything of the provider before a publication has settled. */
  lemma EarlierSettled(s: Catalog, n: PublicationId, i: PublicationId)
    requires Inv(s) && Enabled(s, Proceeds(n)) && i < n && s.publications[i].provider == s.publications[n].provider
    ensures s.publications[i].phase.Settled?
  {
    assert Ordered(s.publications, i, n);
    if s.publications[n].previous.Some? {
      assert Ordered(s.publications, i, s.publications[n].previous.value);
    }
  }

  /** Two publications of a provider are never both inside the store. */
  lemma StoringAlone(s: Catalog, i: PublicationId, n: PublicationId)
    requires Inv(s) && i < |s.publications| && n < |s.publications|
    requires s.publications[i].phase.Storing? && s.publications[n].phase.Storing?
    requires s.publications[i].provider == s.publications[n].provider
    ensures i == n
  {
    assert Ordered(s.publications, i, n) && Ordered(s.publications, n, i);
  }

  lemma PublishKeepsInv(s: Catalog, r: RefreshId, persist: Persist, update: Option<Entry>)
    requires Inv(s) && r < |s.refreshes|
    ensures Inv(Publish(s, r, persist, update))
  {
    var t := Publish(s, r, persist, update);
    assert AllOrdered(t.publications) by {
      forall i, n | 0 <= i < |t.publications| && 0 <= n < |t.publications| ensures Ordered(t.publications, i, n) {
        assert i < |s.publications| && n < |s.publications| ==> Ordered(s.publications, i, n);
      }
    }
    assert UpdatesSound(t.updates, t.publications) by {
      forall i | 0 <= i < |t.updates| ensures UpdateSound(t.updates[i], t.publications) {
        assert UpdateSound(s.updates[i], s.publications);
      }
    }
    hide RefreshInv, MutationsSound, AllOrdered, UpdatesSound, Ordered;
  }

  /** Only the phase of one publication changes, and never back. */
  predicate Advances(before: Phase, after: Phase) {
    || before.Waiting?
    || (before.Storing? && !after.Waiting?)
  }

  lemma AdvanceKeepsOrder(publications: seq<Publication>, n: PublicationId, phase: Phase)
    requires AllOrdered(publications) && n < |publications| && Advances(publications[n].phase, phase)
    requires !publications[n].phase.Settled? && !phase.Waiting?
    requires forall i :: 0 <= i < n && publications[i].provider == publications[n].provider ==> publications[i].phase.Settled?
    ensures AllOrdered(publications[n := publications[n].(phase := phase)])
  {
    var after := publications[n := publications[n].(phase := phase)];
    forall i, m | 0 <= i < |after| && 0 <= m < |after| ensures Ordered(after, i, m) {
      assert Ordered(publications, i, m);
    }
  }

  lemma AdvanceKeepsTail(publications: seq<Publication>, chains: map<ProviderId, PublicationId>, n: PublicationId, phase: Phase)
    requires TailSound(publications, chains) && n < |publications| && !publications[n].phase.Settled?
    ensures TailSound(publications[n := publications[n].(phase := phase)], chains)
  {
  }

  lemma AdvanceKeepsSound(publications: seq<Publication>, refreshes: seq<Refresh>, updates: seq<Updated>,
                          n: PublicationId, phase: Phase)
    requires PublicationsSound(publications, refreshes) && UpdatesSound(updates, publications) && n < |publications|
    requires phase.Storing? ==> !publications[n].persist.Keep?
    ensures PublicationsSound(publications[n := publications[n].(phase := phase)], refreshes)
    ensures UpdatesSound(updates, publications[n := publications[n].(phase := phase)])
  {
    var after := publications[n := publications[n].(phase := phase)];
    forall m | 0 <= m < |after| ensures PublicationSound(m, after[m], refreshes) {
      assert PublicationSound(m, publications[m], refreshes);
    }
    forall i | 0 <= i < |updates| ensures UpdateSound(updates[i], after) {
      assert UpdateSound(updates[i], publications);
    }
  }

  lemma BeforeStoringSettled(s: Catalog, n: PublicationId)
    requires Inv(s) && n < |s.publications| && s.publications[n].phase.Storing?
    ensures forall i :: 0 <= i < n && s.publications[i].provider == s.publications[n].provider ==> s.publications[i].phase.Settled?
  {
    forall i | 0 <= i < n && s.publications[i].provider == s.publications[n].provider
      ensures s.publications[i].phase.Settled?
    {
      assert Ordered(s.publications, i, n);
    }
  }

  /** A publication settles: nothing but its phase and, if it is still current, the memory changes. */
  lemma SettleKeepsInv(s: Catalog, n: PublicationId, published: bool)
    requires Inv(s) && n < |s.publications| && !s.publications[n].phase.Settled?
    requires forall i :: 0 <= i < n && s.publications[i].provider == s.publications[n].provider ==> s.publications[i].phase.Settled?
    ensures Inv(At(s, n, Settled(published)))
  {
    AdvanceKeepsOrder(s.publications, n, Settled(published));
    AdvanceKeepsTail(s.publications, s.chains, n, Settled(published));
    AdvanceKeepsSound(s.publications, s.refreshes, s.updates, n, Settled(published));
    hide RefreshInv, PublicationsSound, MutationsSound, AllOrdered, TailSound, UpdatesSound;
  }

  lemma ConcludeKeepsInv(s: Catalog, n: PublicationId)
    requires Inv(s) && n < |s.publications| && s.publications[n].refresh < |s.refreshes|
    requires s.publications[n].phase == Storing(true) || (s.publications[n].phase.Waiting? && s.publications[n].persist.Keep?)
    requires forall i :: 0 <= i < n && s.publications[i].provider == s.publications[n].provider ==> s.publications[i].phase.Settled?
    ensures Inv(Conclude(s, n))
  {
    var goOn := MayGoOn(s, n);
    var t := At(s, n, Settled(goOn));
    SettleKeepsInv(s, n, goOn);
    var pub := s.publications[n];
    if goOn && pub.update.Some? {
      assert Holds(s.store, pub);
      assert UpdateSound(Updated(n, Generation(s, pub.provider), s.refreshes[pub.refresh].Cancelled(),
                                 Lookup(s.store, pub.provider)), t.publications);
    }
    hide RefreshInv, PublicationsSound, MutationsSound, AllOrdered, TailSound, NoneAhead, AllHold;
  }

  lemma EnterKeepsInv(s: Catalog, n: PublicationId)
    requires Inv(s) && n < |s.publications| && s.publications[n].refresh < |s.refreshes|
    requires s.publications[n].phase.Waiting? && !s.publications[n].persist.Keep? && MayGoOn(s, n)
    requires forall i :: 0 <= i < n && s.publications[i].provider == s.publications[n].provider ==> s.publications[i].phase.Settled?
    ensures Inv(At(s, n, Storing(false)))
  {
    AdvanceKeepsOrder(s.publications, n, Storing(false));
    AdvanceKeepsTail(s.publications, s.chains, n, Storing(false));
    AdvanceKeepsSound(s.publications, s.refreshes, s.updates, n, Storing(false));
    hide RefreshInv, PublicationsSound, AllOrdered, TailSound, UpdatesSound;
  }

  lemma ProceedKeepsInv(s: Catalog, n: PublicationId)
    requires Inv(s) && Enabled(s, Proceeds(n))
    ensures Inv(Next(s, Proceeds(n)))
  {
    forall i | 0 <= i < n && s.publications[i].provider == s.publications[n].provider
      ensures s.publications[i].phase.Settled?
    {
      EarlierSettled(s, n, i);
    }
    hide Inv, Conclude, At;
    if !MayGoOn(s, n) {
      SettleKeepsInv(s, n, false);
    } else if s.publications[n].persist.Keep? {
      ConcludeKeepsInv(s, n);
    } else {
      EnterKeepsInv(s, n);
    }
  }

  /** The store changes: of this provider nobody else is inside it, and other providers' entries stay. */
  lemma ApplyKeepsInv(s: Catalog, n: PublicationId)
    requires Inv(s) && Enabled(s, StoreApplies(n))
    ensures Inv(Next(s, StoreApplies(n)))
  {
    var t := Next(s, StoreApplies(n));
    var pub := s.publications[n];
    BeforeStoringSettled(s, n);
    AdvanceKeepsOrder(s.publications, n, Storing(true));
    AdvanceKeepsTail(s.publications, s.chains, n, Storing(true));
    assert PublicationSound(n, pub, s.refreshes);
    AdvanceKeepsSound(s.publications, s.refreshes, s.updates, n, Storing(true));
    assert AllHold(t.store, t.publications) by {
      forall m | 0 <= m < |t.publications| ensures Holds(t.store, t.publications[m]) {
        assert Holds(s.store, s.publications[m]);
        if m != n && s.publications[m].phase.Storing? && s.publications[m].provider == pub.provider {
          StoringAlone(s, m, n);
        }
      }
    }
    MutationGoesLast(s, n);
  }

  lemma MutationGoesLast(s: Catalog, n: PublicationId)
    requires Inv(s) && n < |s.publications| && s.publications[n].phase == Storing(false)
    ensures var t := Apply(s, n);
            MutationsSound(t.mutations, t.generations) && NoneAhead(t.mutations, t.publications)
  {
    var t := Apply(s, n);
    var pub := s.publications[n];
    assert PublicationSound(n, pub, s.refreshes);
    assert RefreshSound(pub.refresh, s.refreshes[pub.refresh], s.generations, s.controllers);
    forall i, m | 0 <= i < |t.mutations| && 0 <= m < |t.publications| && t.publications[m].phase.Storing?
                  && t.mutations[i].provider == t.publications[m].provider
      ensures t.mutations[i].generation <= t.publications[m].generation
    {
      if i == |s.mutations| {
        StoringAlone(s, m, n);
      } else {
        assert s.mutations[i].provider == s.publications[m].provider;
      }
    }
    hide AllOrdered, TailSound, UpdatesSound, AllHold, RefreshInv, PublicationsSound;
  }

  lemma StoreReturnKeepsInv(s: Catalog, n: PublicationId, ok: bool)
    requires Inv(s) && Enabled(s, StoreReturns(n, ok))
    ensures Inv(Next(s, StoreReturns(n, ok)))
  {
    BeforeStoringSettled(s, n);
    hide Inv, Conclude, At;
    if ok {
      ConcludeKeepsInv(s, n);
    } else {
      SettleKeepsInv(s, n, false);
    }
  }

  lemma ForgetKeepsInv(s: Catalog, n: PublicationId)
    requires Inv(s) && Enabled(s, TailForgotten(n))
    ensures Inv(Next(s, TailForgotten(n)))
  {
    forall m | 0 <= m < |s.publications| && s.publications[m].provider == s.publications[n].provider
      ensures s.publications[m].phase.Settled?
    {
      assert Ordered(s.publications, m, n);
    }
    hide RefreshInv, PublicationsSound, MutationsSound, NoneAhead, AllHold, UpdatesSound;
  }

  lemma Preserved(s: Catalog, e: Event)
    requires Inv(s) && Enabled(s, e)
    ensures Inv(Next(s, e))
  {
    match e {
      case SetProvider(p) => SupersedeKeepsInv(s, p);
      case DeleteProvider(p) => SupersedeKeepsInv(s, p);
      case ClearProviders(order) => SupersedeAllKeepsInv(s, order);
      case Begins(p) => BeginKeepsInv(s, p);
      case CallerAborts(_) => RefreshEventKeepsInv(s, e);
      case Ends(_) => RefreshEventKeepsInv(s, e);
      case Publishes(r, persist, update) => PublishKeepsInv(s, r, persist, update);
      case Proceeds(n) => ProceedKeepsInv(s, n);
      case StoreApplies(n) => ApplyKeepsInv(s, n);
      case StoreReturns(n, ok) => StoreReturnKeepsInv(s, n, ok);
      case TailForgotten(n) => ForgetKeepsInv(s, n);
    }
    hide RefreshInv, PublicationsSound, MutationsSound, AllOrdered, TailSound, NoneAhead, AllHold, UpdatesSound,
         Supersede, SupersedeAll, Publish, Proceed, Apply, Conclude, BeginRefresh, Enabled;
  }
}
