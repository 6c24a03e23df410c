/** What the refresh protocol guarantees over every run. */
module CatalogTheorems {
  import opened Wrappers
  import opened CatalogSpec
  import opened CatalogProof

  lemma {:induction false} ExecutionKeepsInv(s: Catalog, events: seq<Event>, t: Catalog)
    requires Inv(s) && Execute(s, events) == Some(t)
    ensures Inv(t)
    decreases |events|
  {
    hide Inv, Next, Enabled;
    if events != [] {
      Preserved(s, events[0]);
      ExecutionKeepsInv(Next(s, events[0]), events[1..], t);
    }
  }

  lemma ReachedKeepsInv(events: seq<Event>, s: Catalog)
    requires Reaches(events, s)
    ensures Inv(s)
  {
    InitialInv();
    hide Inv;
    ExecutionKeepsInv(Initial(), events, s);
  }

  /** No two store operations of one provider are ever under way together, over any mix of refreshes,
      replacements and deletions. */
  lemma MutationsNeverOverlap(events: seq<Event>, s: Catalog, i: PublicationId, n: PublicationId)
    requires Reaches(events, s) && i < n < |s.publications|
    requires s.publications[i].provider == s.publications[n].provider
    ensures !(s.publications[i].phase.Storing? && s.publications[n].phase.Storing?)
    ensures !s.publications[n].phase.Waiting? ==> s.publications[i].phase.Settled?
  {
    ReachedKeepsInv(events, s);
    assert Ordered(s.publications, i, n);
  }

  /** A provider's store mutations take effect in the order of their generations. */
  lemma MutationsFollowGenerations(events: seq<Event>, s: Catalog, i: nat, j: nat)
    requires Reaches(events, s) && i < j < |s.mutations| && s.mutations[i].provider == s.mutations[j].provider
    ensures s.mutations[i].generation <= s.mutations[j].generation <= Generation(s, s.mutations[j].provider)
  {
    ReachedKeepsInv(events, s);
    hide RefreshInv, PublicationsSound, AllOrdered, TailSound, NoneAhead, AllHold, UpdatesSound;
  }

  /** An in-memory update runs only for the generation that is current and not cancelled at that
      instant; and if it came with a store operation, the store holds exactly its entry then. */
  lemma UpdatesAreCurrent(events: seq<Event>, s: Catalog, i: nat)
    requires Reaches(events, s) && i < |s.updates|
    ensures var u := s.updates[i];
            && u.publication < |s.publications| && !u.cancelled && u.current == s.publications[u.publication].generation
            && (s.publications[u.publication].persist.Delete? ==> u.stored == None)
            && (s.publications[u.publication].persist.Write? ==>
                  u.stored == Some(s.publications[u.publication].persist.entry))
  {
    ReachedKeepsInv(events, s);
    assert UpdateSound(s.updates[i], s.publications);
  }

  /** At most one refresh of a provider is neither superseded nor over, and it is of the current
      generation. */
  lemma OneCurrentRefresh(events: seq<Event>, s: Catalog, q: RefreshId, r: RefreshId)
    requires Reaches(events, s) && q < |s.refreshes| && r < |s.refreshes|
    requires s.refreshes[q].provider == s.refreshes[r].provider
    requires !s.refreshes[q].ended && !s.refreshes[q].aborted && !s.refreshes[r].ended && !s.refreshes[r].aborted
    ensures q == r && s.refreshes[r].generation == Generation(s, s.refreshes[r].provider)
  {
    ReachedKeepsInv(events, s);
    assert RefreshSound(q, s.refreshes[q], s.generations, s.controllers);
    assert RefreshSound(r, s.refreshes[r], s.generations, s.controllers);
    hide PublicationsSound, MutationsSound, AllOrdered, TailSound, NoneAhead, AllHold, UpdatesSound;
  }

  // ---- superseded refreshes --------------------------------------------------------------------

  /** From `s` to `t` nothing was forgotten, generations did not shrink, and every new update was made
      for a generation at least as late as in `s`. */
  predicate Later(s: Catalog, t: Catalog) {
    && |s.refreshes| <= |t.refreshes|
    && (forall r {:trigger t.refreshes[r]} :: 0 <= r < |s.refreshes| ==>
          t.refreshes[r].provider == s.refreshes[r].provider && t.refreshes[r].generation == s.refreshes[r].generation)
    && (forall p :: p in s.generations ==> p in t.generations && s.generations[p] <= t.generations[p])
    && |s.publications| <= |t.publications|
    && (forall n {:trigger t.publications[n]} :: 0 <= n < |s.publications| ==>
          t.publications[n] == s.publications[n].(phase := t.publications[n].phase))
    && s.updates <= t.updates
  }

  /** Updates added since were made by refreshes that were current in `s` or came later. */
  predicate NewUpdatesCurrent(s: Catalog, t: Catalog) {
    forall i {:trigger t.updates[i]} :: |s.updates| <= i < |t.updates| ==>
      && t.updates[i].publication < |t.publications|
      && Generation(s, t.publications[t.updates[i].publication].provider)
           <= t.publications[t.updates[i].publication].generation
  }

  lemma {:induction false} SupersedeAllIsLater(s: Catalog, ps: seq<ProviderId>)
    requires Inv(s)
    ensures Later(s, SupersedeAll(s, ps)) && SupersedeAll(s, ps).updates == s.updates
    decreases |ps|
  {
    if ps != [] {
      var t := Supersede(s, ps[0]);
      SupersedeFacts(s, ps[0]);
      SupersedeKeepsRefreshes(s, ps[0]);
      SupersedeKeepsInv(s, ps[0]);
      hide Inv, Supersede;
      SupersedeAllIsLater(t, ps[1..]);
    }
  }

  lemma SupersedingIsLater(s: Catalog, e: Event)
    requires Inv(s) && Enabled(s, e) && (e.SetProvider? || e.DeleteProvider? || e.ClearProviders? || e.Begins?)
    ensures Later(s, Next(s, e)) && Next(s, e).updates == s.updates
  {
    match e {
      case ClearProviders(order) => SupersedeAllIsLater(s, order);
      case SetProvider(p) => SupersedeAllIsLater(s, [p]);
      case DeleteProvider(p) => SupersedeAllIsLater(s, [p]);
      case Begins(p) => SupersedeAllIsLater(s, [p]);
    }
    hide Inv, Supersede;
    assert e.SetProvider? || e.DeleteProvider? || e.Begins? ==>
        SupersedeAll(s, [e.provider]) == Supersede(s, e.provider) by {
      if !e.ClearProviders? { assert [e.provider][1..] == []; }
    }
  }

  lemma ConcludeIsLater(s: Catalog, n: PublicationId)
    requires n < |s.publications| && s.publications[n].refresh < |s.refreshes|
    ensures Later(s, Conclude(s, n)) && NewUpdatesCurrent(s, Conclude(s, n))
  {
  }

  lemma PhaseIsLater(s: Catalog, n: PublicationId, phase: Phase)
    requires n < |s.publications|
    ensures Later(s, At(s, n, phase)) && NewUpdatesCurrent(s, At(s, n, phase))
  {
  }

  lemma OtherIsLater(s: Catalog, e: Event)
    requires Enabled(s, e) && (e.CallerAborts? || e.Ends? || e.Publishes? || e.StoreApplies? || e.TailForgotten?)
    ensures Later(s, Next(s, e)) && NewUpdatesCurrent(s, Next(s, e))
  {
  }

  lemma PublishingIsLater(s: Catalog, e: Event)
    requires Enabled(s, e) && !(e.SetProvider? || e.DeleteProvider? || e.ClearProviders? || e.Begins?)
    ensures Later(s, Next(s, e)) && NewUpdatesCurrent(s, Next(s, e))
  {
    hide Later, NewUpdatesCurrent, Conclude, At, MayGoOn;
    if e.Proceeds? || e.StoreReturns? {
      ConcludeIsLater(s, e.publication);
      PhaseIsLater(s, e.publication, Settled(false));
      PhaseIsLater(s, e.publication, Storing(false));
    } else {
      OtherIsLater(s, e);
    }
  }

  lemma StepIsLater(s: Catalog, e: Event)
    requires Inv(s) && Enabled(s, e)
    ensures Later(s, Next(s, e)) && NewUpdatesCurrent(s, Next(s, e))
  {
    hide Inv, Enabled, Next, Later;
    if e.SetProvider? || e.DeleteProvider? || e.ClearProviders? || e.Begins? {
      SupersedingIsLater(s, e);
    } else {
      PublishingIsLater(s, e);
    }
  }

  lemma LaterComposes(s: Catalog, t: Catalog, u: Catalog)
    requires Later(s, t) && Later(t, u) && NewUpdatesCurrent(s, t) && NewUpdatesCurrent(t, u)
    ensures Later(s, u) && NewUpdatesCurrent(s, u)
  {
    forall i | |s.updates| <= i < |u.updates|
      ensures u.updates[i].publication < |u.publications|
              && Generation(s, u.publications[u.updates[i].publication].provider)
                   <= u.publications[u.updates[i].publication].generation
    {
      if i < |t.updates| {
        assert u.updates[i] == t.updates[i];
      }
    }
  }

  lemma {:induction false} RunIsLater(s: Catalog, events: seq<Event>, t: Catalog)
    requires Inv(s) && Execute(s, events) == Some(t)
    ensures Later(s, t) && NewUpdatesCurrent(s, t)
    decreases |events|
  {
    hide Inv, Enabled, Next, Later, NewUpdatesCurrent;
    if events == [] {
      LaterRefl(s);
    } else {
      Preserved(s, events[0]);
      StepIsLater(s, events[0]);
      RunIsLater(Next(s, events[0]), events[1..], t);
      LaterComposes(s, Next(s, events[0]), t);
    }
  }

  lemma LaterRefl(s: Catalog)
    ensures Later(s, s) && NewUpdatesCurrent(s, s)
  {
  }

  /** Once a refresh has been superseded it never changes the memory again, however its remaining
      publications and store operations turn out. */
  lemma SupersededStaysSilent(before: seq<Event>, s: Catalog, after: seq<Event>, t: Catalog, r: RefreshId, i: nat)
    requires Reaches(before, s) && Execute(s, after) == Some(t)
    requires r < |s.refreshes| && s.refreshes[r].generation < Generation(s, s.refreshes[r].provider)
    requires |s.updates| <= i < |t.updates|
    ensures t.updates[i].publication < |t.publications| && t.publications[t.updates[i].publication].refresh != r
  {
    ReachedKeepsInv(before, s);
    RunIsLater(s, after, t);
    ExecutionKeepsInv(s, after, t);
    var n := t.updates[i].publication;
    assert PublicationSound(n, t.publications[n], t.refreshes);
    assert t.refreshes[r].generation == s.refreshes[r].generation;
    hide Inv;
  }

  /** A fetch publishes the models it stores, so right after its update memory and store agree. */
  lemma FetchLeavesMemoryAsStored(events: seq<Event>, s: Catalog, n: PublicationId)
    requires Reaches(events, s) && Enabled(s, StoreReturns(n, true)) && s.publications[n].persist.Write?
    requires s.publications[n].update == Some(s.publications[n].persist.entry) && MayGoOn(s, n)
    ensures var t := Next(s, StoreReturns(n, true));
            var p := s.publications[n].provider;
            && Lookup(t.memory, p) == Lookup(t.store, p) == Some(s.publications[n].persist.entry)
            && t.publications[n].phase == Settled(true)
  {
    ReachedKeepsInv(events, s);
    assert Holds(s.store, s.publications[n]);
    hide Inv;
  }
}
