/** The catalog's own maps, updated in place, and the model list a provider shows. */
module CatalogRefresh {
  import opened Wrappers
  import opened CatalogSpec
  import opened CatalogProof

  class Models {
    var providers: set<ProviderId>
    var refreshGenerations: map<ProviderId, nat>
    var refreshControllers: map<ProviderId, RefreshId>
    var publicationChains: map<ProviderId, PublicationId>
    var refreshes: seq<Refresh>
    var publications: seq<Publication>
    var modelsStore: map<ProviderId, Entry>
    var memory: map<ProviderId, Entry>
    ghost var mutations: seq<Mutation>
    ghost var updates: seq<Updated>

    ghost function Model(): Catalog
      reads this
    {
      Catalog(providers, refreshGenerations, refreshControllers, publicationChains, refreshes, publications,
              modelsStore, memory, mutations, updates)
    }

    ghost predicate Valid()
      reads this
    {
      Inv(Model())
    }

    constructor ()
      ensures Valid() && Model() == Initial()
    {
      providers, refreshGenerations, refreshControllers, publicationChains := {}, map[], map[], map[];
      refreshes, publications, modelsStore, memory := [], [], map[], map[];
      mutations, updates := [], [];
    }

    method SupersedeProviderRefresh(p: ProviderId) returns (generation: nat)
      requires Valid()
      modifies this`refreshGenerations, this`refreshControllers, this`refreshes
      ensures Valid() && Model() == Supersede(old(Model()), p) && generation == Generation(Model(), p)
    {
      hide Inv;
      SupersedeKeepsInv(Model(), p);
      ControllersInRange(Model());
      generation := (if p in refreshGenerations then refreshGenerations[p] else 0) + 1;
      refreshGenerations := refreshGenerations[p := generation];
      if p in refreshControllers {
        var previous := refreshControllers[p];
        refreshControllers := refreshControllers - {p};
        refreshes := refreshes[previous := refreshes[previous].(aborted := true)];
      }
    }

    method SetProvider(p: ProviderId)
      requires Valid()
      modifies this
      ensures Valid() && Model() == Next(old(Model()), CatalogSpec.SetProvider(p))
    {
      Preserved(Model(), CatalogSpec.SetProvider(p));
      hide Inv;
      var _ := SupersedeProviderRefresh(p);
      providers := providers + {p};
    }

    method DeleteProvider(p: ProviderId)
      requires Valid()
      modifies this
      ensures Valid() && Model() == Next(old(Model()), CatalogSpec.DeleteProvider(p))
    {
      Preserved(Model(), CatalogSpec.DeleteProvider(p));
      hide Inv;
      var _ := SupersedeProviderRefresh(p);
      providers := providers - {p};
    }

    /** Supersedes every provider there is or that is being refreshed, in the given order. */
    method ClearProviders(order: seq<ProviderId>)
      requires Valid() && Lists(order, providers + refreshControllers.Keys)
      modifies this
      ensures Valid() && Model() == Next(old(Model()), CatalogSpec.ClearProviders(order))
      ensures refreshControllers == map[]
    {
      Preserved(Model(), CatalogSpec.ClearProviders(order));
      SupersedeAllDrops(Model(), order);
      hide Inv, SupersedeAll;
      SupersedeEach(order);
      providers := {};
    }

    method SupersedeEach(order: seq<ProviderId>)
      requires Valid()
      modifies this`refreshGenerations, this`refreshControllers, this`refreshes
      ensures Valid() && Model() == SupersedeAll(old(Model()), order)
    {
      hide Inv, Supersede;
      ghost var start := Model();
      for i := 0 to |order|
        invariant Valid() && Model() == SupersedeAll(start, order[..i])
      {
        SupersedeAllAppend(start, order[..i], order[i]);
        assert order[..i + 1] == order[..i] + [order[i]];
        var _ := SupersedeProviderRefresh(order[i]);
      }
      assert order[..|order|] == order;
    }

    method BeginProviderRefresh(p: ProviderId) returns (r: RefreshId)
      requires Valid() && p in providers
      modifies this
      ensures Valid() && Model() == Next(old(Model()), Begins(p)) && r == |old(refreshes)|
    {
      Preserved(Model(), Begins(p));
      SupersedeFacts(Model(), p);
      hide Inv;
      var generation := SupersedeProviderRefresh(p);
      r := |refreshes|;
      refreshes := refreshes + [Refresh(p, generation, false, false, false)];
      refreshControllers := refreshControllers[p := r];
    }

    /** The `finally` of a refresh: its controller goes unless a later refresh has replaced it. */
    method EndRefresh(r: RefreshId)
      requires Valid() && Enabled(Model(), Ends(r))
      modifies this
      ensures Valid() && Model() == Next(old(Model()), Ends(r))
    {
      Preserved(Model(), Ends(r));
      hide Inv;
      var p := refreshes[r].provider;
      if p in refreshControllers && refreshControllers[p] == r {
        refreshControllers := refreshControllers - {p};
      }
      refreshes := refreshes[r := refreshes[r].(ended := true)];
    }

    method PublishProviderModels(r: RefreshId, persist: Persist, update: Option<Entry>) returns (n: PublicationId)
      requires Valid() && r < |refreshes|
      modifies this
      ensures Valid() && Model() == Next(old(Model()), Publishes(r, persist, update)) && n == |old(publications)|
    {
      Preserved(Model(), Publishes(r, persist, update));
      hide Inv;
      var p := refreshes[r].provider;
      var previous := Lookup(publicationChains, p);
      n := |publications|;
      publications := publications + [Publication(r, p, refreshes[r].generation, previous, persist, update, Waiting)];
      publicationChains := publicationChains[p := n];
    }

    method SettlePublication(n: PublicationId, phase: Phase)
      requires n < |publications|
      modifies this`publications
      ensures Model() == At(old(Model()), n, phase)
    {
      publications := publications[n := publications[n].(phase := phase)];
    }

    method ConcludePublication(n: PublicationId)
      requires n < |publications| && publications[n].refresh < |refreshes|
      modifies this`publications, this`memory, this`updates
      ensures Model() == Conclude(old(Model()), n)
    {
      var pub := publications[n];
      var refresh := refreshes[pub.refresh];
      if refresh.Cancelled() || Lookup(refreshGenerations, pub.provider) != Some(pub.generation) {
        SettlePublication(n, Settled(false));
        return;
      }
      if pub.update.Some? {
        memory := memory[pub.provider := pub.update.value];
        updates := updates + [Updated(n, pub.generation, false, Lookup(modelsStore, pub.provider))];
      }
      SettlePublication(n, Settled(true));
    }

    /** The publication before it has settled. */
    method ProceedPublication(n: PublicationId)
      requires Valid() && Enabled(Model(), Proceeds(n))
      modifies this
      ensures Valid() && Model() == Next(old(Model()), Proceeds(n))
    {
      Preserved(Model(), Proceeds(n));
      hide Inv, Conclude;
      var pub := publications[n];
      var refresh := refreshes[pub.refresh];
      if refresh.Cancelled() || Lookup(refreshGenerations, pub.provider) != Some(pub.generation) {
        SettlePublication(n, Settled(false));
      } else if pub.persist.Keep? {
        ConcludePublication(n);
      } else {
        SettlePublication(n, Storing(false));
      }
    }

    method ApplyToStore(n: PublicationId)
      requires Valid() && Enabled(Model(), StoreApplies(n))
      modifies this
      ensures Valid() && Model() == Next(old(Model()), StoreApplies(n))
    {
      Preserved(Model(), StoreApplies(n));
      hide Inv;
      var pub := publications[n];
      match pub.persist {
        case Keep =>
        case Delete => modelsStore := modelsStore - {pub.provider};
        case Write(entry) => modelsStore := modelsStore[pub.provider := entry];
      }
      mutations := mutations + [Mutation(pub.provider, pub.generation, n)];
      SettlePublication(n, Storing(true));
    }

    method StoreReturned(n: PublicationId, ok: bool)
      requires Valid() && Enabled(Model(), StoreReturns(n, ok))
      modifies this
      ensures Valid() && Model() == Next(old(Model()), StoreReturns(n, ok))
    {
      Preserved(Model(), StoreReturns(n, ok));
      hide Inv, Conclude;
      if ok {
        ConcludePublication(n);
      } else {
        SettlePublication(n, Settled(false));
      }
    }

    method ForgetTail(n: PublicationId)
      requires Valid() && Enabled(Model(), TailForgotten(n))
      modifies this
      ensures Valid() && Model() == Next(old(Model()), TailForgotten(n))
    {
      Preserved(Model(), TailForgotten(n));
      hide Inv;
      publicationChains := publicationChains - {publications[n].provider};
    }
  }

  lemma ControllersInRange(s: Catalog)
    requires Inv(s)
    ensures forall p :: p in s.controllers ==> s.controllers[p] < |s.refreshes|
  {
    hide PublicationsSound, MutationsSound, AllOrdered, TailSound, NoneAhead, AllHold, UpdatesSound;
  }

  lemma {:induction false} SupersedeAllDrops(s: Catalog, ps: seq<ProviderId>)
    requires Inv(s)
    ensures forall q :: q in SupersedeAll(s, ps).controllers ==> q in s.controllers && q !in ps
    decreases |ps|
  {
    if ps != [] {
      SupersedeFacts(s, ps[0]);
      SupersedeKeepsInv(s, ps[0]);
      hide Inv, Supersede;
      SupersedeAllDrops(Supersede(s, ps[0]), ps[1..]);
    }
  }

  lemma {:induction false} SupersedeAllAppend(s: Catalog, ps: seq<ProviderId>, p: ProviderId)
    ensures SupersedeAll(s, ps + [p]) == Supersede(SupersedeAll(s, ps), p)
    decreases |ps|
  {
    hide Supersede;
    if ps == [] {
      assert [p][1..] == [];
      assert SupersedeAll(Supersede(s, p), []) == Supersede(s, p);
    } else {
      assert (ps + [p])[1..] == ps[1..] + [p];
      SupersedeAllAppend(Supersede(s, ps[0]), ps[1..], p);
    }
  }

  // ---- the overlay of a created provider -------------------------------------------------------

  datatype Listed = Listed(id: nat, data: nat)

  function FindIndex(models: seq<Listed>, id: nat): (k: nat)
    ensures k <= |models| && (k < |models| ==> models[k].id == id)
    ensures forall i :: 0 <= i < k ==> models[i].id != id
    decreases |models|
  {
    if models == [] || models[0].id == id then 0 else 1 + FindIndex(models[1..], id)
  }

  /** The model of that id, as a lookup in the list finds it. */
  function Find(models: seq<Listed>, id: nat): Option<Listed> {
    var k := FindIndex(models, id);
    if k < |models| then Some(models[k]) else None
  }

  function Put(models: seq<Listed>, m: Listed): seq<Listed> {
    var k := FindIndex(models, m.id);
    if k < |models| then models[k := m] else models + [m]
  }

  function Overlay(baseline: seq<Listed>, dynamic: seq<Listed>): seq<Listed>
    decreases |dynamic|
  {
    if dynamic == [] then baseline
    else Put(Overlay(baseline, dynamic[..|dynamic| - 1]), dynamic[|dynamic| - 1])
  }

  /** The last of the dynamic models with that id. */
  function Latest(dynamic: seq<Listed>, id: nat): Option<Listed>
    decreases |dynamic|
  {
    if dynamic == [] then None
    else if dynamic[|dynamic| - 1].id == id then Some(dynamic[|dynamic| - 1])
    else Latest(dynamic[..|dynamic| - 1], id)
  }

  method CurrentModels(baseline: seq<Listed>, dynamic: seq<Listed>) returns (merged: seq<Listed>)
    ensures merged == Overlay(baseline, dynamic)
  {
    merged := baseline;
    for i := 0 to |dynamic|
      invariant merged == Overlay(baseline, dynamic[..i])
    {
      assert dynamic[..i + 1][..i] == dynamic[..i];
      var model, index := dynamic[i], 0;
      while index < |merged| && merged[index].id != model.id
        invariant 0 <= index <= |merged| && forall j :: 0 <= j < index ==> merged[j].id != model.id
      {
        index := index + 1;
      }
      if index < |merged| {
        merged := merged[index := model];
      } else {
        merged := merged + [model];
      }
    }
    assert dynamic[..|dynamic|] == dynamic;
  }

  lemma PutFinds(models: seq<Listed>, m: Listed, id: nat)
    ensures Find(Put(models, m), id) == if id == m.id then Some(m) else Find(models, id)
  {
    var after, k, j := Put(models, m), FindIndex(models, m.id), FindIndex(Put(models, m), id);
    if id == m.id {
      assert after[k] == m;
      assert j == k;
    } else {
      var i := FindIndex(models, id);
      if i < |models| {
        assert after[i] == models[i];
        assert j == i;
      } else {
        assert forall x :: 0 <= x < |after| ==> after[x].id != id;
      }
    }
  }

  /** A lookup in the merged list finds the latest dynamic model of that id and otherwise the baseline's. */
  lemma {:induction false} OverlayFinds(baseline: seq<Listed>, dynamic: seq<Listed>, id: nat)
    ensures Find(Overlay(baseline, dynamic), id)
         == if Latest(dynamic, id).Some? then Latest(dynamic, id) else Find(baseline, id)
    decreases |dynamic|
  {
    if dynamic != [] {
      OverlayFinds(baseline, dynamic[..|dynamic| - 1], id);
      PutFinds(Overlay(baseline, dynamic[..|dynamic| - 1]), dynamic[|dynamic| - 1], id);
    }
  }

  predicate DistinctIds(models: seq<Listed>) {
    forall i, j :: 0 <= i < j < |models| ==> models[i].id != models[j].id
  }

  /** Baseline models keep their places, nothing appears twice, and nothing appears from nowhere. */
  lemma {:induction false} OverlayKeepsPlaces(baseline: seq<Listed>, dynamic: seq<Listed>)
    requires DistinctIds(baseline)
    ensures var merged := Overlay(baseline, dynamic);
            && DistinctIds(merged) && |baseline| <= |merged|
            && (forall i :: 0 <= i < |baseline| ==> merged[i].id == baseline[i].id)
            && (forall m :: m in merged ==> m in baseline || m in dynamic)
    decreases |dynamic|
  {
    if dynamic != [] {
      OverlayKeepsPlaces(baseline, dynamic[..|dynamic| - 1]);
      var rest, last := Overlay(baseline, dynamic[..|dynamic| - 1]), dynamic[|dynamic| - 1];
      assert dynamic == dynamic[..|dynamic| - 1] + [last];
      forall m | m in Put(rest, last) ensures m in rest || m == last {
      }
    }
  }
}
