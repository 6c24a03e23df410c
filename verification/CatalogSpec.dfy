/** Refreshing the model catalogs: generations and abort signals decide which asynchronous refresh may
    still write the store and the memory, and a chain of publications per provider keeps the writes apart. */
module CatalogSpec {
  import opened Wrappers

  type ProviderId = nat
  type RefreshId = nat
  type PublicationId = nat
  type Entry = nat

  /** One provider's part in a call of `refresh`. `aborted` is its own controller's signal, `callerAborted`
      the caller's; `ended` says that it has taken its controller out of the map again. */
  datatype Refresh = Refresh(provider: ProviderId, generation: nat, aborted: bool, callerAborted: bool, ended: bool)
  {
    predicate Cancelled() {
      aborted || callerAborted
    }
  }

  datatype Persist = Keep | Delete | Write(entry: Entry)

  /** Waiting for the publication before it, inside the store operation, or done. */
  datatype Phase = Waiting | Storing(applied: bool) | Settled(published: bool)

  datatype Publication = Publication(refresh: RefreshId, provider: ProviderId, generation: nat,
                                     previous: Option<PublicationId>, persist: Persist, update: Option<Entry>,
                                     phase: Phase)

  /** A store operation that has taken effect. */
  datatype Mutation = Mutation(provider: ProviderId, generation: nat, publication: PublicationId)

  /** An in-memory update, with what could be seen when it ran. */
  datatype Updated = Updated(publication: PublicationId, current: nat, cancelled: bool, stored: Option<Entry>)

  datatype Catalog = Catalog(
    providers: set<ProviderId>,
    generations: map<ProviderId, nat>,
    controllers: map<ProviderId, RefreshId>,
    chains: map<ProviderId, PublicationId>,
    refreshes: seq<Refresh>,
    publications: seq<Publication>,
    store: map<ProviderId, Entry>,
    memory: map<ProviderId, Entry>,
    mutations: seq<Mutation>,
    updates: seq<Updated>)

  function Initial(): Catalog {
    Catalog({}, map[], map[], map[], [], [], map[], map[], [], [])
  }

  function Lookup<K, V>(m: map<K, V>, k: K): Option<V> {
    if k in m then Some(m[k]) else None
  }

  function Generation(s: Catalog, p: ProviderId): nat {
    if p in s.generations then s.generations[p] else 0
  }

  /** `supersedeProviderRefresh` */
  function Supersede(s: Catalog, p: ProviderId): Catalog {
    var bumped := s.(generations := s.generations[p := Generation(s, p) + 1]);
    if p in s.controllers && s.controllers[p] < |s.refreshes| then
      var r := s.controllers[p];
      bumped.(controllers := s.controllers - {p}, refreshes := s.refreshes[r := s.refreshes[r].(aborted := true)])
    else bumped
  }

  function SupersedeAll(s: Catalog, ps: seq<ProviderId>): Catalog
    decreases |ps|
  {
    if ps == [] then s else SupersedeAll(Supersede(s, ps[0]), ps[1..])
  }

  function BeginRefresh(s: Catalog, p: ProviderId): Catalog {
    var t := Supersede(s, p);
    t.(controllers := t.controllers[p := |t.refreshes|],
       refreshes := t.refreshes + [Refresh(p, Generation(t, p), false, false, false)])
  }

  function Publish(s: Catalog, r: RefreshId, persist: Persist, update: Option<Entry>): Catalog
    requires r < |s.refreshes|
  {
    var p := s.refreshes[r].provider;
    s.(publications := s.publications + [Publication(r, p, s.refreshes[r].generation, Lookup(s.chains, p), persist,
                                                     update, Waiting)],
       chains := s.chains[p := |s.publications|])
  }

  function At(s: Catalog, n: PublicationId, phase: Phase): Catalog
    requires n < |s.publications|
  {
    s.(publications := s.publications[n := s.publications[n].(phase := phase)])
  }

  predicate MayGoOn(s: Catalog, n: PublicationId)
    requires n < |s.publications| && s.publications[n].refresh < |s.refreshes|
  {
    var pub := s.publications[n];
    !s.refreshes[pub.refresh].Cancelled() && Lookup(s.generations, pub.provider) == Some(pub.generation)
  }

  /** The second check and, if it passes, the in-memory update. */
  function Conclude(s: Catalog, n: PublicationId): Catalog
    requires n < |s.publications| && s.publications[n].refresh < |s.refreshes|
  {
    if !MayGoOn(s, n) then At(s, n, Settled(false))
    else
      var pub := s.publications[n];
      var settled := At(s, n, Settled(true));
      if pub.update.None? then settled
      else
        settled.(memory := s.memory[pub.provider := pub.update.value],
                 updates := s.updates + [Updated(n, Generation(s, pub.provider),
                                                 s.refreshes[pub.refresh].Cancelled(), Lookup(s.store, pub.provider))])
  }

  /** The publication's turn has come. */
  function Proceed(s: Catalog, n: PublicationId): Catalog
    requires n < |s.publications| && s.publications[n].refresh < |s.refreshes|
  {
    if !MayGoOn(s, n) then At(s, n, Settled(false))
    else if s.publications[n].persist.Keep? then Conclude(s, n)
    else At(s, n, Storing(false))
  }

  function Effect(persist: Persist, before: Option<Entry>): Option<Entry> {
    match persist
    case Keep => before
    case Delete => None
    case Write(entry) => Some(entry)
  }

  /** The store operation takes effect. */
  function Apply(s: Catalog, n: PublicationId): Catalog
    requires n < |s.publications|
  {
    var pub := s.publications[n];
    At(s, n, Storing(true)).(
      store := match pub.persist
               case Keep => s.store
               case Delete => s.store - {pub.provider}
               case Write(entry) => s.store[pub.provider := entry],
      mutations := s.mutations + [Mutation(pub.provider, pub.generation, n)])
  }

  datatype Event =
    | SetProvider(provider: ProviderId)
    | DeleteProvider(provider: ProviderId)
    | ClearProviders(order: seq<ProviderId>)
    | Begins(provider: ProviderId)
    | CallerAborts(refresh: RefreshId)
    | Ends(refresh: RefreshId)
    | Publishes(refresh: RefreshId, persist: Persist, update: Option<Entry>)
    | Proceeds(publication: PublicationId)
    | StoreApplies(publication: PublicationId)
    | StoreReturns(publication: PublicationId, ok: bool)
    | TailForgotten(publication: PublicationId)

  /** A list of exactly these, each once. */
  predicate Lists(order: seq<ProviderId>, ps: set<ProviderId>) {
    && (forall i, j :: 0 <= i < j < |order| ==> order[i] != order[j])
    && (forall p :: p in order ==> p in ps) && (forall p :: p in ps ==> p in order)
  }

  predicate PreviousSettled(s: Catalog, n: PublicationId)
    requires n < |s.publications|
  {
    var previous := s.publications[n].previous;
    previous.Some? ==> previous.value < |s.publications| && s.publications[previous.value].phase.Settled?
  }

  predicate Enabled(s: Catalog, e: Event) {
    match e
    case SetProvider(_) => true
    case DeleteProvider(_) => true
    case ClearProviders(order) => Lists(order, s.providers + s.controllers.Keys)
    case Begins(p) => p in s.providers
    case CallerAborts(r) => r < |s.refreshes|
    case Ends(r) => r < |s.refreshes| && !s.refreshes[r].ended
    case Publishes(r, _, _) => r < |s.refreshes|
    case Proceeds(n) =>
      && n < |s.publications| && s.publications[n].refresh < |s.refreshes|
      && s.publications[n].phase.Waiting? && PreviousSettled(s, n)
    case StoreApplies(n) => n < |s.publications| && s.publications[n].phase == Storing(false)
    case StoreReturns(n, ok) =>
      && n < |s.publications| && s.publications[n].refresh < |s.refreshes|
      && s.publications[n].phase == Storing(ok)
    case TailForgotten(n) =>
      n < |s.publications| && s.publications[n].phase.Settled? && Lookup(s.chains, s.publications[n].provider) == Some(n)
  }

  function Next(s: Catalog, e: Event): Catalog
    requires Enabled(s, e)
  {
    match e
    case SetProvider(p) => Supersede(s, p).(providers := s.providers + {p})
    case DeleteProvider(p) => Supersede(s, p).(providers := s.providers - {p})
    case ClearProviders(order) => SupersedeAll(s, order).(providers := {})
    case Begins(p) => BeginRefresh(s, p)
    case CallerAborts(r) => s.(refreshes := s.refreshes[r := s.refreshes[r].(callerAborted := true)])
    case Ends(r) =>
      var p := s.refreshes[r].provider;
      s.(refreshes := s.refreshes[r := s.refreshes[r].(ended := true)],
         controllers := if Lookup(s.controllers, p) == Some(r) then s.controllers - {p} else s.controllers)
    case Publishes(r, persist, update) => Publish(s, r, persist, update)
    case Proceeds(n) => Proceed(s, n)
    case StoreApplies(n) => Apply(s, n)
    case StoreReturns(n, ok) => if ok then Conclude(s, n) else At(s, n, Settled(false))
    case TailForgotten(n) => s.(chains := s.chains - {s.publications[n].provider})
  }

  function Execute(s: Catalog, events: seq<Event>): Option<Catalog>
    decreases |events|
  {
    if events == [] then Some(s)
    else if Enabled(s, events[0]) then Execute(Next(s, events[0]), events[1..])
    else None
  }

  predicate Reaches(events: seq<Event>, s: Catalog) {
    Execute(Initial(), events) == Some(s)
  }
}
