// The end of the parser: everything the services need, gathered into one state
// in which no two objects of any kind share a key.
module Building {
  import opened Entities
  import opened Stable

  datatype ServiceAPI = ServiceAPI(api: ParserAPI, routings: seq<RawRouting>)
  datatype Service = Service(apis: seq<ServiceAPI>, cluster: Entity, servers: seq<Entity>)

  // A candidate for the state.
  datatype Item =
    | APIItem(api: ParserAPI)
    | RoutingItem(routing: RawRouting)
    | ClusterItem(cluster: ParserCluster)
    | ServerItem(server: Entity)
  {
    // Name, or Addr for a server; all kinds share one map of keys.
    function Key(): string {
      match this
      case APIItem(a) => a.api.Name()
      case RoutingItem(r) => r.routing.Name()
      case ClusterItem(c) => c.cluster.Name()
      case ServerItem(s) => s.Name()
    }
  }

  function RoutingItems(routings: seq<RawRouting>): (r: seq<Item>)
    ensures |r| == |routings|
  {
    seq(|routings|, i requires 0 <= i < |routings| => RoutingItem(routings[i]))
  }

  function ServerItems(servers: seq<Entity>): (r: seq<Item>)
    ensures |r| == |servers|
  {
    seq(|servers|, i requires 0 <= i < |servers| => ServerItem(servers[i]))
  }

  function APIItems(): ServiceAPI -> seq<Item> {
    (a: ServiceAPI) => [APIItem(a.api)] + RoutingItems(a.routings)
  }

  // The candidates of a service in the order they are offered.
  function ServiceItems(): Service -> seq<Item> {
    (s: Service) =>
      FlatMap(s.apis, APIItems()) + [ClusterItem(ParserCluster(s.cluster, s.servers))] + ServerItems(s.servers)
  }

  function Keys(items: seq<Item>): set<string> {
    set x | x in items :: x.Key()
  }

  // Keeps the first candidate of each key.
  function Sift(items: seq<Item>): seq<Item> {
    if items == [] then []
    else
      var init, x := items[..|items| - 1], items[|items| - 1];
      Sift(init) + if x.Key() in Keys(init) then [] else [x]
  }

  function AsAPI(): Item -> seq<ParserAPI> { (x: Item) => if x.APIItem? then [x.api] else [] }
  function AsRouting(): Item -> seq<RawRouting> { (x: Item) => if x.RoutingItem? then [x.routing] else [] }
  function AsCluster(): Item -> seq<ParserCluster> { (x: Item) => if x.ClusterItem? then [x.cluster] else [] }
  function AsServer(): Item -> seq<Entity> { (x: Item) => if x.ServerItem? then [x.server] else [] }

  function StateOf(items: seq<Item>): ParserState {
    ParserState(FlatMap(items, AsAPI()), FlatMap(items, AsServer()), FlatMap(items, AsCluster()),
                FlatMap(items, AsRouting()))
  }

  // ---- What sifting keeps -------------------------------------------------------------

  ghost predicate DistinctItems(items: seq<Item>) {
    forall i, j | 0 <= i < j < |items| :: items[i].Key() != items[j].Key()
  }

  lemma KeysAppend(items: seq<Item>, x: Item)
    ensures Keys(items + [x]) == Keys(items) + {x.Key()}
  {
  }

  // Every key survives, and no key survives twice.
  lemma {:induction false} SiftKeepsKeys(items: seq<Item>)
    ensures Keys(Sift(items)) == Keys(items)
    ensures DistinctItems(Sift(items))
  {
    if items != [] {
      var init, x := items[..|items| - 1], items[|items| - 1];
      assert items == init + [x];
      SiftKeepsKeys(init);
      KeysAppend(init, x);
      KeysAppend(Sift(init), x);
      if x.Key() in Keys(init) {
        assert Sift(items) == Sift(init);
      } else {
        assert forall i | 0 <= i < |Sift(init)| :: Sift(init)[i].Key() in Keys(Sift(init));
      }
    }
  }

  // What survives under a key is the first candidate that has it.
  lemma {:induction false} FirstOfKey(items: seq<Item>, i: nat) returns (f: nat)
    requires i < |items|
    ensures f <= i && items[f].Key() == items[i].Key() && items[f] in Sift(items)
    ensures forall k | 0 <= k < f :: items[k].Key() != items[i].Key()
  {
    var init, x := items[..|items| - 1], items[|items| - 1];
    assert items == init + [x];
    if i < |init| {
      f := FirstOfKey(init, i);
    } else if x.Key() in Keys(init) {
      var y :| y in init && y.Key() == x.Key();
      var k :| 0 <= k < |init| && init[k] == y;
      f := FirstOfKey(init, k);
    } else {
      f := i;
      assert forall k | 0 <= k < i :: items[k] == init[k] && init[k] in init;
    }
  }

  // Whichever two survivors share a key are one.
  lemma SurvivorsDiffer(items: seq<Item>, x: Item, y: Item)
    requires x in Sift(items) && y in Sift(items) && x.Key() == y.Key()
    ensures x == y
  {
    SiftKeepsKeys(items);
    var kept := Sift(items);
    var i :| 0 <= i < |kept| && kept[i] == x;
    var j :| 0 <= j < |kept| && kept[j] == y;
    assert i == j;
  }

  // A candidate nothing else shares its key with is kept.
  lemma KeptWhenAlone(items: seq<Item>, x: Item)
    requires x in items && forall y | y in items && y.Key() == x.Key() :: y == x
    ensures x in Sift(items)
  {
    var i :| 0 <= i < |items| && items[i] == x;
    var f := FirstOfKey(items, i);
    assert items[f] in items;
  }

  // No object is lost, however often it is offered, exactly when candidates with
  // equal keys are equal.
  lemma NothingLostIff(items: seq<Item>)
    ensures (forall x | x in items :: x in Sift(items)) <==>
              (forall x, y | x in items && y in items && x.Key() == y.Key() :: x == y)
  {
    if forall x | x in items :: x in Sift(items) {
      forall x, y | x in items && y in items && x.Key() == y.Key()
        ensures x == y
      {
        SurvivorsDiffer(items, x, y);
      }
    }
    if forall x, y | x in items && y in items && x.Key() == y.Key() :: x == y {
      forall x | x in items
        ensures x in Sift(items)
      {
        KeptWhenAlone(items, x);
      }
    }
  }

  // ---- Build ------------------------------------------------------------------------------

  // The state and the keys taken so far, after these candidates.
  ghost predicate Gathered(state: ParserState, keys: set<string>, items: seq<Item>) {
    state == StateOf(Sift(items)) && keys == Keys(items)
  }

  function Append(state: ParserState, x: Item): ParserState {
    match x
    case APIItem(a) => state.(apis := state.apis + [a])
    case RoutingItem(r) => state.(routings := state.routings + [r])
    case ClusterItem(c) => state.(clusters := state.clusters + [c])
    case ServerItem(s) => state.(servers := state.servers + [s])
  }

  lemma StateOfAppend(items: seq<Item>, x: Item)
    ensures StateOf(items + [x]) == Append(StateOf(items), x)
  {
  }

  // check, and the append it guards.
  method Offer(state0: ParserState, keys0: set<string>, x: Item, ghost items: seq<Item>)
    returns (state: ParserState, keys: set<string>)
    requires Gathered(state0, keys0, items)
    ensures Gathered(state, keys, items + [x])
  {
    assert (items + [x])[..|items|] == items;
    KeysAppend(items, x);
    state, keys := state0, keys0;
    if x.Key() !in keys {
      StateOfAppend(Sift(items), x);
      keys := keys + {x.Key()};
      state := Append(state, x);
    } else {
      assert Sift(items + [x]) == Sift(items);
    }
  }

  lemma OneMoreItem(items: seq<Item>, xs: seq<Item>, i: nat)
    requires i < |xs|
    ensures items + xs[..i] + [xs[i]] == items + xs[..i + 1]
  {
  }

  method OfferAll(state0: ParserState, keys0: set<string>, xs: seq<Item>, ghost items: seq<Item>)
    returns (state: ParserState, keys: set<string>)
    requires Gathered(state0, keys0, items)
    ensures Gathered(state, keys, items + xs)
  {
    state, keys := state0, keys0;
    ghost var done := items;
    assert items + xs[..0] == items;
    for i := 0 to |xs|
      invariant done == items + xs[..i]
      invariant Gathered(state, keys, done)
    {
      state, keys := Offer(state, keys, xs[i], done);
      OneMoreItem(items, xs, i);
      done := done + [xs[i]];
    }
    assert xs[..|xs|] == xs;
  }

  lemma FlatMapNext<T, U>(xs: seq<T>, i: nat, f: T -> seq<U>)
    requires i < |xs|
    ensures FlatMap(xs[..i + 1], f) == FlatMap(xs[..i], f) + f(xs[i])
  {
    assert xs[..i + 1][..i] == xs[..i];
  }

  method OfferAPI(state0: ParserState, keys0: set<string>, a: ServiceAPI, ghost items: seq<Item>)
    returns (state: ParserState, keys: set<string>)
    requires Gathered(state0, keys0, items)
    ensures Gathered(state, keys, items + APIItems()(a))
  {
    state, keys := Offer(state0, keys0, APIItem(a.api), items);
    state, keys := OfferAll(state, keys, RoutingItems(a.routings), items + [APIItem(a.api)]);
    assert items + [APIItem(a.api)] + RoutingItems(a.routings) == items + APIItems()(a);
  }

  lemma OneMoreAPI(items: seq<Item>, apis: seq<ServiceAPI>, i: nat)
    requires i < |apis|
    ensures items + FlatMap(apis[..i], APIItems()) + APIItems()(apis[i]) == items + FlatMap(apis[..i + 1], APIItems())
  {
    FlatMapNext(apis, i, APIItems());
  }

  method OfferAPIs(state0: ParserState, keys0: set<string>, apis: seq<ServiceAPI>, ghost items: seq<Item>)
    returns (state: ParserState, keys: set<string>)
    requires Gathered(state0, keys0, items)
    ensures Gathered(state, keys, items + FlatMap(apis, APIItems()))
  {
    state, keys := state0, keys0;
    ghost var done := items;
    for i := 0 to |apis|
      invariant done == items + FlatMap(apis[..i], APIItems())
      invariant Gathered(state, keys, done)
    {
      state, keys := OfferAPI(state, keys, apis[i], done);
      done := done + APIItems()(apis[i]);
      OneMoreAPI(items, apis, i);
    }
    assert apis[..|apis|] == apis;
  }

  method OfferService(state0: ParserState, keys0: set<string>, s: Service, ghost items: seq<Item>)
    returns (state: ParserState, keys: set<string>)
    requires Gathered(state0, keys0, items)
    ensures Gathered(state, keys, items + ServiceItems()(s))
  {
    state, keys := OfferAPIs(state0, keys0, s.apis, items);
    ghost var done := items + FlatMap(s.apis, APIItems());
    var cluster := ClusterItem(ParserCluster(s.cluster, s.servers));
    state, keys := Offer(state, keys, cluster, done);
    done := done + [cluster];
    state, keys := OfferAll(state, keys, ServerItems(s.servers), done);
    ServiceOrder(items, s);
  }

  lemma ServiceOrder(items: seq<Item>, s: Service)
    ensures items + FlatMap(s.apis, APIItems()) + [ClusterItem(ParserCluster(s.cluster, s.servers))]
            + ServerItems(s.servers)
         == items + ServiceItems()(s)
  {
  }

  // Some service has the object.
  ghost predicate Offered(services: seq<Service>, item: Item) {
    match item
    case APIItem(a) => exists s, sa :: s in services && sa in s.apis && a == sa.api
    case RoutingItem(r) => exists s, sa :: s in services && sa in s.apis && r in sa.routings
    case ClusterItem(c) => exists s :: s in services && c == ParserCluster(s.cluster, s.servers)
    case ServerItem(x) => exists s :: s in services && x in s.servers
  }

  predicate InState(state: ParserState, item: Item) {
    match item
    case APIItem(a) => a in state.apis
    case RoutingItem(r) => r in state.routings
    case ClusterItem(c) => c in state.clusters
    case ServerItem(x) => x in state.servers
  }

  // The state has objects of the services only, one for each key there is.
  ghost predicate BuiltOf(services: seq<Service>, state: ParserState) {
    && (forall item | InState(state, item) :: Offered(services, item))
    && (forall item | Offered(services, item) :: exists kept :: InState(state, kept) && kept.Key() == item.Key())
    && (forall x, y | InState(state, x) && InState(state, y) && x.Key() == y.Key() :: x == y)
  }

  lemma InAPIItems(sa: ServiceAPI, item: Item)
    ensures item in APIItems()(sa) <==>
              item == APIItem(sa.api) || (item.RoutingItem? && item.routing in sa.routings)
  {
    if item.RoutingItem? && item.routing in sa.routings {
      var i :| 0 <= i < |sa.routings| && sa.routings[i] == item.routing;
      assert RoutingItems(sa.routings)[i] == item;
    }
  }

  lemma InServerItems(servers: seq<Entity>, item: Item)
    ensures item in ServerItems(servers) <==> item.ServerItem? && item.server in servers
  {
    if item.ServerItem? && item.server in servers {
      var i :| 0 <= i < |servers| && servers[i] == item.server;
      assert ServerItems(servers)[i] == item;
    }
  }

  ghost predicate OfferedBy(s: Service, item: Item) {
    match item
    case APIItem(a) => exists sa :: sa in s.apis && a == sa.api
    case RoutingItem(r) => exists sa :: sa in s.apis && r in sa.routings
    case ClusterItem(c) => c == ParserCluster(s.cluster, s.servers)
    case ServerItem(x) => x in s.servers
  }

  lemma InServiceItems(s: Service, item: Item)
    ensures item in ServiceItems()(s) <==> OfferedBy(s, item)
  {
    InServerItems(s.servers, item);
    if item in FlatMap(s.apis, APIItems()) {
      var i := InFlatMap(s.apis, APIItems(), item);
      InAPIItems(s.apis[i], item);
    }
    if sa :| sa in s.apis && (item == APIItem(sa.api) || (item.RoutingItem? && item.routing in sa.routings)) {
      InAPIItems(sa, item);
      var i :| 0 <= i < |s.apis| && s.apis[i] == sa;
      FlatMapHas(s.apis, APIItems(), i, item);
    }
  }

  // The candidates are exactly the objects of the services.
  lemma OfferedIff(services: seq<Service>, item: Item)
    ensures item in ItemsOf(services) <==> Offered(services, item)
  {
    if item in ItemsOf(services) {
      var i := InFlatMap(services, ServiceItems(), item);
      InServiceItems(services[i], item);
    }
    if s :| s in services && OfferedBy(s, item) {
      InServiceItems(s, item);
      var i :| 0 <= i < |services| && services[i] == s;
      FlatMapHas(services, ServiceItems(), i, item);
    } else {
      NoneOffers(services, item);
    }
  }

  lemma NoneOffers(services: seq<Service>, item: Item)
    requires forall s | s in services :: !OfferedBy(s, item)
    ensures !Offered(services, item)
  {
  }

  lemma InStateIff(kept: seq<Item>, item: Item)
    ensures InState(StateOf(kept), item) <==> item in kept
  {
    if item in kept {
      var k :| 0 <= k < |kept| && kept[k] == item;
      match item
      case APIItem(a) => FlatMapHas(kept, AsAPI(), k, a);
      case RoutingItem(r) => FlatMapHas(kept, AsRouting(), k, r);
      case ClusterItem(c) => FlatMapHas(kept, AsCluster(), k, c);
      case ServerItem(x) => FlatMapHas(kept, AsServer(), k, x);
    }
    if InState(StateOf(kept), item) {
      match item
      case APIItem(a) => var k := InFlatMap(kept, AsAPI(), a);
      case RoutingItem(r) => var k := InFlatMap(kept, AsRouting(), r);
      case ClusterItem(c) => var k := InFlatMap(kept, AsCluster(), c);
      case ServerItem(x) => var k := InFlatMap(kept, AsServer(), x);
    }
  }

  lemma SiftedIsBuilt(services: seq<Service>)
    ensures BuiltOf(services, StateOf(Sift(ItemsOf(services))))
  {
    var items := ItemsOf(services);
    var state := StateOf(Sift(items));
    forall item | InState(state, item)
      ensures Offered(services, item)
    {
      InStateIff(Sift(items), item);
      SiftIsPart(items, item);
      OfferedIff(services, item);
    }
    forall item | Offered(services, item)
      ensures exists kept :: InState(state, kept) && kept.Key() == item.Key()
    {
      OfferedIff(services, item);
      var kept := Survivor(items, item);
      InStateIff(Sift(items), kept);
    }
    forall x, y | InState(state, x) && InState(state, y) && x.Key() == y.Key()
      ensures x == y
    {
      InStateIff(Sift(items), x);
      InStateIff(Sift(items), y);
      SurvivorsDiffer(items, x, y);
    }
  }

  lemma Survivor(items: seq<Item>, item: Item) returns (kept: Item)
    requires item in items
    ensures kept in Sift(items) && kept.Key() == item.Key()
  {
    var i :| 0 <= i < |items| && items[i] == item;
    var f := FirstOfKey(items, i);
    kept := items[f];
  }

  // The services come in the order Go happens to range over their map.
  method Build(services: seq<Service>) returns (state: ParserState)
    ensures state == StateOf(Sift(ItemsOf(services)))
    ensures BuiltOf(services, state)
  {
    SiftedIsBuilt(services);
    state := ParserState([], [], [], []);
    var keys := {};
    ghost var done: seq<Item> := [];
    for i := 0 to |services|
      invariant done == FlatMap(services[..i], ServiceItems())
      invariant Gathered(state, keys, done)
    {
      state, keys := OfferService(state, keys, services[i], done);
      FlatMapNext(services, i, ServiceItems());
      done := done + ServiceItems()(services[i]);
    }
    assert services[..|services|] == services;
  }

  // ---- What toStable relies on --------------------------------------------------------------

  lemma {:induction false} ProjectionOf<T>(items: seq<Item>, f: Item -> seq<T>, i: nat) returns (k: nat)
    requires i < |FlatMap(items, f)| && forall x | x in items :: |f(x)| <= 1
    ensures k < |items| && f(items[k]) == [FlatMap(items, f)[i]]
  {
    var init, x := items[..|items| - 1], items[|items| - 1];
    assert items == init + [x];
    if i < |FlatMap(init, f)| {
      k := ProjectionOf(init, f, i);
    } else {
      k := |init|;
    }
  }

  // A projection that reads the key off its item inherits distinctness.
  lemma {:induction false} ProjectionDistinct<T>(items: seq<Item>, f: Item -> seq<T>, key: T -> string)
    requires DistinctItems(items)
    requires forall x: Item :: f(x) == [] || (|f(x)| == 1 && key(f(x)[0]) == x.Key())
    ensures forall i, j | 0 <= i < j < |FlatMap(items, f)| :: key(FlatMap(items, f)[i]) != key(FlatMap(items, f)[j])
  {
    if items != [] {
      var init, x := items[..|items| - 1], items[|items| - 1];
      assert items == init + [x];
      ProjectionDistinct(init, f, key);
      var front := FlatMap(init, f);
      forall i | 0 <= i < |front|
        ensures key(front[i]) != x.Key()
      {
        var k := ProjectionOf(init, f, i);
        assert items[k] == init[k];
      }
    }
  }

  function ParserAPIKey(): ParserAPI -> string { (a: ParserAPI) => a.api.Name() }
  function ClusterKey(): ParserCluster -> string { (c: ParserCluster) => c.cluster.Name() }

  // Build hands toStable objects with distinct names in every kind.
  lemma BuildIsDistinct(items: seq<Item>)
    requires forall x | x in items && x.APIItem? :: Keyed(x.api.proxies)
    ensures Distinct(StateOf(Sift(items)))
  {
    SiftKeepsKeys(items);
    forall x | x in Sift(items)
      ensures x.APIItem? ==> Keyed(x.api.proxies)
    {
      SiftIsPart(items, x);
    }
    KeptAreDistinct(Sift(items));
  }

  lemma KeptAreDistinct(kept: seq<Item>)
    requires DistinctItems(kept) && forall x | x in kept :: x.APIItem? ==> Keyed(x.api.proxies)
    ensures Distinct(StateOf(kept))
  {
    APIsDistinct(kept);
    APIsKeyed(kept);
    ClustersDistinct(kept);
    ProjectionDistinct(kept, AsServer(), NameKey());
    ProjectionDistinct(kept, AsRouting(), RoutingKey());
  }

  lemma APIsKeyed(kept: seq<Item>)
    requires forall x | x in kept :: x.APIItem? ==> Keyed(x.api.proxies)
    ensures forall i | 0 <= i < |StateOf(kept).apis| :: Keyed(StateOf(kept).apis[i].proxies)
  {
    forall i | 0 <= i < |StateOf(kept).apis|
      ensures Keyed(StateOf(kept).apis[i].proxies)
    {
      var k := ProjectionOf(kept, AsAPI(), i);
      assert kept[k] in kept;
    }
  }

  lemma APIsDistinct(kept: seq<Item>)
    requires DistinctItems(kept)
    ensures
      var apis := StateOf(kept).apis;
      forall i, j | 0 <= i < j < |apis| :: apis[i].api.Name() != apis[j].api.Name()
  {
    ProjectionDistinct(kept, AsAPI(), ParserAPIKey());
    var apis := StateOf(kept).apis;
    forall i, j | 0 <= i < j < |apis|
      ensures apis[i].api.Name() != apis[j].api.Name()
    {
      assert ParserAPIKey()(apis[i]) != ParserAPIKey()(apis[j]);
    }
  }

  lemma ClustersDistinct(kept: seq<Item>)
    requires DistinctItems(kept)
    ensures
      var clusters := StateOf(kept).clusters;
      forall i, j | 0 <= i < j < |clusters| :: clusters[i].cluster.Name() != clusters[j].cluster.Name()
  {
    ProjectionDistinct(kept, AsCluster(), ClusterKey());
    var clusters := StateOf(kept).clusters;
    forall i, j | 0 <= i < j < |clusters|
      ensures clusters[i].cluster.Name() != clusters[j].cluster.Name()
    {
      assert ClusterKey()(clusters[i]) != ClusterKey()(clusters[j]);
    }
  }

  lemma {:induction false} SiftIsPart(items: seq<Item>, x: Item)
    requires x in Sift(items)
    ensures x in items
  {
    if items != [] && x in Sift(items[..|items| - 1]) {
      SiftIsPart(items[..|items| - 1], x);
    }
  }

  // ---- The order of the services -----------------------------------------------------------

  function FirstWith(items: seq<Item>, key: string): Option<Item> {
    if items == [] then None
    else if items[0].Key() == key then Some(items[0])
    else FirstWith(items[1..], key)
  }

  lemma {:induction false} FirstWithIff(items: seq<Item>, key: string)
    ensures FirstWith(items, key).None? <==> forall x | x in items :: x.Key() != key
    ensures FirstWith(items, key).Some? ==>
              FirstWith(items, key).value in items && FirstWith(items, key).value.Key() == key
  {
    if items != [] {
      FirstWithIff(items[1..], key);
      assert items == [items[0]] + items[1..];
    }
  }

  lemma {:induction false} FirstWithAppend(xs: seq<Item>, ys: seq<Item>, key: string)
    ensures FirstWith(xs + ys, key) == if FirstWith(xs, key).Some? then FirstWith(xs, key) else FirstWith(ys, key)
  {
    if xs == [] {
      assert xs + ys == ys;
    } else {
      assert (xs + ys)[1..] == xs[1..] + ys;
      FirstWithAppend(xs[1..], ys, key);
    }
  }

  // The survivor under a key is the first candidate with it.
  lemma {:induction false} SiftIsFirst(items: seq<Item>, x: Item)
    ensures x in Sift(items) <==> FirstWith(items, x.Key()) == Some(x)
  {
    if items != [] {
      var init, last := items[..|items| - 1], items[|items| - 1];
      assert items == init + [last];
      SiftIsFirst(init, x);
      FirstWithAppend(init, [last], x.Key());
      FirstWithIff(init, x.Key());
      FirstOfOne(last, x.Key());
    }
  }

  lemma FirstOfOne(x: Item, key: string)
    ensures FirstWith([x], key) == if x.Key() == key then Some(x) else None
  {
    assert [x][1..] == [];
    assert FirstWith([x][1..], key) == None;
  }

  function FirstIn(s: Service, key: string): Option<Item> {
    FirstWith(ServiceItems()(s), key)
  }

  // Services that offer an object under one key offer the same one first.
  ghost predicate Agree(services: seq<Service>) {
    forall s, t, key | s in services && t in services && FirstIn(s, key).Some? && FirstIn(t, key).Some? ::
      FirstIn(s, key) == FirstIn(t, key)
  }

  function ItemsOf(services: seq<Service>): seq<Item> {
    FlatMap(services, ServiceItems())
  }

  lemma {:induction false} FirstOfServices(services: seq<Service>, key: string)
    ensures FirstWith(ItemsOf(services), key).None? <==> forall s | s in services :: FirstIn(s, key).None?
    ensures FirstWith(ItemsOf(services), key).Some? ==>
              exists s :: s in services && FirstIn(s, key) == FirstWith(ItemsOf(services), key)
  {
    if services != [] {
      var init, last := services[..|services| - 1], services[|services| - 1];
      assert services == init + [last];
      FirstOfServices(init, key);
      assert ItemsOf(services) == ItemsOf(init) + ServiceItems()(last);
      FirstWithAppend(ItemsOf(init), ServiceItems()(last), key);
      assert FirstIn(last, key) == FirstWith(ServiceItems()(last), key);
      if FirstWith(ItemsOf(services), key).None? {
        forall s | s in services
          ensures FirstIn(s, key).None?
        {
          assert s in init || s == last;
        }
      } else {
        assert last in services && forall s | s in init :: s in services;
      }
    } else {
      assert ItemsOf(services) == [];
    }
  }

  lemma AgreedSurvivors(services: seq<Service>, others: seq<Service>, x: Item)
    requires Agree(services) && forall s :: s in services <==> s in others
    requires x in Sift(ItemsOf(services))
    ensures x in Sift(ItemsOf(others))
  {
    var key := x.Key();
    SiftIsFirst(ItemsOf(services), x);
    SiftIsFirst(ItemsOf(others), x);
    FirstOfServices(services, key);
    FirstOfServices(others, key);
    var s :| s in services && FirstIn(s, key) == Some(x);
    assert FirstWith(ItemsOf(others), key).Some?;
    var t :| t in others && FirstIn(t, key) == FirstWith(ItemsOf(others), key);
  }

  ghost predicate SameSurvivors(services: seq<Service>, others: seq<Service>) {
    forall x :: x in Sift(ItemsOf(services)) <==> x in Sift(ItemsOf(others))
  }

  lemma FirstServiceDecides(s: Service, rest: seq<Service>, key: string)
    requires FirstIn(s, key).Some?
    ensures FirstIn(s, key).value in Sift(ItemsOf([s] + rest)) && FirstIn(s, key).value.Key() == key
  {
    FlatMapAppend([s], rest, ServiceItems());
    FlatMapOne(s, ServiceItems());
    FirstWithAppend(ServiceItems()(s), ItemsOf(rest), key);
    FirstWithIff(ServiceItems()(s), key);
    SiftIsFirst(ItemsOf([s] + rest), FirstIn(s, key).value);
  }

  // Build keeps the same objects for every order in which the services are
  // ranged over exactly when services agree on what they offer.
  lemma BuildOrderIff(services: seq<Service>)
    ensures (forall others | multiset(others) == multiset(services) :: SameSurvivors(services, others)) <==>
              Agree(services)
  {
    if Agree(services) {
      forall others | multiset(others) == multiset(services)
        ensures SameSurvivors(services, others)
      {
        AgreedSameSurvivors(services, others);
      }
    } else {
      var s, t, key :| s in services && t in services && FirstIn(s, key).Some? && FirstIn(t, key).Some?
                       && FirstIn(s, key) != FirstIn(t, key);
      var others := DisagreeingOrders(services, s, t, key);
    }
  }

  lemma AgreedSameSurvivors(services: seq<Service>, others: seq<Service>)
    requires Agree(services) && multiset(others) == multiset(services)
    ensures SameSurvivors(services, others)
  {
    SameMembers(services, others);
    assert Agree(others);
    forall x
      ensures x in Sift(ItemsOf(services)) <==> x in Sift(ItemsOf(others))
    {
      if x in Sift(ItemsOf(services)) {
        AgreedSurvivors(services, others, x);
      }
      if x in Sift(ItemsOf(others)) {
        AgreedSurvivors(others, services, x);
      }
    }
  }

  lemma DisagreeingOrders(services: seq<Service>, s: Service, t: Service, key: string) returns (others: seq<Service>)
    requires s in services && t in services && FirstIn(s, key).Some? && FirstIn(t, key).Some?
    requires FirstIn(s, key) != FirstIn(t, key)
    ensures multiset(others) == multiset(services) && !SameSurvivors(services, others)
  {
    var rest := TakeOut(services, s, t);
    UpFront(services, s, t, rest);
    FirstServiceDecides(s, [t] + rest, key);
    FirstServiceDecides(t, [s] + rest, key);
    NotBoth(services, [s] + ([t] + rest), [t] + ([s] + rest), FirstIn(s, key).value, FirstIn(t, key).value);
    others := if SameSurvivors(services, [s] + ([t] + rest)) then [t] + ([s] + rest) else [s] + ([t] + rest);
  }

  lemma NotBoth(services: seq<Service>, others: seq<Service>, more: seq<Service>, x: Item, y: Item)
    requires x in Sift(ItemsOf(others)) && y in Sift(ItemsOf(more)) && x.Key() == y.Key() && x != y
    ensures !SameSurvivors(services, others) || !SameSurvivors(services, more)
  {
    if SameSurvivors(services, others) && SameSurvivors(services, more) {
      SurvivorsDiffer(ItemsOf(services), x, y);
    }
  }

  lemma {:induction false} DistinctSameMembers(xs: seq<Item>, ys: seq<Item>)
    requires DistinctItems(xs) && DistinctItems(ys) && forall x :: x in xs <==> x in ys
    ensures multiset(xs) == multiset(ys)
  {
    forall x
      ensures multiset(xs)[x] == multiset(ys)[x]
    {
      CountedOnce(xs, x);
      CountedOnce(ys, x);
    }
  }

  lemma {:induction false} CountedOnce(xs: seq<Item>, x: Item)
    requires DistinctItems(xs)
    ensures multiset(xs)[x] == if x in xs then 1 else 0
  {
    if xs != [] {
      var init, last := xs[..|xs| - 1], xs[|xs| - 1];
      assert xs == init + [last];
      CountedOnce(init, x);
    }
  }

  // Then toStable makes the same lists of APIs, servers, clusters and routings
  // of them, so that nothing but the order of binds can change the hash.
  lemma AgreedOrderIsStable(services: seq<Service>, others: seq<Service>, raw: RawState, other: RawState)
    requires Agree(services) && multiset(others) == multiset(services)
    requires forall x | x in ItemsOf(services) && x.APIItem? :: Keyed(x.api.proxies)
    requires IsStable(StateOf(Sift(ItemsOf(services))), raw) && IsStable(StateOf(Sift(ItemsOf(others))), other)
    ensures raw.apis == other.apis && raw.servers == other.servers
    ensures raw.clusters == other.clusters && raw.routings == other.routings
    ensures multiset(raw.binds) == multiset(other.binds)
  {
    var xs, ys := Sift(ItemsOf(services)), Sift(ItemsOf(others));
    AgreedSameSurvivors(services, others);
    SiftKeepsKeys(ItemsOf(services));
    SiftKeepsKeys(ItemsOf(others));
    DistinctSameMembers(xs, ys);
    FlatMapPermutes(xs, ys, AsAPI());
    FlatMapPermutes(xs, ys, AsServer());
    FlatMapPermutes(xs, ys, AsCluster());
    FlatMapPermutes(xs, ys, AsRouting());
    BuildIsDistinct(ItemsOf(services));
    ToStableCanonical(StateOf(xs), StateOf(ys), raw, other);
  }
}
