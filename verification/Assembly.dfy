// What the parser hands to Build, with the names it generates, and what that
// means for the objects that survive.
module Assembly {
  import opened Entities
  import opened Decimal
  import opened Naming
  import opened Parsing
  import opened Dispatch
  import opened Stable
  import opened Building
  import opened TargetLaws
  import opened Pipeline
  import opened Store

  // ---- The objects ----------------------------------------------------------------------

  // `apis`, `mirrors`, `splits` and `clusters` stand for the fields of the objects
  // that are not modelled; `copies` for how often fillOverride appended the
  // routings of an API, once for each time it is attached; `servers` for the
  // servers of a service.
  datatype Source = Source(
    ings: seq<Ingress>,
    services: Services,
    proxies: Proxies,
    apis: Index -> string,
    mirrors: (Index, nat) -> string,
    splits: (Index, nat) -> string,
    clusters: string -> string,
    copies: Index -> nat,
    servers: string -> seq<Entity>)

  function NameOf(src: Source, x: Index): string
    requires x.i < |src.ings|
  {
    APIName(src.ings[x.i].namespace, src.ings[x.i].name, x)
  }

  function APIObject(src: Source, x: Index): ParserAPI
    requires x.i < |src.ings|
  {
    ParserAPI(API(0, NameOf(src, x), [], src.apis(x), ""),
              map c | c in Of(src.proxies, x) :: Proxy(c, Node(0, Of(src.proxies, x)[c], "")))
  }

  // "%s.mirror.%d" and "%s.split.%d"
  function RoutingName(api: string, what: string, n: nat): string {
    api + "." + what + "." + Format(n)
  }

  function MirrorObject(src: Source, x: Index, n: nat): RawRouting
    requires x.i < |src.ings| && x.j < |src.ings[x.i].rules| && n < |src.ings[x.i].rules[x.j].mirrors|
  {
    var ing := src.ings[x.i];
    RawRouting(NameOf(src, x), ServiceOf(ing.namespace, ing.rules[x.j].mirrors[n]),
               Routing(0, RoutingName(NameOf(src, x), "mirror", n), 0, 0, src.mirrors(x, n), ""))
  }

  function SplitObject(src: Source, x: Index, n: nat): RawRouting
    requires x.i < |src.ings| && x.j < |src.ings[x.i].rules| && n < |src.ings[x.i].rules[x.j].splits|
  {
    var ing := src.ings[x.i];
    RawRouting(NameOf(src, x), ServiceOf(ing.namespace, ing.rules[x.j].splits[n]),
               Routing(0, RoutingName(NameOf(src, x), "split", n), 0, 0, src.splits(x, n), ""))
  }

  function RoutingObjects(src: Source, x: Index): seq<RawRouting>
    requires x.i < |src.ings| && x.j < |src.ings[x.i].rules|
  {
    var rule := src.ings[x.i].rules[x.j];
    seq(|rule.mirrors|, n requires 0 <= n < |rule.mirrors| => MirrorObject(src, x, n))
    + seq(|rule.splits|, n requires 0 <= n < |rule.splits| => SplitObject(src, x, n))
  }

  function Repeat<T>(xs: seq<T>, n: nat): (r: seq<T>)
    ensures forall x | x in r :: x in xs
  {
    if n == 0 then [] else Repeat(xs, n - 1) + xs
  }

  predicate IsAPI(src: Source, x: Index) {
    x.i < |src.ings| && HasAPI(src.ings[x.i].rules, x)
  }

  // Every attached index is one of an API there is.
  ghost predicate Grounded(src: Source) {
    forall name, x | name in src.services && x in src.services[name] :: IsAPI(src, x)
  }

  function ServiceAPIOf(src: Source, x: Index): ServiceAPI
    requires IsAPI(src, x)
  {
    ServiceAPI(APIObject(src, x), Repeat(RoutingObjects(src, x), src.copies(x)))
  }

  function ServiceAPIs(src: Source, apis: seq<Index>): seq<ServiceAPI>
    requires forall k | 0 <= k < |apis| :: IsAPI(src, apis[k])
  {
    seq(|apis|, k requires 0 <= k < |apis| => ServiceAPIOf(src, apis[k]))
  }

  ghost function ServiceObject(src: Source, name: string): Service
    requires Grounded(src) && name in src.services
  {
    Service(ServiceAPIs(src, src.services[name]), Cluster(0, name, src.clusters(name), ""), src.servers(name))
  }

  // The services in the order the range over the map gives.
  ghost predicate Ranged(src: Source, order: seq<string>) {
    && (forall k | 0 <= k < |order| :: order[k] in src.services)
    && (forall name | name in src.services :: name in order)
  }

  ghost function Assemble(src: Source, order: seq<string>): seq<Service>
    requires Grounded(src) && Ranged(src, order)
  {
    seq(|order|, k requires 0 <= k < |order| => ServiceObject(src, order[k]))
  }

  // What the parser guarantees of its source.
  ghost predicate FromParser(src: Source, store: ClusterStore) {
    && src.services == Attach(AllVisits(store, src.ings, |src.ings|))
    && ParsedProxies(store, src.ings, src.proxies)
    && (forall x :: src.copies(x) > 0 <==> exists name :: name in src.services && x in src.services[name])
  }

  lemma ParserIsGrounded(src: Source, store: ClusterStore)
    requires FromParser(src, store)
    ensures Grounded(src)
  {
    forall name, x | name in src.services && x in src.services[name]
      ensures IsAPI(src, x)
    {
      AttachedByLaterRules(store, src.ings, name, x);
    }
  }

  // ---- Where a candidate comes from --------------------------------------------------------

  ghost predicate IsAttached(src: Source, x: Index) {
    IsAPI(src, x) && exists name :: name in src.services && x in src.services[name]
  }

  ghost predicate IsMirror(src: Source, x: Index, n: nat, r: RawRouting)
    requires IsAPI(src, x)
  {
    n < |src.ings[x.i].rules[x.j].mirrors| && r == MirrorObject(src, x, n)
  }

  ghost predicate IsSplit(src: Source, x: Index, n: nat, r: RawRouting)
    requires IsAPI(src, x)
  {
    n < |src.ings[x.i].rules[x.j].splits| && r == SplitObject(src, x, n)
  }

  ghost predicate IsRouting(src: Source, r: RawRouting) {
    exists x, n: nat :: IsAttached(src, x) && (IsMirror(src, x, n, r) || IsSplit(src, x, n, r))
  }

  ghost predicate Stems(src: Source, item: Item) {
    match item
    case APIItem(a) => exists x :: IsAttached(src, x) && a == APIObject(src, x)
    case RoutingItem(r) => IsRouting(src, r)
    case ClusterItem(c) =>
      c.cluster.Cluster? && c.cluster.name in src.services
      && c == ParserCluster(Cluster(0, c.cluster.name, src.clusters(c.cluster.name), ""), src.servers(c.cluster.name))
    case ServerItem(s) => exists name :: name in src.services && s in src.servers(name)
  }

  lemma RoutingStems(src: Source, x: Index, r: RawRouting)
    requires Grounded(src) && IsAttached(src, x) && r in RoutingObjects(src, x)
    ensures IsRouting(src, r)
  {
    var rule := src.ings[x.i].rules[x.j];
    var k :| 0 <= k < |RoutingObjects(src, x)| && RoutingObjects(src, x)[k] == r;
    if k < |rule.mirrors| {
      assert IsMirror(src, x, k, r);
    } else {
      assert IsSplit(src, x, k - |rule.mirrors|, r);
    }
  }

  lemma APIItemStems(src: Source, name: string, item: Item)
    requires Grounded(src) && name in src.services
    requires item in FlatMap(ServiceAPIs(src, src.services[name]), APIItems())
    ensures Stems(src, item)
  {
    var k := InFlatMap(ServiceAPIs(src, src.services[name]), APIItems(), item);
    var x := src.services[name][k];
    assert IsAttached(src, x);
    var routings := Repeat(RoutingObjects(src, x), src.copies(x));
    if item != APIItem(APIObject(src, x)) {
      assert item in RoutingItems(routings);
      var m :| 0 <= m < |routings| && RoutingItems(routings)[m] == item;
      assert routings[m] in routings;
      RoutingStems(src, x, routings[m]);
    }
  }

  lemma ItemStems(src: Source, order: seq<string>, item: Item)
    requires Grounded(src) && Ranged(src, order) && item in ItemsOf(Assemble(src, order))
    ensures Stems(src, item)
  {
    var services := Assemble(src, order);
    var k := InFlatMap(services, ServiceItems(), item);
    var s, name := services[k], order[k];
    if item in FlatMap(s.apis, APIItems()) {
      APIItemStems(src, name, item);
    } else if item in ServerItems(s.servers) {
      var m :| 0 <= m < |s.servers| && ServerItems(s.servers)[m] == item;
      assert s.servers[m] in src.servers(name);
    }
  }

  // Every attached API is offered.
  lemma APIOffered(src: Source, order: seq<string>, x: Index)
    requires Grounded(src) && Ranged(src, order) && IsAttached(src, x)
    ensures APIItem(APIObject(src, x)) in ItemsOf(Assemble(src, order))
  {
    var item := APIItem(APIObject(src, x));
    var name :| name in src.services && x in src.services[name];
    var apis := ServiceAPIs(src, src.services[name]);
    var m :| 0 <= m < |src.services[name]| && src.services[name][m] == x;
    assert item in APIItems()(apis[m]);
    FlatMapHas(apis, APIItems(), m, item);
    var k :| 0 <= k < |order| && order[k] == name;
    assert item in ServiceItems()(Assemble(src, order)[k]);
    FlatMapHas(Assemble(src, order), ServiceItems(), k, item);
  }

  // ---- Keys of different kinds ----------------------------------------------------------------

  predicate EndsInDigit(s: string) {
    s != "" && IsDigit(s[|s| - 1])
  }

  // A host, a colon and a port.
  predicate IsAddress(s: string) {
    ':' in s && EndsInDigit(s)
  }

  // What Kubernetes guarantees of names.
  ghost predicate NamesClean(src: Source) {
    forall i | 0 <= i < |src.ings| ::
      '.' !in src.ings[i].namespace && ':' !in src.ings[i].namespace && ':' !in src.ings[i].name
  }

  ghost predicate NamesUnique(src: Source) {
    forall i, j | 0 <= i < j < |src.ings| ::
      src.ings[i].namespace != src.ings[j].namespace || src.ings[i].name != src.ings[j].name
  }

  ghost predicate FewRoutings(src: Source) {
    forall x | IsAPI(src, x) ::
      |src.ings[x.i].rules[x.j].mirrors| <= 1000 && |src.ings[x.i].rules[x.j].splits| <= 1000
  }

  // Servers are endpoints, and have no id yet.
  ghost predicate ServersAddressed(src: Source) {
    forall name, s | name in src.services && s in src.servers(name) :: s.Server? && s.id == 0 && IsAddress(s.addr)
  }

  ghost predicate WellNamed(src: Source) {
    NamesClean(src) && NamesUnique(src) && FewRoutings(src) && ServersAddressed(src)
  }

  lemma FormatEnds(n: nat)
    ensures EndsInDigit(Format(n)) && '.' !in Format(n) && ':' !in Format(n)
  {
    assert Format(n)[|Format(n)| - 1] in Format(n);
  }

  lemma {:induction false} FormatShort(n: nat)
    ensures n < 10 ==> |Format(n)| == 1
    ensures n < 1000 ==> |Format(n)| <= 3
  {
    if 10 <= n < 1000 {
      assert |Format(n / 10)| <= 2 by {
        if n / 10 >= 10 {
          assert |Format(n / 10 / 10)| == 1;
        }
      }
    }
  }

  lemma APINameShape(ns: string, ing: string, x: Index)
    requires ':' !in ns && ':' !in ing
    ensures EndsInDigit(APIName(ns, ing, x)) && ':' !in APIName(ns, ing, x)
    ensures APIName(ns, ing, x) == (ns + "." + ing) + ['.'] + Digits(x)
    ensures '.' !in Digits(x) && |Digits(x)| >= 4
  {
    FormatEnds(x.g);
    assert Digits(x)[|Digits(x)| - 1] == Format(x.g)[|Format(x.g)| - 1];
    var name := APIName(ns, ing, x);
    assert name[|name| - 1] == Digits(x)[|Digits(x)| - 1];
  }

  lemma RoutingNameShape(api: string, what: string, n: nat)
    requires ':' !in api && ':' !in what
    ensures EndsInDigit(RoutingName(api, what, n)) && ':' !in RoutingName(api, what, n)
    ensures RoutingName(api, what, n) == (api + "." + what) + ['.'] + Format(n)
  {
    FormatEnds(n);
    var name := RoutingName(api, what, n);
    assert name[|name| - 1] == Format(n)[|Format(n)| - 1];
  }

  // An API and a routing never share a name, as long as there are not a
  // thousand mirrors or splits in a rule.
  lemma APIIsNoRouting(ns: string, ing: string, x: Index, api: string, what: string, n: nat)
    requires ':' !in ns && ':' !in ing && ':' !in api && ':' !in what && n < 1000
    ensures APIName(ns, ing, x) != RoutingName(api, what, n)
  {
    APINameShape(ns, ing, x);
    RoutingNameShape(api, what, n);
    FormatEnds(n);
    FormatShort(n);
    if APIName(ns, ing, x) == RoutingName(api, what, n) {
      SplitAtLast(ns + "." + ing, Digits(x), api + "." + what, Format(n), '.');
    }
  }

  lemma RoutingNamesEqualIff(api: string, what: string, n: nat, api': string, what': string, n': nat)
    requires '.' !in what && '.' !in what'
    ensures RoutingName(api, what, n) == RoutingName(api', what', n') <==> api == api' && what == what' && n == n'
  {
    if RoutingName(api, what, n) == RoutingName(api', what', n') {
      FormatEnds(n);
      FormatEnds(n');
      SplitAtLast(api + "." + what, Format(n), api' + "." + what', Format(n'), '.');
      SplitAtLast(api, what, api', what', '.');
      FormatInjective(n, n');
    }
  }

  lemma ServiceNameEnds(ns: string, cluster: string, subset: string, port: string)
    ensures
      var name := ServiceName(ns, cluster, subset, port);
      !EndsInDigit(name) && '.' in name
  {
    var name := ServiceName(ns, cluster, subset, port);
    assert name[|name| - 1] == 'c';
    assert name[|name| - 4] == '.';
  }

  // ---- What survives -----------------------------------------------------------------------------

  // Two APIs share a name exactly when they are of one ingress and share digits.
  lemma APINamesEqualIff(src: Source, x: Index, y: Index)
    requires NamesClean(src) && NamesUnique(src) && x.i < |src.ings| && y.i < |src.ings|
    ensures NameOf(src, x) == NameOf(src, y) <==> x.i == y.i && Digits(x) == Digits(y)
  {
    var a, b := src.ings[x.i], src.ings[y.i];
    NamesEqualIff(a.namespace, a.name, x, b.namespace, b.name, y);
    if a.namespace == b.namespace && a.name == b.name {
      assert x.i == y.i by {
        assert !(x.i < y.i) && !(y.i < x.i);
      }
    }
  }

  lemma NameShape(src: Source, x: Index)
    requires NamesClean(src) && x.i < |src.ings|
    ensures EndsInDigit(NameOf(src, x)) && ':' !in NameOf(src, x)
  {
    APINameShape(src.ings[x.i].namespace, src.ings[x.i].name, x);
  }

  // Every key in services is a generated name.
  ghost predicate ServicesNamed(src: Source) {
    forall name | name in src.services :: !EndsInDigit(name) && '.' in name
  }

  lemma ParserNamesServices(src: Source, store: ClusterStore)
    requires FromParser(src, store)
    ensures ServicesNamed(src)
  {
    forall name | name in src.services
      ensures !EndsInDigit(name) && '.' in name
    {
      ServedIff(store, src.ings, name);
      var p :| IsPlace(src.ings, p) && ServiceAt(src.ings, p) == name && ResolvesAt(store, src.ings, p);
      var c := RouteAt(src.ings, p).cluster;
      ServiceNameEnds(src.ings[p.i].namespace, c.name, c.subset, c.port);
    }
  }

  // What the key of a candidate looks like.
  ghost predicate Shaped(item: Item) {
    match item
    case ClusterItem(_) => !EndsInDigit(item.Key())
    case ServerItem(_) => EndsInDigit(item.Key()) && ':' in item.Key()
    case _ => EndsInDigit(item.Key()) && ':' !in item.Key()
  }

  predicate IsWhat(what: string) {
    what == "mirror" || what == "split"
  }

  lemma WhatShape(what: string)
    requires IsWhat(what)
    ensures ':' !in what && '.' !in what
  {
  }

  // The routing of mirror or split n of x.
  ghost predicate IsRoutingOf(src: Source, x: Index, what: string, n: nat, r: RawRouting) {
    && IsAttached(src, x) && n < 1000 && IsWhat(what)
    && (if what == "mirror" then IsMirror(src, x, n, r) else IsSplit(src, x, n, r))
  }

  lemma RoutingNameOf(src: Source, x: Index, what: string, n: nat, r: RawRouting)
    requires IsRoutingOf(src, x, what, n, r)
    ensures IsAttached(src, x) && n < 1000 && IsWhat(what)
    ensures r.routing.Routing? && r.routing.name == RoutingName(NameOf(src, x), what, n)
  {
  }

  lemma RoutingShape(src: Source, r: RawRouting) returns (x: Index, what: string, n: nat)
    requires FewRoutings(src) && IsRouting(src, r)
    ensures IsRoutingOf(src, x, what, n, r)
  {
    var y, m: nat :| IsAttached(src, y) && (IsMirror(src, y, m, r) || IsSplit(src, y, m, r));
    x, n := y, m;
    what := if IsMirror(src, y, m, r) then "mirror" else "split";
  }

  // The parts of a routing's name.
  lemma RoutingParts(src: Source, r: RawRouting) returns (api: string, what: string, n: nat)
    requires NamesClean(src) && FewRoutings(src) && IsRouting(src, r)
    ensures ':' !in api && ':' !in what && n < 1000 && r.routing.Name() == RoutingName(api, what, n)
  {
    var x: Index;
    x, what, n := RoutingShape(src, r);
    RoutingNameOf(src, x, what, n, r);
    api := NameOf(src, x);
    NameShape(src, x);
    WhatShape(what);
  }

  // The parts of an API's name.
  lemma APIParts(src: Source, a: ParserAPI) returns (ns: string, ing: string, x: Index)
    requires NamesClean(src) && Stems(src, APIItem(a))
    ensures ':' !in ns && ':' !in ing && a.api.Name() == APIName(ns, ing, x)
  {
    x :| IsAttached(src, x) && a == APIObject(src, x);
    ns, ing := src.ings[x.i].namespace, src.ings[x.i].name;
  }

  lemma StemShaped(src: Source, item: Item)
    requires WellNamed(src) && ServicesNamed(src) && Stems(src, item)
    ensures Shaped(item)
  {
    match item
    case APIItem(a) =>
      var ns, ing, x := APIParts(src, a);
      APINameShape(ns, ing, x);
    case RoutingItem(r) =>
      var api, what, n := RoutingParts(src, r);
      RoutingNameShape(api, what, n);
    case ClusterItem(_) =>
    case ServerItem(s) => ServerKeyShape(src, s);
  }

  lemma ServerKeyShape(src: Source, s: Entity)
    requires ServersAddressed(src) && Stems(src, ServerItem(s))
    ensures s.Server? && s.id == 0 && IsAddress(s.Name())
  {
  }

  // Candidates with equal keys are of one kind.
  lemma SameKeySameKind(src: Source, a: Item, b: Item)
    requires WellNamed(src) && ServicesNamed(src) && Stems(src, a) && Stems(src, b) && a.Key() == b.Key()
    ensures a.APIItem? == b.APIItem? && a.RoutingItem? == b.RoutingItem? && a.ClusterItem? == b.ClusterItem?
  {
    StemShaped(src, a);
    StemShaped(src, b);
    if a.APIItem? && b.RoutingItem? {
      APIKeyIsNoRoutingKey(src, a.api, b.routing);
    } else if a.RoutingItem? && b.APIItem? {
      APIKeyIsNoRoutingKey(src, b.api, a.routing);
    }
  }

  lemma APIKeyIsNoRoutingKey(src: Source, a: ParserAPI, r: RawRouting)
    requires NamesClean(src) && FewRoutings(src) && Stems(src, APIItem(a)) && IsRouting(src, r)
    ensures a.api.Name() != r.routing.Name()
  {
    var ns, ing, x := APIParts(src, a);
    var api, what, n := RoutingParts(src, r);
    APIIsNoRouting(ns, ing, x, api, what, n);
  }

  // ---- APIs ----------------------------------------------------------------------------------------

  // APIs that share a name are the same object.
  ghost predicate NamesDetermineAPIs(src: Source) {
    forall x, y | IsAttached(src, x) && IsAttached(src, y) && NameOf(src, x) == NameOf(src, y) ::
      APIObject(src, x) == APIObject(src, y)
  }

  ghost predicate KeepsAPIs(src: Source, state: ParserState) {
    forall x | IsAttached(src, x) :: APIObject(src, x) in state.apis
  }

  // What the services offer to Build, and the state it makes of that.
  ghost function Candidates(src: Source, store: ClusterStore, order: seq<string>): seq<Item>
    requires FromParser(src, store) && Ranged(src, order)
  {
    ParserIsGrounded(src, store);
    ItemsOf(Assemble(src, order))
  }

  ghost function BuiltFrom(src: Source, store: ClusterStore, order: seq<string>): ParserState
    requires FromParser(src, store) && Ranged(src, order)
  {
    StateOf(Sift(Candidates(src, store, order)))
  }

  lemma SameNameSameAPI(src: Source, item: Item, x: Index)
    requires WellNamed(src) && ServicesNamed(src) && NamesDetermineAPIs(src) && IsAttached(src, x)
    requires Stems(src, item) && item.Key() == NameOf(src, x)
    ensures item == APIItem(APIObject(src, x))
  {
    SameKeySameKind(src, APIItem(APIObject(src, x)), item);
    var y :| IsAttached(src, y) && item.api == APIObject(src, y);
  }

  lemma APIKept(src: Source, order: seq<string>, x: Index)
    requires WellNamed(src) && ServicesNamed(src) && Grounded(src) && Ranged(src, order) && IsAttached(src, x)
    requires NamesDetermineAPIs(src)
    ensures APIObject(src, x) in StateOf(Sift(ItemsOf(Assemble(src, order)))).apis
  {
    var items, item := ItemsOf(Assemble(src, order)), APIItem(APIObject(src, x));
    APIOffered(src, order, x);
    forall other | other in items && other.Key() == item.Key()
      ensures other == item
    {
      ItemStems(src, order, other);
      SameNameSameAPI(src, other, x);
    }
    KeptWhenAlone(items, item);
    InStateIff(Sift(items), item);
  }

  lemma KeptAPIsAreOne(src: Source, items: seq<Item>, x: Index, y: Index)
    requires x.i < |src.ings| && y.i < |src.ings| && NameOf(src, x) == NameOf(src, y)
    requires APIObject(src, x) in StateOf(Sift(items)).apis && APIObject(src, y) in StateOf(Sift(items)).apis
    ensures APIObject(src, x) == APIObject(src, y)
  {
    InStateIff(Sift(items), APIItem(APIObject(src, x)));
    InStateIff(Sift(items), APIItem(APIObject(src, y)));
    SurvivorsDiffer(items, APIItem(APIObject(src, x)), APIItem(APIObject(src, y)));
  }

  // Build keeps every API, in whatever order the services come, exactly when no
  // two different ones share a name.
  lemma APIsKeptIff(src: Source, store: ClusterStore, order: seq<string>)
    requires FromParser(src, store) && WellNamed(src) && Ranged(src, order)
    ensures KeepsAPIs(src, BuiltFrom(src, store, order)) <==> NamesDetermineAPIs(src)
  {
    ParserNamesServices(src, store);
    ParserIsGrounded(src, store);
    if NamesDetermineAPIs(src) {
      forall x | IsAttached(src, x)
        ensures APIObject(src, x) in BuiltFrom(src, store, order).apis
      {
        APIKept(src, order, x);
      }
    }
    if KeepsAPIs(src, BuiltFrom(src, store, order)) {
      forall x, y | IsAttached(src, x) && IsAttached(src, y) && NameOf(src, x) == NameOf(src, y)
        ensures APIObject(src, x) == APIObject(src, y)
      {
        KeptAPIsAreOne(src, Candidates(src, store, order), x, y);
      }
    }
  }

  // At most one of the four indices of an ingress's APIs goes past nine.
  ghost predicate Narrow(src: Source) {
    forall x, y | IsAttached(src, x) && IsAttached(src, y) && x.i == y.i :: Wide(x, y) <= 1
  }

  // Then Build drops no API.
  lemma NarrowKeepsAPIs(src: Source, store: ClusterStore, order: seq<string>)
    requires FromParser(src, store) && WellNamed(src) && Ranged(src, order) && Narrow(src)
    ensures KeepsAPIs(src, BuiltFrom(src, store, order))
  {
    forall x, y | IsAttached(src, x) && IsAttached(src, y) && NameOf(src, x) == NameOf(src, y)
      ensures APIObject(src, x) == APIObject(src, y)
    {
      NarrowNames(src, x, y);
    }
    APIsKeptIff(src, store, order);
  }

  // Routings that share a name are the same object.
  ghost predicate NamesDetermineRoutings(src: Source) {
    forall r, q | IsRouting(src, r) && IsRouting(src, q) && r.routing.Name() == q.routing.Name() :: r == q
  }

  // Then Build keeps every routing, and every cluster in any case: of all
  // candidates only servers, which two clusters may share, give way to another.
  lemma RestKept(src: Source, store: ClusterStore, order: seq<string>, item: Item)
    requires FromParser(src, store) && WellNamed(src) && Ranged(src, order)
    requires item in Candidates(src, store, order) && !item.ServerItem? && !item.APIItem?
    requires item.RoutingItem? ==> NamesDetermineRoutings(src)
    ensures item in Sift(Candidates(src, store, order))
  {
    var items := Candidates(src, store, order);
    ParserNamesServices(src, store);
    ParserIsGrounded(src, store);
    ItemStems(src, order, item);
    forall other | other in items && other.Key() == item.Key()
      ensures other == item
    {
      ItemStems(src, order, other);
      SameKeySameKind(src, item, other);
    }
    KeptWhenAlone(items, item);
  }

  // So none of these is lost while at most one index goes past nine.
  lemma NarrowKeepsRest(src: Source, store: ClusterStore, order: seq<string>, item: Item)
    requires FromParser(src, store) && WellNamed(src) && Ranged(src, order) && Narrow(src)
    requires item in Candidates(src, store, order) && !item.ServerItem? && !item.APIItem?
    ensures item in Sift(Candidates(src, store, order))
  {
    forall r, q | IsRouting(src, r) && IsRouting(src, q) && r.routing.Name() == q.routing.Name()
      ensures r == q
    {
      RoutingNamesDetermine(src, r, q);
    }
    RestKept(src, store, order, item);
  }

  lemma RoutingNamesDetermine(src: Source, r: RawRouting, q: RawRouting)
    requires NamesClean(src) && NamesUnique(src) && FewRoutings(src) && Narrow(src)
    requires IsRouting(src, r) && IsRouting(src, q) && r.routing.Name() == q.routing.Name()
    ensures r == q
  {
    var x, what, n := RoutingShape(src, r);
    var y, what', n' := RoutingShape(src, q);
    RoutingNameOf(src, x, what, n, r);
    RoutingNameOf(src, y, what', n', q);
    RoutingPlace(src, x, what, n, y, what', n');
    SameObject(src, x, what, n, r, q);
  }

  lemma SameObject(src: Source, x: Index, what: string, n: nat, r: RawRouting, q: RawRouting)
    requires IsRoutingOf(src, x, what, n, r) && IsRoutingOf(src, x, what, n, q)
    ensures r == q
  {
  }

  lemma RoutingPlace(src: Source, x: Index, what: string, n: nat, y: Index, what': string, n': nat)
    requires NamesClean(src) && NamesUnique(src) && Narrow(src) && IsAttached(src, x) && IsAttached(src, y)
    requires IsWhat(what) && IsWhat(what')
    requires RoutingName(NameOf(src, x), what, n) == RoutingName(NameOf(src, y), what', n')
    ensures x == y && what == what' && n == n'
  {
    WhatShape(what);
    WhatShape(what');
    RoutingNamesEqualIff(NameOf(src, x), what, n, NameOf(src, y), what', n');
    NarrowNames(src, x, y);
  }

  lemma NarrowNames(src: Source, x: Index, y: Index)
    requires NamesClean(src) && NamesUnique(src) && Narrow(src) && IsAttached(src, x) && IsAttached(src, y)
    ensures NameOf(src, x) == NameOf(src, y) <==> x == y
  {
    APINamesEqualIff(src, x, y);
    if NameOf(src, x) == NameOf(src, y) {
      DigitsDetermine(x, y);
    }
  }

  // ---- Past the bound ----------------------------------------------------------------------------

  // Match rule 10 of match 1 and match rule 0 of match 11 share a name: unless
  // they happen to be the same object, Build drops one of the two.
  lemma WideAPIDropped(src: Source, store: ClusterStore, order: seq<string>, i: nat)
    requires FromParser(src, store) && Ranged(src, order)
    requires IsAttached(src, Index(i, 1, 1, 10)) && IsAttached(src, Index(i, 1, 11, 0))
    requires APIObject(src, Index(i, 1, 1, 10)) != APIObject(src, Index(i, 1, 11, 0))
    ensures !(APIObject(src, Index(i, 1, 1, 10)) in BuiltFrom(src, store, order).apis
              && APIObject(src, Index(i, 1, 11, 0)) in BuiltFrom(src, store, order).apis)
  {
    var x, y := Index(i, 1, 1, 10), Index(i, 1, 11, 0);
    WideIndicesCollide(src.ings[i].namespace, src.ings[i].name, i);
    var apis := BuiltFrom(src, store, order).apis;
    if APIObject(src, x) in apis && APIObject(src, y) in apis {
      KeptAPIsAreOne(src, Candidates(src, store, order), x, y);
    }
  }

  // Twelve matches, the second with eleven match rules.
  function TwelveMatches(): seq<nat> {
    seq(12, k => if k == 1 then 11 else 1)
  }

  function WideIngress(ns: string, name: string, route: Route): Ingress {
    Ingress(ns, name, [Rule([], [], [], []), Rule(TwelveMatches(), [route], [], [])])
  }

  // Such an ingress with one good route attaches both.
  lemma WideIngressAttaches(src: Source, store: ClusterStore, ns: string, name: string, route: Route)
    requires FromParser(src, store) && src.ings == [WideIngress(ns, name, route)]
    requires Parsing.Resolves(store, ns, route.cluster)
    ensures IsAttached(src, Index(0, 1, 1, 10)) && IsAttached(src, Index(0, 1, 11, 0))
  {
    var p := Place(0, 1, 0);
    var service := ServiceAt(src.ings, p);
    ResolvedIsKept(store, src.ings, p);
    AttachedByLaterRules(store, src.ings, service, Index(0, 1, 1, 10));
    AttachedByLaterRules(store, src.ings, service, Index(0, 1, 11, 0));
    assert HasAPI(src.ings[0].rules, Index(0, 1, 1, 10)) && HasAPI(src.ings[0].rules, Index(0, 1, 11, 0));
    assert RoutesFrom(store, src.ings, 0, 1, service);
  }

  // ---- From the ingresses to the gateway -----------------------------------------------------------

  lemma HasDot(s: string)
    requires '.' in s || ':' in s
    ensures Textual(s)
  {
    var i :| 0 <= i < |s| && (s[i] == '.' || s[i] == ':');
  }

  // The objects of a candidate have no ids yet, and names that are no id texts.
  ghost predicate BlankItem(item: Item) {
    match item
    case APIItem(a) => Blank(a.api, APIKind) && Keyed(a.proxies)
    case RoutingItem(r) => Blank(r.routing, RoutingKind)
    case ClusterItem(c) => Blank(c.cluster, ClusterKind)
    case ServerItem(s) => Blank(s, ServerKind)
  }

  lemma StemBlank(src: Source, item: Item)
    requires WellNamed(src) && ServicesNamed(src) && Stems(src, item)
    ensures BlankItem(item)
  {
    match item
    case APIItem(a) => APIBlank(src, a);
    case RoutingItem(r) => RoutingBlank(src, r);
    case ClusterItem(c) => HasDot(c.cluster.name);
    case ServerItem(s) =>
      ServerKeyShape(src, s);
      HasDot(s.addr);
  }

  lemma APIBlank(src: Source, a: ParserAPI)
    requires Stems(src, APIItem(a))
    ensures Blank(a.api, APIKind) && Keyed(a.proxies)
  {
    var x :| IsAttached(src, x) && a == APIObject(src, x);
    ObjectBlank(src, x);
  }

  lemma ObjectBlank(src: Source, x: Index)
    requires x.i < |src.ings|
    ensures Blank(APIObject(src, x).api, APIKind) && Keyed(APIObject(src, x).proxies)
  {
    APINameDotted(src, x);
  }

  lemma RoutingBlank(src: Source, r: RawRouting)
    requires FewRoutings(src) && IsRouting(src, r)
    ensures Blank(r.routing, RoutingKind)
  {
    var x, n: nat :| IsAttached(src, x) && (IsMirror(src, x, n, r) || IsSplit(src, x, n, r));
    if IsMirror(src, x, n, r) {
      MirrorBlank(src, x, n);
    } else {
      SplitBlank(src, x, n);
    }
  }

  lemma MirrorBlank(src: Source, x: Index, n: nat)
    requires IsAPI(src, x) && n < |src.ings[x.i].rules[x.j].mirrors|
    ensures Blank(MirrorObject(src, x, n).routing, RoutingKind)
  {
    RoutingNameDotted(NameOf(src, x), "mirror", n);
  }

  lemma SplitBlank(src: Source, x: Index, n: nat)
    requires IsAPI(src, x) && n < |src.ings[x.i].rules[x.j].splits|
    ensures Blank(SplitObject(src, x, n).routing, RoutingKind)
  {
    RoutingNameDotted(NameOf(src, x), "split", n);
  }

  lemma APINameDotted(src: Source, x: Index)
    requires x.i < |src.ings|
    ensures Textual(NameOf(src, x))
  {
    var ns := src.ings[x.i].namespace;
    assert NameOf(src, x)[|ns|] == '.';
    HasDot(NameOf(src, x));
  }

  lemma RoutingNameDotted(api: string, what: string, n: nat)
    ensures Textual(RoutingName(api, what, n))
  {
    assert RoutingName(api, what, n)[|api|] == '.';
    HasDot(RoutingName(api, what, n));
  }

  // What Build makes of the parser's services is what toStable expects.
  lemma BuiltIsParsed(src: Source, store: ClusterStore, order: seq<string>)
    requires FromParser(src, store) && WellNamed(src) && Ranged(src, order)
    ensures Parsed(BuiltFrom(src, store, order))
  {
    var items := Candidates(src, store, order);
    ParserNamesServices(src, store);
    ParserIsGrounded(src, store);
    forall item | item in items
      ensures BlankItem(item)
    {
      ItemStems(src, order, item);
      StemBlank(src, item);
    }
    BuildIsDistinct(items);
    SurvivorsBlank(items);
  }

  lemma SurvivorsBlank(items: seq<Item>)
    requires forall item | item in items :: BlankItem(item)
    requires Distinct(StateOf(Sift(items)))
    ensures Parsed(StateOf(Sift(items)))
  {
    var kept, state := Sift(items), StateOf(Sift(items));
    forall item | item in kept
      ensures BlankItem(item)
    {
      SiftIsPart(items, item);
    }
    forall i | 0 <= i < |state.apis|
      ensures Blank(state.apis[i].api, APIKind)
    {
      var k := ProjectionOf(kept, AsAPI(), i);
      assert kept[k] in kept;
    }
    forall i | 0 <= i < |state.servers|
      ensures Blank(state.servers[i], ServerKind)
    {
      var k := ProjectionOf(kept, AsServer(), i);
      assert kept[k] in kept;
    }
    forall i | 0 <= i < |state.clusters|
      ensures Blank(state.clusters[i].cluster, ClusterKind)
    {
      var k := ProjectionOf(kept, AsCluster(), i);
      assert kept[k] in kept;
    }
    forall i | 0 <= i < |state.routings|
      ensures Blank(state.routings[i].routing, RoutingKind)
    {
      var k := ProjectionOf(kept, AsRouting(), i);
      assert kept[k] in kept;
    }
  }
}
