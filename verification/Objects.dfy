// What Build makes of the ingresses, object by object and field by field.
module Objects {
  import opened Entities
  import opened Decimal
  import opened Naming
  import opened Parsing
  import opened Dispatch
  import opened Stable
  import opened Building
  import opened Assembly

  // ---- APIs ---------------------------------------------------------------------------------

  // The rule of the API has a route, and that or a later rule has one to the
  // service that is kept.
  ghost predicate DispatchesTo(src: Source, store: ClusterStore, x: Index, service: string) {
    IsAPI(src, x) && src.ings[x.i].rules[x.j].routes != [] && RoutesFrom(store, src.ings, x.i, x.j, service)
  }

  // a is the API of match rule x: named after its place, with a proxy to each
  // cluster it dispatches to and the settings of its rule's first route in all.
  ghost predicate APIOf(src: Source, store: ClusterStore, x: Index, a: ParserAPI) {
    && IsAPI(src, x)
    && a.api == API(0, APIName(src.ings[x.i].namespace, src.ings[x.i].name, x), [], src.apis(x), "")
    && (forall c :: c in a.proxies <==> DispatchesTo(src, store, x, c))
    && (forall c | c in a.proxies && src.ings[x.i].rules[x.j].routes != [] ::
          a.proxies[c] == Proxy(c, Node(0, src.ings[x.i].rules[x.j].routes[0].settings, "")))
  }

  lemma APIObjectIs(src: Source, store: ClusterStore, x: Index)
    requires FromParser(src, store) && IsAPI(src, x)
    ensures APIOf(src, store, x, APIObject(src, x))
  {
    forall c
      ensures c in Of(src.proxies, x) <==> DispatchesTo(src, store, x, c)
      ensures c in Of(src.proxies, x) ==> Of(src.proxies, x)[c] == src.ings[x.i].rules[x.j].routes[0].settings
    {
      DispatchIff(store, src.ings, src.proxies, c, x);
    }
  }

  lemma APIOfUnique(src: Source, store: ClusterStore, x: Index, a: ParserAPI, b: ParserAPI)
    requires APIOf(src, store, x, a) && APIOf(src, store, x, b)
    ensures a == b
  {
    forall c
      ensures c in a.proxies <==> c in b.proxies
      ensures c in a.proxies && c in b.proxies ==> a.proxies[c] == b.proxies[c]
    {
      assert c in a.proxies <==> DispatchesTo(src, store, x, c);
    }
    assert a.proxies == b.proxies;
  }

  // Build makes APIs of attached match rules only,
  lemma APIsStem(src: Source, store: ClusterStore, order: seq<string>, a: ParserAPI) returns (x: Index)
    requires FromParser(src, store) && Ranged(src, order) && a in BuiltFrom(src, store, order).apis
    ensures IsAttached(src, x) && APIOf(src, store, x, a)
  {
    ParserIsGrounded(src, store);
    var items := Candidates(src, store, order);
    InStateIff(Sift(items), APIItem(a));
    SiftIsPart(items, APIItem(a));
    ItemStems(src, order, APIItem(a));
    x :| IsAttached(src, x) && a == APIObject(src, x);
    APIObjectIs(src, store, x);
  }

  // and, unless different ones share a name, of all of them.
  lemma APIsBuiltIff(src: Source, store: ClusterStore, order: seq<string>, x: Index, a: ParserAPI)
    requires FromParser(src, store) && WellNamed(src) && Ranged(src, order) && NamesDetermineAPIs(src)
    requires IsAttached(src, x) && a.api.Name() == NameOf(src, x)
    ensures a in BuiltFrom(src, store, order).apis <==> APIOf(src, store, x, a)
  {
    if a in BuiltFrom(src, store, order).apis {
      var y := APIsStem(src, store, order, a);
      APIObjectIs(src, store, x);
      APIObjectIs(src, store, y);
      APIOfUnique(src, store, y, a, APIObject(src, y));
    }
    if APIOf(src, store, x, a) {
      APIObjectIs(src, store, x);
      APIOfUnique(src, store, x, a, APIObject(src, x));
      APIsKeptIff(src, store, order);
    }
  }

  lemma APIBuilt(src: Source, store: ClusterStore, order: seq<string>, x: Index) returns (a: ParserAPI)
    requires FromParser(src, store) && WellNamed(src) && Ranged(src, order)
    requires NamesDetermineAPIs(src) && IsAttached(src, x)
    ensures a in BuiltFrom(src, store, order).apis && APIOf(src, store, x, a)
  {
    a := APIObject(src, x);
    APIObjectIs(src, store, x);
    APIsKeptIff(src, store, order);
  }

  // ---- Routings --------------------------------------------------------------------------------

  // r copies the traffic of the API to the n-th mirror's cluster.
  ghost predicate MirrorOf(src: Source, x: Index, n: nat, r: RawRouting) {
    && IsAPI(src, x) && n < |src.ings[x.i].rules[x.j].mirrors|
    && var ing, to := src.ings[x.i], src.ings[x.i].rules[x.j].mirrors[n];
       && r.apiName == APIName(ing.namespace, ing.name, x)
       && r.clusterName == ServiceName(ing.namespace, to.name, to.subset, to.port)
       && r.routing == Routing(0, r.apiName + ".mirror." + Format(n), 0, 0, src.mirrors(x, n), "")
  }

  // r splits the traffic of the API off to the n-th split's cluster.
  ghost predicate SplitOf(src: Source, x: Index, n: nat, r: RawRouting) {
    && IsAPI(src, x) && n < |src.ings[x.i].rules[x.j].splits|
    && var ing, to := src.ings[x.i], src.ings[x.i].rules[x.j].splits[n];
       && r.apiName == APIName(ing.namespace, ing.name, x)
       && r.clusterName == ServiceName(ing.namespace, to.name, to.subset, to.port)
       && r.routing == Routing(0, r.apiName + ".split." + Format(n), 0, 0, src.splits(x, n), "")
  }

  lemma IsMirrorIff(src: Source, x: Index, n: nat, r: RawRouting)
    requires IsAPI(src, x)
    ensures IsMirror(src, x, n, r) <==> MirrorOf(src, x, n, r)
    ensures IsSplit(src, x, n, r) <==> SplitOf(src, x, n, r)
  {
    var api := NameOf(src, x);
    assert RoutingName(api, "mirror", n) == api + ".mirror." + Format(n);
    assert RoutingName(api, "split", n) == api + ".split." + Format(n);
  }

  // Every routing of the built state joins an attached API to the cluster of one
  // of its rule's mirrors or splits,
  lemma RoutingsStem(src: Source, store: ClusterStore, order: seq<string>, r: RawRouting) returns (x: Index, n: nat)
    requires FromParser(src, store) && Ranged(src, order) && r in BuiltFrom(src, store, order).routings
    ensures IsAttached(src, x) && (MirrorOf(src, x, n, r) || SplitOf(src, x, n, r))
  {
    ParserIsGrounded(src, store);
    var items := Candidates(src, store, order);
    InStateIff(Sift(items), RoutingItem(r));
    SiftIsPart(items, RoutingItem(r));
    ItemStems(src, order, RoutingItem(r));
    x, n :| IsAttached(src, x) && (IsMirror(src, x, n, r) || IsSplit(src, x, n, r));
    IsMirrorIff(src, x, n, r);
  }

  lemma {:induction false} InRepeat<T>(xs: seq<T>, n: nat, x: T)
    requires n > 0 && x in xs
    ensures x in Repeat(xs, n)
  {
  }

  lemma InRoutingObjects(src: Source, x: Index, n: nat, r: RawRouting)
    requires IsAPI(src, x) && (IsMirror(src, x, n, r) || IsSplit(src, x, n, r))
    ensures r in RoutingObjects(src, x)
  {
    if IsMirror(src, x, n, r) {
      assert RoutingObjects(src, x)[n] == r;
    } else {
      assert RoutingObjects(src, x)[|src.ings[x.i].rules[x.j].mirrors| + n] == r;
    }
  }

  lemma RoutingOffered(src: Source, store: ClusterStore, order: seq<string>, x: Index, n: nat, r: RawRouting)
    requires FromParser(src, store) && Ranged(src, order) && IsAttached(src, x)
    requires IsMirror(src, x, n, r) || IsSplit(src, x, n, r)
    ensures RoutingItem(r) in Candidates(src, store, order)
  {
    ParserIsGrounded(src, store);
    InRoutingObjects(src, x, n, r);
    InRepeat(RoutingObjects(src, x), src.copies(x), r);
    var name :| name in src.services && x in src.services[name];
    var s := ServiceOffered(src, order, name);
    var m :| 0 <= m < |src.services[name]| && src.services[name][m] == x;
    assert s.apis[m] in s.apis && r in s.apis[m].routings;
    OfferedIff(Assemble(src, order), RoutingItem(r));
  }

  lemma ServiceOffered(src: Source, order: seq<string>, name: string) returns (s: Service)
    requires Grounded(src) && Ranged(src, order) && name in src.services
    ensures s in Assemble(src, order) && s == ServiceObject(src, name)
  {
    var k :| 0 <= k < |order| && order[k] == name;
    s := Assemble(src, order)[k];
  }

  // and, unless different ones share a name, all of these are there.
  lemma RoutingsBuilt(src: Source, store: ClusterStore, order: seq<string>, x: Index, n: nat, r: RawRouting)
    requires FromParser(src, store) && WellNamed(src) && Ranged(src, order)
    requires NamesDetermineRoutings(src) && IsAttached(src, x)
    requires MirrorOf(src, x, n, r) || SplitOf(src, x, n, r)
    ensures r in BuiltFrom(src, store, order).routings
  {
    IsMirrorIff(src, x, n, r);
    RoutingOffered(src, store, order, x, n, r);
    RestKept(src, store, order, RoutingItem(r));
    InStateIff(Sift(Candidates(src, store, order)), RoutingItem(r));
  }
}
