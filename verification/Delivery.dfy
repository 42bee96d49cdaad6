// What the gateway connects after an update, in terms of the ingresses and the
// endpoints behind them.
module Delivery {
  import opened Entities
  import opened Store
  import opened Naming
  import opened Parsing
  import opened Stable
  import opened Target
  import opened TargetLaws
  import opened TargetBuilds
  import opened TargetRetry
  import opened Pipeline
  import opened Assembly
  import opened Objects
  import opened EndToEnd
  import opened Wiring
  import Sync
  import SyncFrame
  import TargetCloses

  // ---- What the raw target asks for ------------------------------------------------------------

  // A bind is listed exactly when the service exists and one of its Kubernetes
  // services gives the address.
  lemma BindListedIff(src: Source, store: ClusterStore, order: seq<string>, backends: string -> Backend,
                      name: string, addr: string)
    requires FromParser(src, store) && WellNamed(src) && Ranged(src, order) && Backed(src, backends)
    ensures Stable.Serves(BuiltFrom(src, store, order).clusters, name, addr) <==>
              Given(src, backends, name, addr)
  {
    if Stable.Serves(BuiltFrom(src, store, order).clusters, name, addr) {
      ListedServes(src, store, order, backends, name, addr);
    }
    if Given(src, backends, name, addr) {
      ClusterKept(src, store, order, name);
      ListsAddressIff(src.servers(name), backends(name), addr);
      assert ClusterObject(src, name).cluster.Name() == name;
    }
  }

  lemma ListedServes(src: Source, store: ClusterStore, order: seq<string>, backends: string -> Backend, name: string,
                     addr: string)
    requires FromParser(src, store) && Ranged(src, order) && Backed(src, backends)
    requires Stable.Serves(BuiltFrom(src, store, order).clusters, name, addr)
    ensures Given(src, backends, name, addr)
  {
    var clusters := BuiltFrom(src, store, order).clusters;
    var c, x :| c in clusters && x in c.servers && c.cluster.Name() == name && x.Name() == addr;
    ClusterStems(src, store, order, c);
    ListsAddressIff(src.servers(name), backends(name), addr);
  }

  lemma RawBindIff(src: Source, store: ClusterStore, order: seq<string>, backends: string -> Backend, raw: RawState,
                   name: string, addr: string)
    requires FromParser(src, store) && WellNamed(src) && Ranged(src, order) && Backed(src, backends)
    requires IsStable(BuiltFrom(src, store, order), raw)
    ensures RawBind(name, addr, None) in raw.binds <==>
              Given(src, backends, name, addr)
  {
    StableKeeps(BuiltFrom(src, store, order), raw);
    BindListedIff(src, store, order, backends, name, addr);
  }

  // An API asks for a node exactly when it dispatches to the cluster, and with the
  // settings of its rule's first route.
  lemma RawNodeIff(src: Source, store: ClusterStore, order: seq<string>, raw: RawState, x: Index, cluster: string,
                   options: string)
    requires FromParser(src, store) && WellNamed(src) && Ranged(src, order)
    requires NamesDetermineAPIs(src) && IsAttached(src, x)
    requires IsStable(BuiltFrom(src, store, order), raw)
    ensures AsksNode(raw.apis, NameOf(src, x), cluster, options) <==>
              DispatchesTo(src, store, x, cluster) && options == src.ings[x.i].rules[x.j].routes[0].settings
  {
    StableKeeps(BuiltFrom(src, store, order), raw);
    if AsksNode(raw.apis, NameOf(src, x), cluster, options) {
      NodeStems(src, store, order, raw.apis, x, cluster, options);
    }
    if DispatchesTo(src, store, x, cluster) && options == src.ings[x.i].rules[x.j].routes[0].settings {
      NodeListed(src, store, order, raw.apis, x, cluster, options);
    }
  }

  lemma NodeStems(src: Source, store: ClusterStore, order: seq<string>, apis: seq<RawAPI>, x: Index, cluster: string,
                  options: string)
    requires FromParser(src, store) && WellNamed(src) && Ranged(src, order)
    requires NamesDetermineAPIs(src) && IsAttached(src, x)
    requires APIsListed(BuiltFrom(src, store, order).apis, apis) && AsksNode(apis, NameOf(src, x), cluster, options)
    ensures DispatchesTo(src, store, x, cluster) && options == src.ings[x.i].rules[x.j].routes[0].settings
  {
    var a := AskingAPI(apis, NameOf(src, x), cluster, options);
    var pa := ListedAPI(BuiltFrom(src, store, order).apis, apis, a);
    APIsBuiltIff(src, store, order, x, pa);
    AsksForIff(src, store, x, a, pa, cluster, options);
  }

  lemma NodeListed(src: Source, store: ClusterStore, order: seq<string>, apis: seq<RawAPI>, x: Index,
                   cluster: string, options: string)
    requires FromParser(src, store) && WellNamed(src) && Ranged(src, order)
    requires NamesDetermineAPIs(src) && IsAttached(src, x)
    requires APIsListed(BuiltFrom(src, store, order).apis, apis) && DispatchesTo(src, store, x, cluster)
    requires options == src.ings[x.i].rules[x.j].routes[0].settings
    ensures AsksNode(apis, NameOf(src, x), cluster, options)
  {
    var pa := APIBuilt(src, store, order, x);
    var a := APIListing(BuiltFrom(src, store, order).apis, apis, pa);
    AsksForIff(src, store, x, a, pa, cluster, options);
  }

  lemma AskingAPI(apis: seq<RawAPI>, api: string, cluster: string, options: string) returns (a: RawAPI)
    requires AsksNode(apis, api, cluster, options)
    ensures a in apis && a.api.Name() == api && AsksFor(a.proxies, cluster, options)
  {
    a :| a in apis && a.api.Name() == api && AsksFor(a.proxies, cluster, options);
  }

  lemma AsksForIff(src: Source, store: ClusterStore, x: Index, a: RawAPI, pa: ParserAPI, cluster: string,
                   options: string)
    requires ListingOfAPI(a, pa) && APIOf(src, store, x, pa)
    ensures AsksFor(a.proxies, cluster, options) <==>
              DispatchesTo(src, store, x, cluster) && options == src.ings[x.i].rules[x.j].routes[0].settings
  {
    if AsksFor(a.proxies, cluster, options) {
      var j :| 0 <= j < |a.proxies| && a.proxies[j].clusterName == cluster && a.proxies[j].node.options == options;
      assert a.proxies[j] in a.proxies;
      var k :| k in pa.proxies && pa.proxies[k] == a.proxies[j];
      assert DispatchesTo(src, store, x, k);
    }
    if DispatchesTo(src, store, x, cluster) && options == src.ings[x.i].rules[x.j].routes[0].settings {
      var p := pa.proxies[cluster];
      assert p in a.proxies;
      var j :| 0 <= j < |a.proxies| && a.proxies[j] == p;
    }
  }

  // The routing of a mirror or split is listed as such and as nothing else.
  lemma RawRoutingIff(src: Source, store: ClusterStore, order: seq<string>, raw: RawState, x: Index, n: nat,
                      r: RawRouting, config: string, api: string, cluster: string)
    requires FromParser(src, store) && WellNamed(src) && Ranged(src, order)
    requires NamesDetermineRoutings(src) && IsAttached(src, x)
    requires MirrorOf(src, x, n, r) || SplitOf(src, x, n, r)
    requires IsStable(BuiltFrom(src, store, order), raw) && Plain(RoutingsOf(raw), RoutingKind)
    ensures AsksRouting(raw.routings, r.routing.name, config, api, cluster) <==>
              config == r.routing.config && api == r.apiName && cluster == r.clusterName
  {
    StableKeeps(BuiltFrom(src, store, order), raw);
    RoutingsBuilt(src, store, order, x, n, r);
    SameMembers(raw.routings, BuiltFrom(src, store, order).routings);
    ListedAsItIs(raw, r, config, api, cluster);
  }

  lemma ListedAsItIs(raw: RawState, r: RawRouting, config: string, api: string, cluster: string)
    requires Plain(RoutingsOf(raw), RoutingKind) && r in raw.routings && r.routing.Routing?
    ensures AsksRouting(raw.routings, r.routing.name, config, api, cluster) <==>
              config == r.routing.config && api == r.apiName && cluster == r.clusterName
  {
    if AsksRouting(raw.routings, r.routing.name, config, api, cluster) {
      var q := AskedRouting(raw.routings, r.routing.name, config, api, cluster);
      OneRouting(raw, q, r);
    }
  }

  lemma OneRouting(raw: RawState, q: RawRouting, r: RawRouting)
    requires Plain(RoutingsOf(raw), RoutingKind) && q in raw.routings && r in raw.routings
    requires q.routing.Name() == r.routing.Name()
    ensures q == r
  {
    var i :| 0 <= i < |raw.routings| && raw.routings[i] == q;
    var j :| 0 <= j < |raw.routings| && raw.routings[j] == r;
    assert RoutingsOf(raw)[i] == q.routing && RoutingsOf(raw)[j] == r.routing;
    assert i == j;
  }

  lemma RawIsUnlinked(src: Source, store: ClusterStore, order: seq<string>, raw: RawState)
    requires FromParser(src, store) && Ranged(src, order) && IsStable(BuiltFrom(src, store, order), raw)
    ensures TargetCloses.Unlinked(raw)
  {
    StableKeeps(BuiltFrom(src, store, order), raw);
    SameMembers(raw.routings, BuiltFrom(src, store, order).routings);
    forall r | r in raw.routings
      ensures r.routing.Routing? && r.routing.clusterID == 0 && r.routing.apiID == 0
    {
      var x, n := RoutingsStem(src, store, order, r);
    }
  }

  // ---- What the gateway has after an update -----------------------------------------------------

  // raw is what the parser and toStable make of the ingresses and the endpoints.
  ghost predicate Sourced(src: Source, store: ClusterStore, order: seq<string>, backends: string -> Backend,
                          raw: RawState) {
    && FromParser(src, store) && Ranged(src, order) && Backed(src, backends)
    && NamesClean(src) && NamesUnique(src) && FewRoutings(src)
    && IsStable(BuiltFrom(src, store, order), raw)
  }

  // The update from this gateway ends without error and leaves it like this.
  ghost predicate EndsClean(c: Sync.Config, gateway: Gateway, run: seq<Sync.Label>, left: Gateway) {
    && SyncFrame.ExecuteFrom(c, gateway, run).Some? && Sync.Clean(SyncFrame.ExecuteFrom(c, gateway, run).value)
    && SyncFrame.ExecuteFrom(c, gateway, run).value.remote == left
  }

  // It holds all of the target, and nothing else if no orphan was there.
  lemma LeftWithin(gateway: Gateway, raw: RawState, valid: Entity -> bool, c: Sync.Config, snow: nat -> Id,
                   run: seq<Sync.Label>, left: Gateway)
    requires Updates(gateway, raw, valid, c, snow) && EndsClean(c, gateway, run, left)
    ensures Within(c.target.ids, left)
    ensures NoOrphans(gateway) ==> Within(left, c.target.ids)
  {
    UpdateIsWellFormed(gateway, raw, valid, c, snow);
    forall r | r in c.target.ids
      ensures r in left && FieldsAgree(c.target.ids[r], left[r])
    {
      SyncFrame.CleanRowMatches(c, gateway, run, r);
      SameIffAgree(left[r], c.target.ids[r]);
      AgreeBack(left[r], c.target.ids[r]);
    }
    if NoOrphans(gateway) {
      UpdateMatchesIff(gateway, raw, valid, c, snow, run);
      MatchesIsWithin(left, c.target.ids);
    }
  }

  // After an update that ends without error the gateway binds a service's cluster
  // to an address if one of the service's Kubernetes services gives it and both
  // pass the validators; and only then, unless an orphan was left there before.
  lemma BoundIff(src: Source, store: ClusterStore, order: seq<string>, backends: string -> Backend, raw: RawState,
                 gateway: Gateway, valid: Entity -> bool, c: Sync.Config, snow: nat -> Id, run: seq<Sync.Label>,
                 left: Gateway, name: string, addr: string)
    requires Sourced(src, store, order, backends, raw) && Updates(gateway, raw, valid, c, snow)
    requires EndsClean(c, gateway, run, left)
    ensures
      var out := Prepared(c.current, snow, raw, valid).value;
      var asked := Given(src, backends, name, addr) && Survives(out, name, addr);
      && (asked ==> Bound(left, name, addr))
      && (NoOrphans(gateway) ==> (Bound(left, name, addr) <==> asked))
  {
    BackedIsAddressed(src, backends);
    RawBindIff(src, store, order, backends, raw, name, addr);
    RawIsUnlinked(src, store, order, raw);
    TargetBoundIff(c.current, snow, raw, valid, c.parallelism, name, addr);
    LeftWithin(gateway, raw, valid, c, snow, run, left);
    if Bound(c.target.ids, name, addr) {
      BoundWithin(c.target.ids, left, name, addr);
    }
    if NoOrphans(gateway) && Bound(left, name, addr) {
      BoundWithin(left, c.target.ids, name, addr);
    }
  }

  // It lets the API of an attached match rule dispatch to a cluster if the rule has
  // a route and that or a later rule has one there that is kept, always with the
  // settings of the rule's first route; and only then.
  lemma DispatchedIff(src: Source, store: ClusterStore, order: seq<string>, backends: string -> Backend,
                      raw: RawState, gateway: Gateway, valid: Entity -> bool, c: Sync.Config, snow: nat -> Id,
                      run: seq<Sync.Label>, left: Gateway, x: Index, cluster: string, options: string)
    requires Sourced(src, store, order, backends, raw) && Updates(gateway, raw, valid, c, snow)
    requires EndsClean(c, gateway, run, left) && NamesDetermineAPIs(src) && IsAttached(src, x)
    ensures
      var out := Prepared(c.current, snow, raw, valid).value;
      var asked := && DispatchesTo(src, store, x, cluster)
                   && options == src.ings[x.i].rules[x.j].routes[0].settings
                   && Mentioned(APIsOf(out), NameOf(src, x)) && Mentioned(out.clusters, cluster);
      && (asked ==> Dispatched(left, NameOf(src, x), cluster, options))
      && (NoOrphans(gateway) ==> (Dispatched(left, NameOf(src, x), cluster, options) <==> asked))
  {
    BackedIsAddressed(src, backends);
    RawNodeIff(src, store, order, raw, x, cluster, options);
    RawIsUnlinked(src, store, order, raw);
    var api := NameOf(src, x);
    TargetDispatchedIff(c.current, snow, raw, valid, c.parallelism, api, cluster, options);
    LeftWithin(gateway, raw, valid, c, snow, run, left);
    if Dispatched(c.target.ids, api, cluster, options) {
      DispatchedWithin(c.target.ids, left, api, cluster, options);
    }
    if NoOrphans(gateway) && Dispatched(left, api, cluster, options) {
      DispatchedWithin(left, c.target.ids, api, cluster, options);
    }
  }

  // And the routing of a mirror or split leads from its API to its cluster, with its
  // rate and conditions, if all three pass the validators; and nowhere else.
  lemma JoinedIff(src: Source, store: ClusterStore, order: seq<string>, backends: string -> Backend, raw: RawState,
                  gateway: Gateway, valid: Entity -> bool, c: Sync.Config, snow: nat -> Id, run: seq<Sync.Label>,
                  left: Gateway, x: Index, n: nat, r: RawRouting, config: string, api: string, cluster: string)
    requires Sourced(src, store, order, backends, raw) && Updates(gateway, raw, valid, c, snow)
    requires EndsClean(c, gateway, run, left) && NamesDetermineRoutings(src) && IsAttached(src, x)
    requires MirrorOf(src, x, n, r) || SplitOf(src, x, n, r)
    ensures
      var out := Prepared(c.current, snow, raw, valid).value;
      var asked := && config == r.routing.config && api == r.apiName && cluster == r.clusterName
                   && Mentioned(RoutingsOf(out), r.routing.name)
                   && Mentioned(APIsOf(out), api) && Mentioned(out.clusters, cluster);
      && (asked ==> Joined(left, r.routing.name, config, api, cluster))
      && (NoOrphans(gateway) ==> (Joined(left, r.routing.name, config, api, cluster) <==> asked))
  {
    BackedIsAddressed(src, backends);
    RawRoutingIff(src, store, order, raw, x, n, r, config, api, cluster);
    RawIsUnlinked(src, store, order, raw);
    var name := r.routing.name;
    TargetJoinedIff(c.current, snow, raw, valid, c.parallelism, name, config, api, cluster);
    LeftWithin(gateway, raw, valid, c, snow, run, left);
    if Joined(c.target.ids, name, config, api, cluster) {
      JoinedWithin(c.target.ids, left, name, config, api, cluster);
    }
    if NoOrphans(gateway) && Joined(left, name, config, api, cluster) {
      JoinedWithin(left, c.target.ids, name, config, api, cluster);
    }
  }
}
