// How the parser turns ingress rules into services, APIs and their proxies.
module Parsing {
  import opened Entities
  import opened Naming

  datatype RouteCluster = RouteCluster(name: string, subset: string, port: string)

  // `settings` stands for the timeouts, validations, cache and so on that a
  // proxy takes from a route; `patterns` for the values of its match maps.
  datatype Route = Route(cluster: RouteCluster, settings: string, patterns: seq<string>)

  // matches[k] is the number of match rules of match k.
  datatype Rule = Rule(matches: seq<nat>, routes: seq<Route>, mirrors: seq<RouteCluster>, splits: seq<RouteCluster>)

  datatype Ingress = Ingress(namespace: string, name: string, rules: seq<Rule>)

  // Fetching a ManbaCluster yields the names of its subsets.
  datatype Fetch = Missing | Failing | Found(subsets: seq<string>)
  type ClusterStore = (string, string) -> Fetch

  // ---- getClusterSubset --------------------------------------------------------------

  method GetClusterSubset(subsets: seq<string>, subset: string) returns (at: Option<nat>)
    ensures at.Some? <==> subset in subsets
    ensures at.Some? ==> at.value < |subsets| && subsets[at.value] == subset && subset !in subsets[..at.value]
  {
    for i := 0 to |subsets|
      invariant subset !in subsets[..i]
    {
      if subsets[i] == subset {
        return Some(i);
      }
    }
    at := None;
  }

  predicate Resolves(store: ClusterStore, namespace: string, c: RouteCluster) {
    store(namespace, c.name).Found? && c.subset in store(namespace, c.name).subsets
  }

  function ServiceOf(namespace: string, c: RouteCluster): string {
    ServiceName(namespace, c.name, c.subset, c.port)
  }

  // ---- parseIngressRules ------------------------------------------------------------------

  // One turn of the loop over routes: the APIs gathered so far are attached to
  // the service the route names.
  datatype Visit = Visit(apis: seq<Index>, service: string, resolves: bool)

  // The APIs of a match, of the first n matches of a rule, and of the first n
  // rules of ingress i.
  function MatchAPIs(i: nat, j: nat, k: nat, n: nat): seq<Index> {
    seq(n, g requires 0 <= g < n => Index(i, j, k, g))
  }

  function RuleAPIs(i: nat, j: nat, matches: seq<nat>, n: nat): seq<Index>
    requires n <= |matches|
  {
    if n == 0 then [] else RuleAPIs(i, j, matches, n - 1) + MatchAPIs(i, j, n - 1, matches[n - 1])
  }

  function APIsUpTo(i: nat, rules: seq<Rule>, n: nat): seq<Index>
    requires n <= |rules|
  {
    if n == 0 then []
    else APIsUpTo(i, rules, n - 1) + RuleAPIs(i, n - 1, rules[n - 1].matches, |rules[n - 1].matches|)
  }

  function RouteVisit(store: ClusterStore, namespace: string, apis: seq<Index>, route: Route): Visit {
    Visit(apis, ServiceOf(namespace, route.cluster), Resolves(store, namespace, route.cluster))
  }

  function RuleVisits(store: ClusterStore, namespace: string, apis: seq<Index>, routes: seq<Route>): seq<Visit> {
    seq(|routes|, r requires 0 <= r < |routes| => RouteVisit(store, namespace, apis, routes[r]))
  }

  // The list of APIs is not reset between the rules of an ingress.
  function IngressVisits(store: ClusterStore, i: nat, ing: Ingress, n: nat): seq<Visit>
    requires n <= |ing.rules|
  {
    if n == 0 then []
    else IngressVisits(store, i, ing, n - 1)
         + RuleVisits(store, ing.namespace, APIsUpTo(i, ing.rules, n), ing.rules[n - 1].routes)
  }

  function AllVisits(store: ClusterStore, ings: seq<Ingress>, n: nat): seq<Visit>
    requires n <= |ings|
  {
    if n == 0 then []
    else AllVisits(store, ings, n - 1) + IngressVisits(store, n - 1, ings[n - 1], |ings[n - 1].rules|)
  }

  type Services = map<string, seq<Index>>

  // A route whose cluster or subset is missing is passed over, unless the
  // service is there already.
  function AttachOne(m: Services, v: Visit): Services {
    if v.service in m then m[v.service := m[v.service] + v.apis]
    else if v.resolves then m[v.service := v.apis]
    else m
  }

  function Attach(visits: seq<Visit>): Services {
    if visits == [] then map[] else AttachOne(Attach(visits[..|visits| - 1]), visits[|visits| - 1])
  }

  lemma AttachNext(visits: seq<Visit>, v: Visit)
    ensures Attach(visits + [v]) == AttachOne(Attach(visits), v)
  {
  }

  method VisitRoute(services0: Services, store: ClusterStore, namespace: string, apis: seq<Index>, route: Route)
    returns (services: Services)
    ensures services == AttachOne(services0, RouteVisit(store, namespace, apis, route))
  {
    services := services0;
    var name := ServiceOf(namespace, route.cluster);
    if name !in services {
      var fetched := store(namespace, route.cluster.name);
      if !fetched.Found? {
        return;
      }
      var at := GetClusterSubset(fetched.subsets, route.cluster.subset);
      if at.None? {
        return;
      }
      assert [] + apis == apis;
      services := services[name := []];
    }
    services := services[name := services[name] + apis];
    assert name !in services0 ==> services == services0[name := apis];
  }

  method RuleLoop(i: nat, j: nat, matches: seq<nat>, apis0: seq<Index>) returns (apis: seq<Index>)
    ensures apis == apis0 + RuleAPIs(i, j, matches, |matches|)
  {
    apis := apis0;
    for k := 0 to |matches|
      invariant apis == apis0 + RuleAPIs(i, j, matches, k)
    {
      ghost var before := apis;
      for g := 0 to matches[k]
        invariant apis == before + MatchAPIs(i, j, k, g)
      {
        apis := apis + [Index(i, j, k, g)];
      }
    }
  }

  lemma PrefixNext<T>(xs: seq<T>, ys: seq<T>, r: nat)
    requires r < |ys|
    ensures xs + ys[..r] + [ys[r]] == xs + ys[..r + 1]
  {
  }

  lemma JoinThree<T>(xs: seq<T>, ys: seq<T>, zs: seq<T>)
    ensures xs + ys + zs == xs + (ys + zs)
  {
  }

  method RouteLoop(services0: Services, store: ClusterStore, namespace: string, apis: seq<Index>, routes: seq<Route>,
                   ghost done0: seq<Visit>) returns (services: Services)
    requires services0 == Attach(done0)
    ensures services == Attach(done0 + RuleVisits(store, namespace, apis, routes))
  {
    services := services0;
    ghost var done, all := done0, RuleVisits(store, namespace, apis, routes);
    for r := 0 to |routes|
      invariant done == done0 + all[..r]
      invariant services == Attach(done)
    {
      services := VisitRoute(services, store, namespace, apis, routes[r]);
      AttachNext(done, all[r]);
      PrefixNext(done0, all, r);
      done := done + [all[r]];
    }
    assert all[..|routes|] == all;
  }

  method IngressLoop(services0: Services, store: ClusterStore, i: nat, ing: Ingress, ghost done0: seq<Visit>)
    returns (services: Services)
    requires services0 == Attach(done0)
    ensures services == Attach(done0 + IngressVisits(store, i, ing, |ing.rules|))
  {
    services := services0;
    ghost var done := done0;
    var apis: seq<Index> := [];
    for j := 0 to |ing.rules|
      invariant apis == APIsUpTo(i, ing.rules, j)
      invariant done == done0 + IngressVisits(store, i, ing, j)
      invariant services == Attach(done)
    {
      apis := RuleLoop(i, j, ing.rules[j].matches, apis);
      services := RouteLoop(services, store, ing.namespace, apis, ing.rules[j].routes, done);
      ghost var more := RuleVisits(store, ing.namespace, apis, ing.rules[j].routes);
      JoinThree(done0, IngressVisits(store, i, ing, j), more);
      done := done + more;
    }
  }

  // The ingresses come ordered by creation time.
  method ParseIngressRules(store: ClusterStore, ings: seq<Ingress>) returns (services: Services)
    ensures services == Attach(AllVisits(store, ings, |ings|))
  {
    services := map[];
    ghost var done: seq<Visit> := [];
    for i := 0 to |ings|
      invariant done == AllVisits(store, ings, i)
      invariant services == Attach(done)
    {
      services := IngressLoop(services, store, i, ings[i], done);
      done := done + IngressVisits(store, i, ings[i], |ings[i].rules|);
    }
  }

  // ---- Which API ends up at which service ---------------------------------------------------

  // Route t is not passed over: it, or an earlier route to the service, resolves.
  ghost predicate Kept(visits: seq<Visit>, t: nat)
    requires t < |visits|
  {
    exists u :: 0 <= u <= t && visits[u].service == visits[t].service && visits[u].resolves
  }

  ghost predicate Attaches(visits: seq<Visit>, t: nat, service: string) {
    t < |visits| && visits[t].service == service && Kept(visits, t)
  }

  lemma AttachesInPrefix(visits: seq<Visit>, t: nat, service: string)
    requires visits != [] && t < |visits| - 1
    ensures Attaches(visits[..|visits| - 1], t, service) <==> Attaches(visits, t, service)
  {
  }

  // A service exists exactly when some route to it is kept.
  lemma {:induction false} ServiceExistsIff(visits: seq<Visit>, service: string)
    ensures service in Attach(visits) <==> exists t: nat :: Attaches(visits, t, service)
  {
    if visits != [] {
      var n := |visits| - 1;
      ServiceExistsIff(visits[..n], service);
      EarlierAttaches(visits, service);
      LastAttaches(visits, service);
    }
  }

  lemma EarlierAttaches(visits: seq<Visit>, service: string)
    requires visits != []
    ensures
      var n := |visits| - 1;
      (exists t: nat :: Attaches(visits[..n], t, service)) <==> exists t: nat :: t < n && Attaches(visits, t, service)
  {
    var n := |visits| - 1;
    if t: nat :| Attaches(visits[..n], t, service) {
      AttachesInPrefix(visits, t, service);
    }
    if t: nat :| t < n && Attaches(visits, t, service) {
      AttachesInPrefix(visits, t, service);
    }
  }

  ghost predicate Gathers(visits: seq<Visit>, t: nat, service: string, x: Index) {
    Attaches(visits, t, service) && x in visits[t].apis
  }

  // An API is attached exactly when it had been gathered by the time of a kept
  // route to the service.
  lemma {:induction false} AttachedIff(visits: seq<Visit>, service: string, x: Index)
    ensures service in Attach(visits) && x in Attach(visits)[service] <==>
              exists t: nat :: Gathers(visits, t, service, x)
  {
    ServiceExistsIff(visits, service);
    if visits != [] {
      var n := |visits| - 1;
      AttachedIff(visits[..n], service, x);
      EarlierGathers(visits, service, x);
      ServiceExistsIff(visits[..n], service);
      EarlierAttaches(visits, service);
      LastAttaches(visits, service);
      GathersSplit(visits, service, x);
    }
  }

  lemma EarlierGathers(visits: seq<Visit>, service: string, x: Index)
    requires visits != []
    ensures
      var n := |visits| - 1;
      (exists t: nat :: Gathers(visits[..n], t, service, x)) <==>
        exists t: nat :: t < n && Gathers(visits, t, service, x)
  {
    var n := |visits| - 1;
    if t: nat :| Gathers(visits[..n], t, service, x) {
      AttachesInPrefix(visits, t, service);
      assert Gathers(visits, t, service, x);
    }
    if t: nat :| t < n && Gathers(visits, t, service, x) {
      AttachesInPrefix(visits, t, service);
      assert Gathers(visits[..n], t, service, x);
    }
  }

  lemma GathersSplit(visits: seq<Visit>, service: string, x: Index)
    requires visits != []
    ensures
      var n := |visits| - 1;
      (exists t: nat :: Gathers(visits, t, service, x)) <==>
        (exists t: nat :: t < n && Gathers(visits, t, service, x)) || Gathers(visits, n, service, x)
  {
  }

  lemma LastAttaches(visits: seq<Visit>, service: string)
    requires visits != []
    ensures
      var n := |visits| - 1;
      Attaches(visits, n, service) <==>
        visits[n].service == service && (visits[n].resolves || exists t: nat :: t < n && Attaches(visits, t, service))
  {
    var n := |visits| - 1;
    if t: nat :| t < n && Attaches(visits, t, service) {
      var u :| 0 <= u <= t && visits[u].service == visits[t].service && visits[u].resolves;
    }
    if Attaches(visits, n, service) && !visits[n].resolves {
      var u :| 0 <= u <= n && visits[u].service == service && visits[u].resolves;
      assert Attaches(visits, u, service);
    }
  }
}
