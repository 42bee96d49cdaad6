// Which clusters an API dispatches to, and with whose settings.
module Dispatch {
  import opened Naming
  import opened Parsing

  // ---- fillOverride --------------------------------------------------------------------

  type Proxies = map<Index, map<string, string>>

  // The proxies of an API by cluster name, with their settings.
  function Of(proxies: Proxies, x: Index): map<string, string> {
    if x in proxies then proxies[x] else map[]
  }

  // A proxy for every attached service; as only the first route gets to fill
  // it, its settings are those of the first route of the API's own rule.
  ghost predicate Filled(proxies: Proxies, services: Services, done: set<string>, settings: Index -> seq<string>) {
    forall x, s ::
      && (s in Of(proxies, x) <==> s in done && s in services && x in services[s] && settings(x) != [])
      && (s in Of(proxies, x) && settings(x) != [] ==> Of(proxies, x)[s] == settings(x)[0])
  }

  // The loop over the routes of one API's rule.
  method FillOne(m0: map<string, string>, service: string, settings: seq<string>) returns (m: map<string, string>)
    requires service in m0 && settings != [] ==> m0[service] == settings[0]
    ensures m == if settings == [] || service in m0 then m0 else m0[service := settings[0]]
  {
    m := m0;
    for r := 0 to |settings|
      invariant m == if r == 0 || service in m0 then m0 else m0[service := settings[0]]
    {
      if service !in m {
        m := m[service := settings[r]];
      }
    }
  }

  method FillService(proxies0: Proxies, services: Services, service: string, settings: Index -> seq<string>,
                     ghost done: set<string>) returns (proxies: Proxies)
    requires service in services && service !in done && Filled(proxies0, services, done, settings)
    ensures Filled(proxies, services, done + {service}, settings)
  {
    proxies := proxies0;
    var apis := services[service];
    for i := 0 to |apis|
      invariant forall x, s | s != service || x !in apis[..i] || settings(x) == [] ::
                  (s in Of(proxies, x) <==> s in Of(proxies0, x))
                  && (s in Of(proxies, x) ==> Of(proxies, x)[s] == Of(proxies0, x)[s])
      invariant forall x | x in apis[..i] && settings(x) != [] ::
                  service in Of(proxies, x) && Of(proxies, x)[service] == settings(x)[0]
    {
      var x := apis[i];
      assert apis[..i + 1] == apis[..i] + [x];
      var m := FillOne(Of(proxies, x), service, settings(x));
      proxies := proxies[x := m];
    }
    assert apis[..|apis|] == apis;
  }

  // The services come in any order.
  method FillProxies(services: Services, settings: Index -> seq<string>) returns (proxies: Proxies)
    ensures Filled(proxies, services, services.Keys, settings)
  {
    proxies := map[];
    var left := services.Keys;
    while left != {}
      invariant left <= services.Keys
      invariant Filled(proxies, services, services.Keys - left, settings)
      decreases left
    {
      var s :| s in left;
      proxies := FillService(proxies, services, s, settings, services.Keys - left);
      assert services.Keys - left + {s} == services.Keys - (left - {s});
      left := left - {s};
    }
  }

  // ---- APIs and the routes of their ingress ---------------------------------------------------

  predicate HasAPI(rules: seq<Rule>, x: Index) {
    x.j < |rules| && x.k < |rules[x.j].matches| && x.g < rules[x.j].matches[x.k]
  }

  lemma {:induction false} InRuleAPIs(i: nat, j: nat, matches: seq<nat>, n: nat, x: Index)
    requires n <= |matches|
    ensures x in RuleAPIs(i, j, matches, n) <==> x.i == i && x.j == j && x.k < n && x.g < matches[x.k]
  {
    if n > 0 {
      InRuleAPIs(i, j, matches, n - 1, x);
      var last := MatchAPIs(i, j, n - 1, matches[n - 1]);
      if x == Index(i, j, n - 1, x.g) && x.g < matches[n - 1] {
        assert last[x.g] == x;
      }
    }
  }

  lemma {:induction false} InAPIsUpTo(i: nat, rules: seq<Rule>, n: nat, x: Index)
    requires n <= |rules|
    ensures x in APIsUpTo(i, rules, n) <==> x.i == i && x.j < n && HasAPI(rules, x)
  {
    if n > 0 {
      InAPIsUpTo(i, rules, n - 1, x);
      InRuleAPIs(i, n - 1, rules[n - 1].matches, |rules[n - 1].matches|, x);
    }
  }

  // ---- The order of the routes -----------------------------------------------------------

  // Route r of rule j of ingress i.
  datatype Place = Place(i: nat, j: nat, r: nat)

  predicate IsPlace(ings: seq<Ingress>, p: Place) {
    p.i < |ings| && p.j < |ings[p.i].rules| && p.r < |ings[p.i].rules[p.j].routes|
  }

  function RouteAt(ings: seq<Ingress>, p: Place): Route
    requires IsPlace(ings, p)
  {
    ings[p.i].rules[p.j].routes[p.r]
  }

  function ServiceAt(ings: seq<Ingress>, p: Place): string
    requires IsPlace(ings, p)
  {
    ServiceOf(ings[p.i].namespace, RouteAt(ings, p).cluster)
  }

  predicate ResolvesAt(store: ClusterStore, ings: seq<Ingress>, p: Place)
    requires IsPlace(ings, p)
  {
    Resolves(store, ings[p.i].namespace, RouteAt(ings, p).cluster)
  }

  // The order in which the loops visit the routes.
  predicate Before(p: Place, q: Place) {
    p.i < q.i || (p.i == q.i && (p.j < q.j || (p.j == q.j && p.r < q.r)))
  }

  // The route is not passed over: it, or an earlier route to the same service,
  // finds its cluster and subset.
  ghost predicate KeptRoute(store: ClusterStore, ings: seq<Ingress>, p: Place)
    requires IsPlace(ings, p)
  {
    exists q :: IsPlace(ings, q) && !Before(p, q) && ServiceAt(ings, q) == ServiceAt(ings, p)
             && ResolvesAt(store, ings, q)
  }

  function VisitAt(store: ClusterStore, ings: seq<Ingress>, p: Place): Visit
    requires IsPlace(ings, p)
  {
    RouteVisit(store, ings[p.i].namespace, APIsUpTo(p.i, ings[p.i].rules, p.j + 1), RouteAt(ings, p))
  }

  // How many routes there are in the first n rules of an ingress, and in the
  // first n ingresses.
  function RulesLength(rules: seq<Rule>, n: nat): nat
    requires n <= |rules|
  {
    if n == 0 then 0 else RulesLength(rules, n - 1) + |rules[n - 1].routes|
  }

  function AllLength(ings: seq<Ingress>, n: nat): nat
    requires n <= |ings|
  {
    if n == 0 then 0 else AllLength(ings, n - 1) + RulesLength(ings[n - 1].rules, |ings[n - 1].rules|)
  }

  function Position(ings: seq<Ingress>, p: Place): nat
    requires IsPlace(ings, p)
  {
    AllLength(ings, p.i) + RulesLength(ings[p.i].rules, p.j) + p.r
  }

  lemma {:induction false} RulesGrow(rules: seq<Rule>, m: nat, n: nat)
    requires m <= n <= |rules|
    ensures RulesLength(rules, m) <= RulesLength(rules, n)
  {
    if m < n {
      RulesGrow(rules, m, n - 1);
    }
  }

  lemma {:induction false} AllGrow(ings: seq<Ingress>, m: nat, n: nat)
    requires m <= n <= |ings|
    ensures AllLength(ings, m) <= AllLength(ings, n)
  {
    if m < n {
      AllGrow(ings, m, n - 1);
    }
  }

  lemma WithinIngress(ings: seq<Ingress>, p: Place)
    requires IsPlace(ings, p)
    ensures RulesLength(ings[p.i].rules, p.j) + p.r < RulesLength(ings[p.i].rules, p.j + 1)
    ensures Position(ings, p) < AllLength(ings, p.i + 1)
  {
    RulesGrow(ings[p.i].rules, p.j + 1, |ings[p.i].rules|);
  }

  lemma PositionsAscend(ings: seq<Ingress>, p: Place, q: Place)
    requires IsPlace(ings, p) && IsPlace(ings, q) && Before(p, q)
    ensures Position(ings, p) < Position(ings, q)
  {
    WithinIngress(ings, p);
    if p.i < q.i {
      AllGrow(ings, p.i + 1, q.i);
    } else if p.j < q.j {
      RulesGrow(ings[p.i].rules, p.j + 1, q.j);
    }
  }

  lemma {:induction false} PlaceInRules(ings: seq<Ingress>, i: nat, n: nat, t: nat) returns (p: Place)
    requires i < |ings| && n <= |ings[i].rules| && t < RulesLength(ings[i].rules, n)
    ensures IsPlace(ings, p) && p.i == i && t == RulesLength(ings[i].rules, p.j) + p.r
  {
    var before := RulesLength(ings[i].rules, n - 1);
    if t < before {
      p := PlaceInRules(ings, i, n - 1, t);
    } else {
      p := Place(i, n - 1, t - before);
    }
  }

  lemma {:induction false} PlaceOf(ings: seq<Ingress>, n: nat, t: nat) returns (p: Place)
    requires n <= |ings| && t < AllLength(ings, n)
    ensures IsPlace(ings, p) && Position(ings, p) == t
  {
    var before := AllLength(ings, n - 1);
    if t < before {
      p := PlaceOf(ings, n - 1, t);
    } else {
      p := PlaceInRules(ings, n - 1, |ings[n - 1].rules|, t - before);
    }
  }

  lemma IndexOfJoin<T>(xs: seq<T>, ys: seq<T>, k: nat)
    requires k < |xs| + |ys|
    ensures (xs + ys)[k] == if k < |xs| then xs[k] else ys[k - |xs|]
  {
  }

  lemma {:induction false} IngressVisitsLength(store: ClusterStore, i: nat, ing: Ingress, n: nat)
    requires n <= |ing.rules|
    ensures |IngressVisits(store, i, ing, n)| == RulesLength(ing.rules, n)
  {
    if n > 0 {
      IngressVisitsLength(store, i, ing, n - 1);
    }
  }

  lemma {:induction false} AllVisitsLength(store: ClusterStore, ings: seq<Ingress>, n: nat)
    requires n <= |ings|
    ensures |AllVisits(store, ings, n)| == AllLength(ings, n)
  {
    if n > 0 {
      AllVisitsLength(store, ings, n - 1);
      IngressVisitsLength(store, n - 1, ings[n - 1], |ings[n - 1].rules|);
    }
  }

  lemma {:induction false} IngressVisitsGrow(store: ClusterStore, i: nat, ing: Ingress, m: nat, n: nat)
    requires m <= n <= |ing.rules|
    ensures IngressVisits(store, i, ing, m) <= IngressVisits(store, i, ing, n)
  {
    if m < n {
      IngressVisitsGrow(store, i, ing, m, n - 1);
    }
  }

  // Within its ingress a route is visited at that place.
  lemma InIngress(store: ClusterStore, ings: seq<Ingress>, p: Place)
    requires IsPlace(ings, p)
    ensures
      var ing, t := ings[p.i], RulesLength(ings[p.i].rules, p.j) + p.r;
      && t < |IngressVisits(store, p.i, ing, |ing.rules|)|
      && IngressVisits(store, p.i, ing, |ing.rules|)[t] == VisitAt(store, ings, p)
  {
    var ing := ings[p.i];
    IngressVisitsLength(store, p.i, ing, p.j);
    IndexOfJoin(IngressVisits(store, p.i, ing, p.j),
                RuleVisits(store, ing.namespace, APIsUpTo(p.i, ing.rules, p.j + 1), ing.rules[p.j].routes),
                RulesLength(ing.rules, p.j) + p.r);
    IngressVisitsGrow(store, p.i, ing, p.j + 1, |ing.rules|);
  }

  lemma {:induction false} AllVisitsGrow(store: ClusterStore, ings: seq<Ingress>, m: nat, n: nat)
    requires m <= n <= |ings|
    ensures AllVisits(store, ings, m) <= AllVisits(store, ings, n)
  {
    if m < n {
      AllVisitsGrow(store, ings, m, n - 1);
    }
  }

  // And among all routes.
  lemma VisitedThere(store: ClusterStore, ings: seq<Ingress>, p: Place)
    requires IsPlace(ings, p)
    ensures Position(ings, p) < |AllVisits(store, ings, |ings|)|
    ensures AllVisits(store, ings, |ings|)[Position(ings, p)] == VisitAt(store, ings, p)
  {
    AllVisitsLength(store, ings, p.i);
    InIngress(store, ings, p);
    IndexOfJoin(AllVisits(store, ings, p.i), IngressVisits(store, p.i, ings[p.i], |ings[p.i].rules|),
                Position(ings, p));
    AllVisitsGrow(store, ings, p.i + 1, |ings|);
  }

  // The APIs gathered by then are those of the ingress's rules up to this one.
  lemma GatheredThere(store: ClusterStore, ings: seq<Ingress>, p: Place, x: Index)
    requires IsPlace(ings, p)
    ensures Position(ings, p) < |AllVisits(store, ings, |ings|)|
    ensures x in AllVisits(store, ings, |ings|)[Position(ings, p)].apis <==>
              x.i == p.i && x.j <= p.j && HasAPI(ings[p.i].rules, x)
  {
    VisitedThere(store, ings, p);
    InAPIsUpTo(p.i, ings[p.i].rules, p.j + 1, x);
  }

  // Every visit is of one place.
  lemma PlaceOfVisit(store: ClusterStore, ings: seq<Ingress>, t: nat) returns (p: Place)
    requires t < |AllVisits(store, ings, |ings|)|
    ensures IsPlace(ings, p) && Position(ings, p) == t
  {
    AllVisitsLength(store, ings, |ings|);
    p := PlaceOf(ings, |ings|, t);
  }

  // A visit attaches exactly when its route is kept.
  lemma AttachesIffKept(store: ClusterStore, ings: seq<Ingress>, p: Place, service: string)
    requires IsPlace(ings, p)
    ensures Attaches(AllVisits(store, ings, |ings|), Position(ings, p), service) <==>
              ServiceAt(ings, p) == service && KeptRoute(store, ings, p)
  {
    var visits, t := AllVisits(store, ings, |ings|), Position(ings, p);
    VisitedThere(store, ings, p);
    if KeptRoute(store, ings, p) {
      var q :| IsPlace(ings, q) && !Before(p, q) && ServiceAt(ings, q) == ServiceAt(ings, p)
               && ResolvesAt(store, ings, q);
      KeptVisit(store, ings, p, q);
    }
    if Kept(visits, t) {
      var u :| 0 <= u <= t && visits[u].service == visits[t].service && visits[u].resolves;
      var q := PlaceOfVisit(store, ings, u);
      VisitedThere(store, ings, q);
      if Before(p, q) {
        PositionsAscend(ings, p, q);
      }
    }
  }

  lemma KeptVisit(store: ClusterStore, ings: seq<Ingress>, p: Place, q: Place)
    requires IsPlace(ings, p) && IsPlace(ings, q) && !Before(p, q)
    requires ServiceAt(ings, q) == ServiceAt(ings, p) && ResolvesAt(store, ings, q)
    ensures Position(ings, p) < |AllVisits(store, ings, |ings|)|
    ensures Kept(AllVisits(store, ings, |ings|), Position(ings, p))
  {
    VisitedThere(store, ings, p);
    VisitedThere(store, ings, q);
    if p != q {
      PositionsAscend(ings, q, p);
    }
  }

  // ---- Which API is attached where ----------------------------------------------------------

  ghost predicate Attached(services: Services, service: string, x: Index) {
    service in services && x in services[service]
  }

  // Rule j0 of ingress i, or a later one, has a route to the service that is kept.
  ghost predicate RoutesFrom(store: ClusterStore, ings: seq<Ingress>, i: nat, j0: nat, service: string) {
    exists p :: IsPlace(ings, p) && p.i == i && j0 <= p.j && ServiceAt(ings, p) == service && KeptRoute(store, ings, p)
  }

  // An API is attached to a service exactly when its own rule or a later rule
  // of the same ingress has a route there that is kept.
  lemma AttachedByLaterRules(store: ClusterStore, ings: seq<Ingress>, service: string, x: Index)
    ensures Attached(Attach(AllVisits(store, ings, |ings|)), service, x) <==>
              x.i < |ings| && HasAPI(ings[x.i].rules, x) && RoutesFrom(store, ings, x.i, x.j, service)
  {
    var visits := AllVisits(store, ings, |ings|);
    AttachedIff(visits, service, x);
    if t: nat :| Gathers(visits, t, service, x) {
      GatheredFromLaterRule(store, ings, service, x, t);
    } else if x.i < |ings| && HasAPI(ings[x.i].rules, x) && RoutesFrom(store, ings, x.i, x.j, service) {
      LaterRouteGathers(store, ings, service, x);
    }
  }

  lemma {:induction false} GatheredFromLaterRule(store: ClusterStore, ings: seq<Ingress>, service: string, x: Index,
                                                 t: nat)
    requires Gathers(AllVisits(store, ings, |ings|), t, service, x)
    ensures x.i < |ings| && HasAPI(ings[x.i].rules, x) && RoutesFrom(store, ings, x.i, x.j, service)
  {
    var p := PlaceOfVisit(store, ings, t);
    GatheredThere(store, ings, p, x);
    AttachesIffKept(store, ings, p, service);
  }

  lemma {:induction false} LaterRouteGathers(store: ClusterStore, ings: seq<Ingress>, service: string, x: Index)
    requires x.i < |ings| && HasAPI(ings[x.i].rules, x) && RoutesFrom(store, ings, x.i, x.j, service)
    ensures exists t: nat :: Gathers(AllVisits(store, ings, |ings|), t, service, x)
  {
    var p :| IsPlace(ings, p) && p.i == x.i && x.j <= p.j && ServiceAt(ings, p) == service && KeptRoute(store, ings, p);
    RouteGathers(store, ings, service, x, p);
  }

  lemma RouteGathers(store: ClusterStore, ings: seq<Ingress>, service: string, x: Index, p: Place)
    requires IsPlace(ings, p) && p.i == x.i && x.j <= p.j && HasAPI(ings[x.i].rules, x)
    requires ServiceAt(ings, p) == service && KeptRoute(store, ings, p)
    ensures Gathers(AllVisits(store, ings, |ings|), Position(ings, p), service, x)
  {
    GatheredThere(store, ings, p, x);
    AttachesIffKept(store, ings, p, service);
  }

  // A service exists exactly when some route to it finds its cluster and
  // subset; a mirror or split alone does not bring its cluster into being.
  lemma ServedIff(store: ClusterStore, ings: seq<Ingress>, service: string)
    ensures service in Attach(AllVisits(store, ings, |ings|)) <==>
              exists p :: IsPlace(ings, p) && ServiceAt(ings, p) == service && ResolvesAt(store, ings, p)
  {
    var visits := AllVisits(store, ings, |ings|);
    ServiceExistsIff(visits, service);
    if t: nat :| Attaches(visits, t, service) {
      AttachedResolves(store, ings, t, service);
    }
    if p :| IsPlace(ings, p) && ServiceAt(ings, p) == service && ResolvesAt(store, ings, p) {
      ResolvedIsKept(store, ings, p);
      AttachesIffKept(store, ings, p, service);
    }
  }

  lemma AttachedResolves(store: ClusterStore, ings: seq<Ingress>, t: nat, service: string)
    requires Attaches(AllVisits(store, ings, |ings|), t, service)
    ensures exists p :: IsPlace(ings, p) && ServiceAt(ings, p) == service && ResolvesAt(store, ings, p)
  {
    var p := PlaceOfVisit(store, ings, t);
    AttachesIffKept(store, ings, p, service);
  }

  lemma ResolvedIsKept(store: ClusterStore, ings: seq<Ingress>, p: Place)
    requires IsPlace(ings, p) && ResolvesAt(store, ings, p)
    ensures KeptRoute(store, ings, p)
  {
  }

  // ---- What an API dispatches to ------------------------------------------------------------

  function Settings(ings: seq<Ingress>): Index -> seq<string> {
    (x: Index) =>
      if x.i < |ings| && x.j < |ings[x.i].rules| then SettingsOf(ings[x.i].rules[x.j].routes) else []
  }

  function SettingsOf(routes: seq<Route>): seq<string> {
    seq(|routes|, r requires 0 <= r < |routes| => routes[r].settings)
  }

  // What the parser as a whole leaves in the proxies.
  ghost predicate ParsedProxies(store: ClusterStore, ings: seq<Ingress>, proxies: Proxies) {
    var services := Attach(AllVisits(store, ings, |ings|));
    Filled(proxies, services, services.Keys, Settings(ings))
  }

  lemma FilledAt(proxies: Proxies, services: Services, settings: Index -> seq<string>, x: Index, s: string)
    requires Filled(proxies, services, services.Keys, settings)
    ensures s in Of(proxies, x) <==> Attached(services, s, x) && settings(x) != []
    ensures s in Of(proxies, x) ==> Of(proxies, x)[s] == settings(x)[0]
  {
  }

  // Every proxy of an API leads where its own rule or a later one has a route
  // that is kept, and carries the settings of the first route of its own rule.
  lemma DispatchIff(store: ClusterStore, ings: seq<Ingress>, proxies: Proxies, service: string, x: Index)
    requires ParsedProxies(store, ings, proxies)
    ensures service in Of(proxies, x) <==>
              && x.i < |ings| && HasAPI(ings[x.i].rules, x) && ings[x.i].rules[x.j].routes != []
              && RoutesFrom(store, ings, x.i, x.j, service)
    ensures service in Of(proxies, x) ==> Of(proxies, x)[service] == ings[x.i].rules[x.j].routes[0].settings
  {
    AttachedByLaterRules(store, ings, service, x);
    FilledAt(proxies, Attach(AllVisits(store, ings, |ings|)), Settings(ings), x, service);
    SettingsAt(ings, x);
  }

  lemma SettingsAt(ings: seq<Ingress>, x: Index)
    ensures x.i < |ings| && HasAPI(ings[x.i].rules, x) ==>
              var routes := ings[x.i].rules[x.j].routes;
              |Settings(ings)(x)| == |routes|
              && forall r | 0 <= r < |routes| :: Settings(ings)(x)[r] == routes[r].settings
  {
  }

  // The API's own rule names the service.
  ghost predicate OwnRoute(ings: seq<Ingress>, x: Index, service: string) {
    exists p :: IsPlace(ings, p) && p.i == x.i && p.j == x.j && ServiceAt(ings, p) == service
  }

  // An API keeps to the clusters of its own rule exactly when the later rules
  // of its ingress have no route kept to anywhere else.
  lemma KeepsToItsRuleIff(store: ClusterStore, ings: seq<Ingress>, proxies: Proxies, x: Index)
    requires ParsedProxies(store, ings, proxies)
    requires x.i < |ings| && HasAPI(ings[x.i].rules, x) && ings[x.i].rules[x.j].routes != []
    ensures
      (forall service | service in Of(proxies, x) :: OwnRoute(ings, x, service)) <==>
      (forall service | RoutesFrom(store, ings, x.i, x.j + 1, service) :: OwnRoute(ings, x, service))
  {
    forall service
      ensures service in Of(proxies, x) ==> OwnRoute(ings, x, service) || RoutesFrom(store, ings, x.i, x.j + 1, service)
      ensures RoutesFrom(store, ings, x.i, x.j + 1, service) ==> service in Of(proxies, x)
    {
      DispatchIff(store, ings, proxies, service, x);
      FromHereOrLater(store, ings, x, service);
    }
  }

  lemma FromHereOrLater(store: ClusterStore, ings: seq<Ingress>, x: Index, service: string)
    ensures RoutesFrom(store, ings, x.i, x.j, service) ==>
              OwnRoute(ings, x, service) || RoutesFrom(store, ings, x.i, x.j + 1, service)
    ensures RoutesFrom(store, ings, x.i, x.j + 1, service) ==> RoutesFrom(store, ings, x.i, x.j, service)
  {
  }

  // Two rules with a route each are enough: the API of the first also
  // dispatches to the cluster of the second.
  lemma SecondRuleSpills(store: ClusterStore, ns: string, name: string, r0: Route, r1: Route, proxies: Proxies)
    requires Resolves(store, ns, r1.cluster) && ServiceOf(ns, r0.cluster) != ServiceOf(ns, r1.cluster)
    requires ParsedProxies(store, [Ingress(ns, name, [Rule([1], [r0], [], []), Rule([1], [r1], [], [])])], proxies)
    ensures
      var ings := [Ingress(ns, name, [Rule([1], [r0], [], []), Rule([1], [r1], [], [])])];
      var service := ServiceOf(ns, r1.cluster);
      service in Of(proxies, Index(0, 0, 0, 0)) && !OwnRoute(ings, Index(0, 0, 0, 0), service)
  {
    var ings := [Ingress(ns, name, [Rule([1], [r0], [], []), Rule([1], [r1], [], [])])];
    var p := Place(0, 1, 0);
    ResolvedIsKept(store, ings, p);
    assert ServiceAt(ings, p) == ServiceOf(ns, r1.cluster);
    DispatchIff(store, ings, proxies, ServiceOf(ns, r1.cluster), Index(0, 0, 0, 0));
  }
}
