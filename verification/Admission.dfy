// The admission validator, and that the parser leaves out no route of an
// ingress it accepts.
module Admission {
  import opened Entities
  import opened Parsing
  import opened Dispatch
  import Naming

  datatype Verdict = Accepted | Rejected | Error

  // ---- Methods -------------------------------------------------------------------------

  method IsClusterExist(store: ClusterStore, namespace: string, c: RouteCluster) returns (exist: Option<bool>)
    ensures exist.None? <==> store(namespace, c.name).Failing?
    ensures exist.Some? ==>
              var fetched := store(namespace, c.name);
              exist.value <==>
                fetched.Found? && exists i :: 0 <= i < |fetched.subsets| && fetched.subsets[i] == c.subset
  {
    var fetched := store(namespace, c.name);
    if fetched.Missing? {
      return Some(false);
    }
    if fetched.Failing? {
      return None;
    }
    var found := false;
    for i := 0 to |fetched.subsets|
      invariant found <==> c.subset in fetched.subsets[..i]
    {
      assert fetched.subsets[..i + 1] == fetched.subsets[..i] + [fetched.subsets[i]];
      if c.subset == fetched.subsets[i] {
        found := true;
      }
    }
    assert fetched.subsets[..|fetched.subsets|] == fetched.subsets;
    exist := Some(found);
  }

  // `compiles` is regexp.Compile.
  method IsMatchValid(compiles: string -> bool, patterns: seq<string>) returns (valid: bool)
    ensures valid <==> forall p | p in patterns :: compiles(p)
  {
    for i := 0 to |patterns|
      invariant forall p | p in patterns[..i] :: compiles(p)
    {
      assert patterns[..i + 1] == patterns[..i] + [patterns[i]];
      if !compiles(patterns[i]) {
        return false;
      }
    }
    assert patterns[..|patterns|] == patterns;
    valid := true;
  }

  // The clusters of the routes, mirrors and splits of the first n rules.
  function RouteClusters(routes: seq<Route>): seq<RouteCluster> {
    seq(|routes|, i requires 0 <= i < |routes| => routes[i].cluster)
  }

  function Clusters(rules: seq<Rule>, n: nat): seq<RouteCluster>
    requires n <= |rules|
  {
    if n == 0 then []
    else Clusters(rules, n - 1) + RouteClusters(rules[n - 1].routes) + rules[n - 1].mirrors + rules[n - 1].splits
  }

  // Every route, every mirror and every split of the ingress names an existing
  // subset of an existing cluster.
  ghost predicate Admitted(store: ClusterStore, ing: Ingress) {
    forall j | 0 <= j < |ing.rules| ::
      && (forall r | 0 <= r < |ing.rules[j].routes| :: Resolves(store, ing.namespace, ing.rules[j].routes[r].cluster))
      && (forall m | 0 <= m < |ing.rules[j].mirrors| :: Resolves(store, ing.namespace, ing.rules[j].mirrors[m]))
      && (forall s | 0 <= s < |ing.rules[j].splits| :: Resolves(store, ing.namespace, ing.rules[j].splits[s]))
  }

  ghost predicate Names(rule: Rule, c: RouteCluster) {
    || (exists r :: 0 <= r < |rule.routes| && rule.routes[r].cluster == c)
    || (exists m :: 0 <= m < |rule.mirrors| && rule.mirrors[m] == c)
    || (exists s :: 0 <= s < |rule.splits| && rule.splits[s] == c)
  }

  lemma {:induction false} InClustersIff(rules: seq<Rule>, n: nat, c: RouteCluster)
    requires n <= |rules|
    ensures c in Clusters(rules, n) <==> exists j :: 0 <= j < n && Names(rules[j], c)
  {
    if n > 0 {
      InClustersIff(rules, n - 1, c);
      var rule := rules[n - 1];
      InRuleIff(rule, c);
    }
  }

  lemma InRuleIff(rule: Rule, c: RouteCluster)
    ensures Names(rule, c) <==> c in RouteClusters(rule.routes) || c in rule.mirrors || c in rule.splits
  {
    if r :| 0 <= r < |rule.routes| && rule.routes[r].cluster == c {
      assert RouteClusters(rule.routes)[r] == c;
    }
  }

  lemma AdmittedIff(store: ClusterStore, ing: Ingress)
    ensures Admitted(store, ing) <==>
              forall c | c in Clusters(ing.rules, |ing.rules|) :: Resolves(store, ing.namespace, c)
  {
    forall c
      ensures c in Clusters(ing.rules, |ing.rules|) <==> exists j :: 0 <= j < |ing.rules| && Names(ing.rules[j], c)
    {
      InClustersIff(ing.rules, |ing.rules|, c);
    }
    if forall c | c in Clusters(ing.rules, |ing.rules|) :: Resolves(store, ing.namespace, c) {
      forall j | 0 <= j < |ing.rules|
        ensures forall r | 0 <= r < |ing.rules[j].routes| ::
                  Resolves(store, ing.namespace, ing.rules[j].routes[r].cluster)
        ensures forall m | 0 <= m < |ing.rules[j].mirrors| :: Resolves(store, ing.namespace, ing.rules[j].mirrors[m])
        ensures forall s | 0 <= s < |ing.rules[j].splits| :: Resolves(store, ing.namespace, ing.rules[j].splits[s])
      {
        forall c | Names(ing.rules[j], c)
          ensures Resolves(store, ing.namespace, c)
        {
        }
        assert forall r | 0 <= r < |ing.rules[j].routes| :: Names(ing.rules[j], ing.rules[j].routes[r].cluster);
        assert forall m | 0 <= m < |ing.rules[j].mirrors| :: Names(ing.rules[j], ing.rules[j].mirrors[m]);
        assert forall s | 0 <= s < |ing.rules[j].splits| :: Names(ing.rules[j], ing.rules[j].splits[s]);
      }
    }
  }

  ghost predicate RouteMatchValid(compiles: string -> bool, route: Route) {
    forall p | p in route.patterns :: compiles(p)
  }

  ghost predicate MatchesValid(compiles: string -> bool, rules: seq<Rule>) {
    forall rule, route | rule in rules && route in rule.routes :: RouteMatchValid(compiles, route)
  }

  // The routes of one rule: their clusters, or None at a match that is invalid.
  method CheckRoutes(compiles: string -> bool, routes: seq<Route>) returns (clusters: Option<seq<RouteCluster>>)
    ensures clusters.Some? <==> forall route | route in routes :: RouteMatchValid(compiles, route)
    ensures clusters.Some? ==> clusters.value == RouteClusters(routes)
  {
    var gathered: seq<RouteCluster> := [];
    for i := 0 to |routes|
      invariant gathered == RouteClusters(routes)[..i]
      invariant forall route | route in routes[..i] :: RouteMatchValid(compiles, route)
    {
      assert routes[..i + 1] == routes[..i] + [routes[i]];
      gathered := gathered + [routes[i].cluster];
      var valid := IsMatchValid(compiles, routes[i].patterns);
      if !valid {
        assert routes[i] in routes && !RouteMatchValid(compiles, routes[i]);
        return None;
      }
    }
    assert routes[..|routes|] == routes;
    clusters := Some(gathered);
  }

  // Fetching the first cluster that does not resolve fails.
  ghost predicate FirstBadFails(store: ClusterStore, namespace: string, clusters: seq<RouteCluster>, i: nat) {
    && i < |clusters| && store(namespace, clusters[i].name).Failing?
    && forall k | 0 <= k < i :: Resolves(store, namespace, clusters[k])
  }

  method CheckClusters(store: ClusterStore, namespace: string, clusters: seq<RouteCluster>) returns (verdict: Verdict)
    ensures verdict.Accepted? <==> forall c | c in clusters :: Resolves(store, namespace, c)
    ensures verdict.Error? <==> exists i: nat :: FirstBadFails(store, namespace, clusters, i)
  {
    for i := 0 to |clusters|
      invariant forall k | 0 <= k < i :: Resolves(store, namespace, clusters[k])
    {
      var exist := IsClusterExist(store, namespace, clusters[i]);
      if exist.None? {
        assert FirstBadFails(store, namespace, clusters, i) && clusters[i] in clusters;
        return Error;
      }
      if !exist.value {
        assert clusters[i] in clusters;
        return Rejected;
      }
    }
    verdict := Accepted;
  }

  // Accepts exactly the ingresses whose match values compile and whose routes,
  // mirrors and splits all name an existing subset of an existing cluster.
  method ValidateManbaIngress(store: ClusterStore, compiles: string -> bool, ing: Ingress) returns (verdict: Verdict)
    ensures verdict.Accepted? <==> MatchesValid(compiles, ing.rules) && Admitted(store, ing)
    ensures verdict.Error? <==>
              && MatchesValid(compiles, ing.rules)
              && exists i: nat :: FirstBadFails(store, ing.namespace, Clusters(ing.rules, |ing.rules|), i)
  {
    AdmittedIff(store, ing);
    var clusters: seq<RouteCluster> := [];
    for j := 0 to |ing.rules|
      invariant clusters == Clusters(ing.rules, j)
      invariant MatchesValid(compiles, ing.rules[..j])
    {
      var rule := ing.rules[j];
      assert ing.rules[..j + 1] == ing.rules[..j] + [rule];
      var here := CheckRoutes(compiles, rule.routes);
      if here.None? {
        assert rule in ing.rules;
        return Rejected;
      }
      clusters := clusters + here.value + rule.mirrors + rule.splits;
    }
    assert ing.rules[..|ing.rules|] == ing.rules;
    verdict := CheckClusters(store, ing.namespace, clusters);
  }

  // ---- Agreement with the parser -----------------------------------------------------------

  // Of an ingress accepted over the same clusters the parser passes over no
  // route, whatever other ingresses there are: each names a service that exists,
  lemma AcceptedRoutesAreKept(store: ClusterStore, ings: seq<Ingress>, p: Place)
    requires IsPlace(ings, p) && Admitted(store, ings[p.i])
    ensures KeptRoute(store, ings, p)
    ensures ServiceAt(ings, p) in Attach(AllVisits(store, ings, |ings|))
  {
    assert Resolves(store, ings[p.i].namespace, ings[p.i].rules[p.j].routes[p.r].cluster);
    ResolvedIsKept(store, ings, p);
    ServedIff(store, ings, ServiceAt(ings, p));
  }

  // with all the APIs of its rule and of the rules before it attached.
  lemma AcceptedAPIsAttached(store: ClusterStore, ings: seq<Ingress>, p: Place, x: Naming.Index)
    requires IsPlace(ings, p) && Admitted(store, ings[p.i])
    requires x.i == p.i && x.j <= p.j && HasAPI(ings[p.i].rules, x)
    ensures Attached(Attach(AllVisits(store, ings, |ings|)), ServiceAt(ings, p), x)
  {
    AcceptedRoutesAreKept(store, ings, p);
    AttachedByLaterRules(store, ings, ServiceAt(ings, p), x);
  }
}
