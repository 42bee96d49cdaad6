// toStable: the raw target in a fixed order. The parser's output comes out of
// Go maps in any order; the hash of the result decides whether to sync.
module Stable {
  import opened Entities
  import opened Ordering

  // ---- What the parser hands over, and the raw target ------------------------

  datatype Proxy = Proxy(clusterName: string, node: Node)

  // Proxies are kept in a map by cluster name.
  datatype ParserAPI = ParserAPI(api: Entity, proxies: map<string, Proxy>)
  datatype ParserCluster = ParserCluster(cluster: Entity, servers: seq<Entity>)
  datatype ParserState = ParserState(
    apis: seq<ParserAPI>,
    servers: seq<Entity>,
    clusters: seq<ParserCluster>,
    routings: seq<RawRouting>)

  datatype RawAPI = RawAPI(api: Entity, proxies: seq<Proxy>)
  datatype RawBind = RawBind(clusterName: string, serverAddr: string, bind: Option<Entity>)
  datatype RawRouting = RawRouting(apiName: string, clusterName: string, routing: Entity)
  datatype RawState = RawState(
    apis: seq<RawAPI>,
    servers: seq<Entity>,
    clusters: seq<Entity>,
    binds: seq<RawBind>,
    routings: seq<RawRouting>)

  // ---- Sort keys ----------------------------------------------------------------

  function ProxyKey(): Proxy -> string { (p: Proxy) => p.clusterName }
  function APIKey(): RawAPI -> string { (a: RawAPI) => a.api.Name() }
  function NameKey(): Entity -> string { (e: Entity) => e.Name() }
  function RoutingKey(): RawRouting -> string { (r: RawRouting) => r.routing.Name() }

  // The comparator of binds joins the two comparisons with &&.
  function BindLess(): (RawBind, RawBind) -> bool {
    (x: RawBind, y: RawBind) => Less(x.clusterName, y.clusterName) && Less(x.serverAddr, y.serverAddr)
  }

  // ---- Flattening -----------------------------------------------------------------

  function FlatMap<T, U>(xs: seq<T>, f: T -> seq<U>): seq<U> {
    if xs == [] then [] else FlatMap(xs[..|xs| - 1], f) + f(xs[|xs| - 1])
  }

  lemma {:induction false} FlatMapAppend<T, U>(xs: seq<T>, ys: seq<T>, f: T -> seq<U>)
    ensures FlatMap(xs + ys, f) == FlatMap(xs, f) + FlatMap(ys, f)
  {
    if ys == [] {
      assert xs + ys == xs;
    } else {
      assert (xs + ys)[..|xs + ys| - 1] == xs + ys[..|ys| - 1];
      FlatMapAppend(xs, ys[..|ys| - 1], f);
    }
  }

  lemma {:induction false} InFlatMap<T, U>(xs: seq<T>, f: T -> seq<U>, y: U) returns (i: nat)
    requires y in FlatMap(xs, f)
    ensures i < |xs| && y in f(xs[i])
  {
    var init := xs[..|xs| - 1];
    if y in FlatMap(init, f) {
      i := InFlatMap(init, f, y);
    } else {
      i := |init|;
    }
  }

  lemma {:induction false} FlatMapHas<T, U>(xs: seq<T>, f: T -> seq<U>, i: nat, y: U)
    requires i < |xs| && y in f(xs[i])
    ensures y in FlatMap(xs, f)
  {
    var init := xs[..|xs| - 1];
    if i < |init| {
      FlatMapHas(init, f, i, y);
    }
  }

  lemma RemoveOne<T>(xs: seq<T>, x: T) returns (left: seq<T>, right: seq<T>)
    requires x in multiset(xs)
    ensures xs == left + [x] + right
    ensures multiset(left + right) == multiset(xs) - multiset{x}
  {
    var j :| 0 <= j < |xs| && xs[j] == x;
    left, right := xs[..j], xs[j + 1..];
    assert xs == left + [x] + right;
  }

  lemma FlatMapAround<T, U>(left: seq<T>, x: T, right: seq<T>, f: T -> seq<U>)
    ensures FlatMap(left + [x] + right, f) == FlatMap(left, f) + f(x) + FlatMap(right, f)
  {
    FlatMapAppend(left + [x], right, f);
    FlatMapAppend(left, [x], f);
    FlatMapOne(x, f);
  }

  // Flattening a permutation permutes the result.
  lemma {:induction false} FlatMapPermutes<T, U>(xs: seq<T>, ys: seq<T>, f: T -> seq<U>)
    requires multiset(xs) == multiset(ys)
    ensures multiset(FlatMap(xs, f)) == multiset(FlatMap(ys, f))
  {
    if xs == [] {
      assert |multiset(ys)| == |ys|;
    } else {
      var init, x := xs[..|xs| - 1], xs[|xs| - 1];
      SplitLast(xs);
      var left, right := RemoveOne(ys, x);
      FlatMapPermutes(init, left + right, f);
      FlatMapAppend(left, right, f);
      FlatMapAround(left, x, right, f);
    }
  }

  lemma SplitLast<T>(xs: seq<T>)
    requires xs != []
    ensures xs[|xs| - 1] in multiset(xs)
    ensures multiset(xs[..|xs| - 1]) == multiset(xs) - multiset{xs[|xs| - 1]}
  {
    assert xs == xs[..|xs| - 1] + [xs[|xs| - 1]];
  }

  lemma TakeOut<T>(xs: seq<T>, x: T, y: T) returns (rest: seq<T>)
    requires x in xs && y in xs && x != y
    ensures multiset{x, y} + multiset(rest) == multiset(xs)
  {
    assert x in multiset(xs);
    var left, right := RemoveOne(xs, x);
    assert y in multiset(left + right);
    var left', right' := RemoveOne(left + right, y);
    rest := left' + right';
  }

  lemma UpFront<T>(xs: seq<T>, x: T, y: T, rest: seq<T>)
    requires multiset{x, y} + multiset(rest) == multiset(xs)
    ensures multiset([x] + ([y] + rest)) == multiset(xs) == multiset([y] + ([x] + rest))
  {
  }

  lemma SameMembers<T>(xs: seq<T>, ys: seq<T>)
    requires multiset(xs) == multiset(ys)
    ensures forall x :: x in xs <==> x in ys
  {
    assert forall x :: x in xs <==> x in multiset(xs);
    assert forall x :: x in ys <==> x in multiset(ys);
  }

  lemma FlatMapOne<T, U>(x: T, f: T -> seq<U>)
    ensures FlatMap([x], f) == f(x)
  {
  }

  // ---- toStable -----------------------------------------------------------------------

  ghost predicate Visits(names: seq<string>, m: map<string, Proxy>) {
    && (forall k | k in m :: k in names)
    && (forall i | 0 <= i < |names| :: names[i] in m)
    && (forall i, j | 0 <= i < j < |names| :: names[i] != names[j])
  }

  function Pick(names: seq<string>, m: map<string, Proxy>): seq<Proxy>
    requires forall i | 0 <= i < |names| :: names[i] in m
  {
    seq(|names|, i requires 0 <= i < |names| => m[names[i]])
  }

  // A range over the proxies in some order, sorted by cluster name.
  ghost predicate SortedProxies(proxies: seq<Proxy>, m: map<string, Proxy>) {
    exists names :: Visits(names, m) && proxies == StableSort(Pick(names, m), ByKey(ProxyKey()))
  }

  ghost predicate Keyed(m: map<string, Proxy>) {
    forall k | k in m :: m[k].clusterName == k
  }

  function ClusterOf(): ParserCluster -> seq<Entity> { (c: ParserCluster) => [c.cluster] }

  function BindsOf(): ParserCluster -> seq<RawBind> {
    (c: ParserCluster) =>
      seq(|c.servers|, i requires 0 <= i < |c.servers| => RawBind(c.cluster.Name(), c.servers[i].Name(), None))
  }

  ghost predicate Listed(listed: seq<RawAPI>, apis: seq<ParserAPI>) {
    && |listed| == |apis|
    && forall i | 0 <= i < |apis| ::
         listed[i].api == apis[i].api && SortedProxies(listed[i].proxies, apis[i].proxies)
  }

  ghost predicate IsStable(s: ParserState, raw: RawState) {
    && (exists listed :: Listed(listed, s.apis) && raw.apis == StableSort(listed, ByKey(APIKey())))
    && raw.servers == StableSort(s.servers, ByKey(NameKey()))
    && raw.routings == StableSort(s.routings, ByKey(RoutingKey()))
    && raw.clusters == StableSort(FlatMap(s.clusters, ClusterOf()), ByKey(NameKey()))
    && raw.binds == StableSort(FlatMap(s.clusters, BindsOf()), BindLess())
  }

  method RangeProxies(m: map<string, Proxy>) returns (proxies: seq<Proxy>)
    ensures SortedProxies(proxies, m)
  {
    ghost var names := [];
    var listed, left := [], m.Keys;
    while left != {}
      invariant left <= m.Keys
      invariant forall k | k in m :: k in left || k in names
      invariant forall i | 0 <= i < |names| :: names[i] in m && names[i] !in left
      invariant forall i, j | 0 <= i < j < |names| :: names[i] != names[j]
      invariant listed == Pick(names, m)
      decreases left
    {
      var k :| k in left;
      listed, left := listed + [m[k]], left - {k};
      names := names + [k];
    }
    proxies := StableSort(listed, ByKey(ProxyKey()));
  }

  method ListAPIs(apis: seq<ParserAPI>) returns (listed: seq<RawAPI>)
    ensures Listed(listed, apis)
  {
    listed := [];
    for i := 0 to |apis|
      invariant Listed(listed, apis[..i])
    {
      var proxies := RangeProxies(apis[i].proxies);
      listed := listed + [RawAPI(apis[i].api, proxies)];
    }
    assert apis[..|apis|] == apis;
  }

  method ListClusters(clusters: seq<ParserCluster>) returns (listed: seq<Entity>, binds: seq<RawBind>)
    ensures listed == FlatMap(clusters, ClusterOf()) && binds == FlatMap(clusters, BindsOf())
  {
    listed, binds := [], [];
    for i := 0 to |clusters|
      invariant listed == FlatMap(clusters[..i], ClusterOf())
      invariant binds == FlatMap(clusters[..i], BindsOf())
    {
      var c := clusters[i];
      listed := listed + [c.cluster];
      var here: seq<RawBind> := [];
      for j := 0 to |c.servers|
        invariant here == BindsOf()(c)[..j]
      {
        here := here + [RawBind(c.cluster.Name(), c.servers[j].Name(), None)];
      }
      binds := binds + here;
      assert clusters[..i + 1][..i] == clusters[..i];
    }
    assert clusters[..|clusters|] == clusters;
  }

  method ToStable(s: ParserState) returns (raw: RawState)
    ensures IsStable(s, raw)
  {
    var apis := ListAPIs(s.apis);
    var clusters, binds := ListClusters(s.clusters);
    raw := RawState(
      StableSort(apis, ByKey(APIKey())),
      StableSort(s.servers, ByKey(NameKey())),
      StableSort(clusters, ByKey(NameKey())),
      StableSort(binds, BindLess()),
      StableSort(s.routings, ByKey(RoutingKey())));
  }

  // ---- Canonical form -----------------------------------------------------------------------

  ghost predicate Permuted(s: ParserState, t: ParserState) {
    && multiset(s.apis) == multiset(t.apis)
    && multiset(s.servers) == multiset(t.servers)
    && multiset(s.clusters) == multiset(t.clusters)
    && multiset(s.routings) == multiset(t.routings)
  }

  // What Build guarantees: no two objects of a kind share a name, and proxies
  // are filed under their cluster name.
  ghost predicate Distinct(s: ParserState) {
    && (forall i, j | 0 <= i < j < |s.apis| :: s.apis[i].api.Name() != s.apis[j].api.Name())
    && (forall i | 0 <= i < |s.apis| :: Keyed(s.apis[i].proxies))
    && DistinctKeys(s.servers, NameKey())
    && DistinctKeys(s.routings, RoutingKey())
    && (forall i, j | 0 <= i < j < |s.clusters| :: s.clusters[i].cluster.Name() != s.clusters[j].cluster.Name())
  }

  lemma PickPermutes(names: seq<string>, others: seq<string>, m: map<string, Proxy>)
    requires Visits(names, m) && Visits(others, m)
    ensures multiset(Pick(names, m)) == multiset(Pick(others, m))
  {
    var f := (k: string) => if k in m then [m[k]] else [];
    forall k
      ensures multiset(names)[k] == multiset(others)[k]
    {
      VisitedOnce(names, m, k);
      VisitedOnce(others, m, k);
    }
    FlatMapPermutes(names, others, f);
    PickIsFlatMap(names, m, f);
    PickIsFlatMap(others, m, f);
  }

  lemma VisitedOnce(names: seq<string>, m: map<string, Proxy>, k: string)
    requires Visits(names, m)
    ensures multiset(names)[k] == if k in m then 1 else 0
  {
    if k in m {
      var left, right := RemoveOne(names, k);
      assert names[|left|] == k;
      assert forall i | 0 <= i < |left| :: left[i] == names[i];
      assert forall i | 0 <= i < |right| :: right[i] == names[|left| + 1 + i];
      assert k !in left && k !in right;
    } else {
      assert k !in names;
    }
  }

  lemma {:induction false} PickIsFlatMap(names: seq<string>, m: map<string, Proxy>, f: string -> seq<Proxy>)
    requires forall i | 0 <= i < |names| :: names[i] in m && f(names[i]) == [m[names[i]]]
    ensures Pick(names, m) == FlatMap(names, f)
  {
    if names != [] {
      PickIsFlatMap(names[..|names| - 1], m, f);
    }
  }

  // The sorted proxies of an API do not depend on the order of the range.
  lemma ProxiesUnique(m: map<string, Proxy>, xs: seq<Proxy>, ys: seq<Proxy>)
    requires Keyed(m) && SortedProxies(xs, m) && SortedProxies(ys, m)
    ensures xs == ys
  {
    var names :| Visits(names, m) && xs == StableSort(Pick(names, m), ByKey(ProxyKey()));
    var others :| Visits(others, m) && ys == StableSort(Pick(others, m), ByKey(ProxyKey()));
    PickPermutes(names, others, m);
    SortCanonical(Pick(names, m), Pick(others, m), ProxyKey());
  }

  // The raw form of an API does not depend on its position.
  ghost function RawFormOf(a: ParserAPI): RawAPI {
    if exists p :: SortedProxies(p, a.proxies)
    then var p :| SortedProxies(p, a.proxies); RawAPI(a.api, p)
    else RawAPI(a.api, [])
  }

  ghost function RawForm(): ParserAPI -> seq<RawAPI> { (a: ParserAPI) => [RawFormOf(a)] }

  lemma RawFormUnique(a: ParserAPI, x: RawAPI)
    requires Keyed(a.proxies) && x.api == a.api && SortedProxies(x.proxies, a.proxies)
    ensures RawForm()(a) == [x]
  {
    ProxiesUnique(a.proxies, x.proxies, RawFormOf(a).proxies);
  }

  lemma {:induction false} ListedIsFlatMap(listed: seq<RawAPI>, apis: seq<ParserAPI>, n: nat)
    requires Listed(listed, apis) && n <= |apis| && forall i | 0 <= i < |apis| :: Keyed(apis[i].proxies)
    ensures listed[..n] == FlatMap(apis[..n], RawForm())
  {
    if n > 0 {
      ListedIsFlatMap(listed, apis, n - 1);
      RawFormUnique(apis[n - 1], listed[n - 1]);
      assert apis[..n][..n - 1] == apis[..n - 1] && listed[..n] == listed[..n - 1] + [listed[n - 1]];
    }
  }

  lemma AllListed(listed: seq<RawAPI>, apis: seq<ParserAPI>)
    requires Listed(listed, apis) && forall i | 0 <= i < |apis| :: Keyed(apis[i].proxies)
    ensures listed == FlatMap(apis, RawForm())
  {
    ListedIsFlatMap(listed, apis, |apis|);
    assert listed[..|apis|] == listed && apis[..|apis|] == apis;
  }

  // Whatever order the parser produced, APIs, servers, clusters and routings
  // come out identical; binds come out as the same multiset.
  lemma ToStableCanonical(s: ParserState, t: ParserState, raw: RawState, other: RawState)
    requires Permuted(s, t) && Distinct(s)
    requires IsStable(s, raw) && IsStable(t, other)
    ensures raw.apis == other.apis && raw.servers == other.servers
    ensures raw.clusters == other.clusters && raw.routings == other.routings
    ensures multiset(raw.binds) == multiset(other.binds)
  {
    SameAPIs(s, t, raw, other);
    SortCanonical(s.servers, t.servers, NameKey());
    SortCanonical(s.routings, t.routings, RoutingKey());
    FlatMapPermutes(s.clusters, t.clusters, ClusterOf());
    ClusterNames(s.clusters);
    SortCanonical(FlatMap(s.clusters, ClusterOf()), FlatMap(t.clusters, ClusterOf()), NameKey());
    FlatMapPermutes(s.clusters, t.clusters, BindsOf());
    SortPermutes(FlatMap(s.clusters, BindsOf()), BindLess());
    SortPermutes(FlatMap(t.clusters, BindsOf()), BindLess());
  }

  lemma SameAPIs(s: ParserState, t: ParserState, raw: RawState, other: RawState)
    requires Permuted(s, t) && Distinct(s)
    requires IsStable(s, raw) && IsStable(t, other)
    ensures raw.apis == other.apis
  {
    var xs :| Listed(xs, s.apis) && raw.apis == StableSort(xs, ByKey(APIKey()));
    var ys :| Listed(ys, t.apis) && other.apis == StableSort(ys, ByKey(APIKey()));
    forall i | 0 <= i < |t.apis|
      ensures Keyed(t.apis[i].proxies)
    {
      assert t.apis[i] in multiset(t.apis);
      assert t.apis[i] in s.apis;
    }
    AllListed(xs, s.apis);
    AllListed(ys, t.apis);
    FlatMapPermutes(s.apis, t.apis, RawForm());
    SortCanonical(xs, ys, APIKey());
  }

  lemma {:induction false} ClusterNames(clusters: seq<ParserCluster>)
    ensures |FlatMap(clusters, ClusterOf())| == |clusters|
    ensures forall i | 0 <= i < |clusters| :: FlatMap(clusters, ClusterOf())[i] == clusters[i].cluster
  {
    if clusters != [] {
      ClusterNames(clusters[..|clusters| - 1]);
    }
  }

  // ---- Nothing is lost ------------------------------------------------------------------------

  lemma SortedMembers<T>(xs: seq<T>, less: (T, T) -> bool, x: T)
    ensures x in StableSort(xs, less) <==> x in xs
  {
    SortPermutes(xs, less);
    assert x in StableSort(xs, less) <==> x in multiset(StableSort(xs, less));
  }

  lemma Picked(names: seq<string>, m: map<string, Proxy>, p: Proxy)
    requires Visits(names, m)
    ensures p in Pick(names, m) <==> exists k :: k in m && m[k] == p
  {
    if k :| k in m && m[k] == p {
      var i :| 0 <= i < |names| && names[i] == k;
      assert Pick(names, m)[i] == p;
    }
    if p in Pick(names, m) {
      var i :| 0 <= i < |names| && Pick(names, m)[i] == p;
      assert names[i] in m;
    }
  }

  // The proxies of a listed API are those of the map.
  lemma ProxiesKept(proxies: seq<Proxy>, m: map<string, Proxy>, p: Proxy)
    requires SortedProxies(proxies, m)
    ensures p in proxies <==> exists k :: k in m && m[k] == p
  {
    var names :| Visits(names, m) && proxies == StableSort(Pick(names, m), ByKey(ProxyKey()));
    SortedMembers(Pick(names, m), ByKey(ProxyKey()), p);
    Picked(names, m, p);
  }

  ghost predicate ListingOfAPI(a: RawAPI, pa: ParserAPI) {
    a.api == pa.api && forall p :: p in a.proxies <==> exists k :: k in pa.proxies && pa.proxies[k] == p
  }

  // Some cluster of this name has a server at this address.
  ghost predicate Serves(clusters: seq<ParserCluster>, name: string, addr: string) {
    exists c, x :: c in clusters && x in c.servers && c.cluster.Name() == name && x.Name() == addr
  }

  ghost predicate ListedInTurn(apis: seq<ParserAPI>, listed: seq<RawAPI>) {
    |listed| == |apis| && forall i | 0 <= i < |apis| :: ListingOfAPI(listed[i], apis[i])
  }

  ghost predicate APIsListed(apis: seq<ParserAPI>, sorted: seq<RawAPI>) {
    exists listed :: ListedInTurn(apis, listed) && multiset(sorted) == multiset(listed)
  }

  ghost predicate ClustersListed(clusters: seq<ParserCluster>, listed: seq<Entity>) {
    forall x :: x in listed <==> exists c :: c in clusters && c.cluster == x
  }

  ghost predicate BindsListed(clusters: seq<ParserCluster>, binds: seq<RawBind>) {
    forall b :: b in binds <==> b.bind.None? && Serves(clusters, b.clusterName, b.serverAddr)
  }

  // toStable lists the parser's objects, all of them and no others, with a bind for
  // each server of each cluster.
  lemma StableKeeps(s: ParserState, raw: RawState)
    requires IsStable(s, raw)
    ensures multiset(raw.servers) == multiset(s.servers) && multiset(raw.routings) == multiset(s.routings)
    ensures APIsListed(s.apis, raw.apis) && ClustersListed(s.clusters, raw.clusters)
    ensures BindsListed(s.clusters, raw.binds)
  {
    SortPermutes(s.servers, ByKey(NameKey()));
    SortPermutes(s.routings, ByKey(RoutingKey()));
    APIsKept(s, raw);
    ClustersAreListed(s.clusters);
    BindsAreListed(s.clusters);
  }

  lemma ClustersAreListed(clusters: seq<ParserCluster>)
    ensures ClustersListed(clusters, StableSort(FlatMap(clusters, ClusterOf()), ByKey(NameKey())))
  {
    var listed := StableSort(FlatMap(clusters, ClusterOf()), ByKey(NameKey()));
    forall x
      ensures x in listed <==> exists c :: c in clusters && c.cluster == x
    {
      ClustersKept(clusters, x);
    }
  }

  lemma BindsAreListed(clusters: seq<ParserCluster>)
    ensures BindsListed(clusters, StableSort(FlatMap(clusters, BindsOf()), BindLess()))
  {
    var binds := StableSort(FlatMap(clusters, BindsOf()), BindLess());
    forall b
      ensures b in binds <==> b.bind.None? && Serves(clusters, b.clusterName, b.serverAddr)
    {
      BindsKept(clusters, b);
    }
  }

  lemma APIsKept(s: ParserState, raw: RawState)
    requires IsStable(s, raw)
    ensures APIsListed(s.apis, raw.apis)
  {
    var listed: seq<RawAPI> :| Listed(listed, s.apis) && raw.apis == StableSort(listed, ByKey(APIKey()));
    ListedIsListed(s.apis, listed, raw.apis);
  }

  lemma ListedIsListed(apis: seq<ParserAPI>, listed: seq<RawAPI>, sorted: seq<RawAPI>)
    requires Listed(listed, apis) && sorted == StableSort(listed, ByKey(APIKey()))
    ensures APIsListed(apis, sorted)
  {
    SortPermutes(listed, ByKey(APIKey()));
    forall i | 0 <= i < |apis|
      ensures ListingOfAPI(listed[i], apis[i])
    {
      ListedLists(listed, apis, i);
    }
    assert ListedInTurn(apis, listed);
  }

  lemma ListedAPI(apis: seq<ParserAPI>, sorted: seq<RawAPI>, a: RawAPI) returns (pa: ParserAPI)
    requires APIsListed(apis, sorted) && a in sorted
    ensures pa in apis && ListingOfAPI(a, pa)
  {
    var listed :| ListedInTurn(apis, listed) && multiset(sorted) == multiset(listed);
    SameMembers(sorted, listed);
    var i :| 0 <= i < |listed| && listed[i] == a;
    pa := apis[i];
  }

  lemma APIListing(apis: seq<ParserAPI>, sorted: seq<RawAPI>, pa: ParserAPI) returns (a: RawAPI)
    requires APIsListed(apis, sorted) && pa in apis
    ensures a in sorted && ListingOfAPI(a, pa)
  {
    var listed :| ListedInTurn(apis, listed) && multiset(sorted) == multiset(listed);
    SameMembers(sorted, listed);
    var i :| 0 <= i < |apis| && apis[i] == pa;
    a := listed[i];
    assert a in listed;
  }

  lemma ListedLists(listed: seq<RawAPI>, apis: seq<ParserAPI>, i: nat)
    requires Listed(listed, apis) && i < |apis|
    ensures ListingOfAPI(listed[i], apis[i])
  {
    forall p
      ensures p in listed[i].proxies <==> exists k :: k in apis[i].proxies && apis[i].proxies[k] == p
    {
      ProxiesKept(listed[i].proxies, apis[i].proxies, p);
    }
  }

  lemma ClustersKept(clusters: seq<ParserCluster>, x: Entity)
    ensures
      var listed := StableSort(FlatMap(clusters, ClusterOf()), ByKey(NameKey()));
      x in listed <==> exists c :: c in clusters && c.cluster == x
  {
    var all := FlatMap(clusters, ClusterOf());
    ClusterNames(clusters);
    SortedMembers(all, ByKey(NameKey()), x);
    if c :| c in clusters && c.cluster == x {
      var i :| 0 <= i < |clusters| && clusters[i] == c;
      assert all[i] == x;
    }
    if x in all {
      var i :| 0 <= i < |all| && all[i] == x;
      assert clusters[i] in clusters;
    }
  }

  lemma BindsKept(clusters: seq<ParserCluster>, b: RawBind)
    ensures b in StableSort(FlatMap(clusters, BindsOf()), BindLess()) <==>
              b.bind.None? && Serves(clusters, b.clusterName, b.serverAddr)
  {
    SortedMembers(FlatMap(clusters, BindsOf()), BindLess(), b);
    if b in FlatMap(clusters, BindsOf()) {
      var i := InFlatMap(clusters, BindsOf(), b);
      var j :| 0 <= j < |BindsOf()(clusters[i])| && BindsOf()(clusters[i])[j] == b;
      assert clusters[i] in clusters && clusters[i].servers[j] in clusters[i].servers;
    }
    if b.bind.None? && Serves(clusters, b.clusterName, b.serverAddr) {
      var c, x :| c in clusters && x in c.servers && c.cluster.Name() == b.clusterName && x.Name() == b.serverAddr;
      var i :| 0 <= i < |clusters| && clusters[i] == c;
      var j :| 0 <= j < |c.servers| && c.servers[j] == x;
      assert BindsOf()(c)[j] == b;
      FlatMapHas(clusters, BindsOf(), i, b);
    }
  }
}
