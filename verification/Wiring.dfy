// Which objects the gateway connects, by name, and that this is what the raw
// target asks for.
module Wiring {
  import opened Entities
  import opened Store
  import opened Stable
  import opened Collections
  import opened Target
  import opened TargetLaws
  import opened TargetBuilds
  import opened TargetFields
  import SyncPlan
  import TargetCloses

  type Gateway = map<Ref, Entity>

  // ---- Connections in the gateway ------------------------------------------------------------

  // A cluster and a server of these names are there with a bind between them.
  ghost predicate Bound(m: Gateway, name: string, addr: string) {
    exists k, s :: IsCluster(m, k, name) && IsServer(m, s, addr) && Bind(m[k].id, m[s].id).Row() in m
  }

  // An API of this name has a node with these options to the cluster of that name.
  ghost predicate Dispatched(m: Gateway, api: string, cluster: string, options: string) {
    exists a, k :: IsAPI(m, a, api) && IsCluster(m, k, cluster) && HasNode(m[a].nodes, m[k].id, options)
  }

  // A routing of this name and configuration leads from the API to the cluster.
  ghost predicate Joined(m: Gateway, routing: string, config: string, api: string, cluster: string) {
    exists g, a, k :: IsRouting(m, g, routing, config) && IsAPI(m, a, api) && IsCluster(m, k, cluster)
                   && Leads(m[g], m[a], m[k])
  }

  predicate Leads(routing: Entity, api: Entity, cluster: Entity) {
    routing.Routing? && api.API? && cluster.Cluster? && routing.apiID == api.id && routing.clusterID == cluster.id
  }

  predicate IsCluster(m: Gateway, k: Ref, name: string) {
    k in m && m[k].Cluster? && m[k].name == name
  }

  predicate IsServer(m: Gateway, s: Ref, addr: string) {
    s in m && m[s].Server? && m[s].addr == addr
  }

  predicate IsAPI(m: Gateway, a: Ref, name: string) {
    a in m && m[a].API? && m[a].name == name
  }

  predicate IsRouting(m: Gateway, g: Ref, name: string, config: string) {
    g in m && m[g].Routing? && m[g].name == name && m[g].config == config
  }

  predicate HasNode(nodes: seq<Node>, id: Id, options: string) {
    exists j :: 0 <= j < |nodes| && nodes[j].clusterID == id && nodes[j].options == options
  }

  // ---- They depend on what the differ compares ---------------------------------------------------

  // Every row of one is a row of the other, with the same fields.
  ghost predicate Within(m: Gateway, m': Gateway) {
    forall r | r in m :: r in m' && FieldsAgree(m[r], m'[r])
  }

  lemma MatchesIsWithin(m: Gateway, m': Gateway)
    requires SyncPlan.Matches(m, m')
    ensures Within(m, m') && Within(m', m)
  {
    SyncPlan.MatchesIffAgree(m, m');
    forall r | r in m
      ensures FieldsAgree(m'[r], m[r])
    {
      AgreeBack(m[r], m'[r]);
    }
  }

  lemma AgreeBack(x: Entity, y: Entity)
    requires FieldsAgree(x, y)
    ensures FieldsAgree(y, x)
  {
  }

  lemma BoundWithin(m: Gateway, m': Gateway, name: string, addr: string)
    requires Within(m, m') && Bound(m, name, addr)
    ensures Bound(m', name, addr)
  {
    var k, s :| IsCluster(m, k, name) && IsServer(m, s, addr) && Bind(m[k].id, m[s].id).Row() in m;
    assert IsCluster(m', k, name) && IsServer(m', s, addr) && Bind(m'[k].id, m'[s].id).Row() in m';
  }

  lemma DispatchedWithin(m: Gateway, m': Gateway, api: string, cluster: string, options: string)
    requires Within(m, m') && Dispatched(m, api, cluster, options)
    ensures Dispatched(m', api, cluster, options)
  {
    var a, k :| IsAPI(m, a, api) && IsCluster(m, k, cluster) && HasNode(m[a].nodes, m[k].id, options);
    var j :| 0 <= j < |m[a].nodes| && m[a].nodes[j].clusterID == m[k].id && m[a].nodes[j].options == options;
    assert NodesAgree(m[a].nodes, m'[a].nodes);
    assert IsAPI(m', a, api) && IsCluster(m', k, cluster) && HasNode(m'[a].nodes, m'[k].id, options);
  }

  lemma JoinedWithin(m: Gateway, m': Gateway, routing: string, config: string, api: string, cluster: string)
    requires Within(m, m') && Joined(m, routing, config, api, cluster)
    ensures Joined(m', routing, config, api, cluster)
  {
    var g, a, k :| IsRouting(m, g, routing, config) && IsAPI(m, a, api) && IsCluster(m, k, cluster)
                   && Leads(m[g], m[a], m[k]);
    LeadsWithin(m[g], m[a], m[k], m'[g], m'[a], m'[k]);
    assert IsRouting(m', g, routing, config) && IsAPI(m', a, api) && IsCluster(m', k, cluster);
  }

  lemma LeadsWithin(g: Entity, a: Entity, k: Entity, g': Entity, a': Entity, k': Entity)
    requires Leads(g, a, k) && FieldsAgree(g, g') && FieldsAgree(a, a') && FieldsAgree(k, k')
    ensures Leads(g', a', k') && g'.name == g.name && g'.config == g.config
    ensures a'.name == a.name && k'.name == k.name
  {
  }

  // ---- In the target's state -----------------------------------------------------------------------

  // The rows of a state and the lists it was built from.
  ghost predicate Filed(m: Gateway, out: RawState) {
    && (forall r | r in m :: m[r].Row() == r && FiledAs(m[r], out))
    && (forall x | x in TargetRows(out) :: Find(m, x.Row()) == Some(x))
  }

  ghost predicate FiledAs(x: Entity, out: RawState) {
    match x
    case Server(_, _, _, _) => x in out.servers
    case Cluster(_, _, _, _) => x in out.clusters
    case API(_, _, _, _, _) => exists a :: a in out.apis && a.api == x
    case Routing(_, _, _, _, _, _) => exists r :: r in out.routings && r.routing == x
    case Bind(c, s) => exists b :: b in out.binds && BindIds(b) == (c, s)
  }

  lemma RowFiledAs(out: RawState, x: Entity)
    requires Sorted(out) && x in TargetRows(out)
    ensures FiledAs(x, out)
  {
    if x in BindsOfRaw(out) {
      var i :| 0 <= i < |out.binds| && BindsOfRaw(out)[i] == x;
      assert out.binds[i] in out.binds;
    } else if x in APIsOf(out) {
      var i :| 0 <= i < |out.apis| && APIsOf(out)[i] == x;
      assert out.apis[i] in out.apis;
    } else if x in RoutingsOf(out) {
      var i :| 0 <= i < |out.routings| && RoutingsOf(out)[i] == x;
      assert out.routings[i] in out.routings;
    }
  }

  lemma HeldIsFiled(m: Gateway, out: RawState)
    requires Sorted(out) && Holds(m, TargetRows(out)) && forall r | r in m :: m[r].Row() == r
    ensures Filed(m, out)
  {
    forall r | r in m
      ensures FiledAs(m[r], out)
    {
      RowFiledAs(out, m[r]);
    }
  }

  // ---- Names and ids ----------------------------------------------------------------------------------

  // In lists without repeated names or ids, a name and an id go together.
  lemma NameIffId(rows: seq<Entity>, kind: Kind, x: Entity, y: Entity)
    requires Tidy(rows, kind) && x in rows && y in rows
    ensures x.Kind() == kind && y.Kind() == kind && x.id != 0
    ensures x.Name() == y.Name() <==> x == y
    ensures x.id == y.id <==> x == y
  {
    var i :| 0 <= i < |rows| && rows[i] == x;
    var j :| 0 <= j < |rows| && rows[j] == y;
  }

  // A resolved reference is the id of this object exactly when it has its name.
  lemma NamesIff(rows: seq<Entity>, kind: Kind, name: string, id: Id, x: Entity)
    requires Tidy(rows, kind) && x in rows && Names(rows, name, id, 0)
    ensures id == x.id <==> name == x.Name()
  {
    NameIffId(rows, kind, x, x);
    if Mentioned(rows, name) {
      var e :| e in rows && e.Name() == name && IdOf(e) == id;
      NameIffId(rows, kind, e, x);
    }
  }

  // What filtering leaves is part of what there was, and includes every bind
  // between objects it leaves.
  ghost predicate Part(out: RawState, all: RawState) {
    && (forall x | x in out.clusters :: x in all.clusters) && (forall x | x in out.servers :: x in all.servers)
    && (forall a | a in out.apis :: a in all.apis) && (forall r | r in out.routings :: r in all.routings)
    && (forall b | b in out.binds :: b in all.binds)
    && (forall b | b in all.binds && Joins(out.clusters, out.servers)(b) :: b in out.binds)
  }

  lemma FilteredIsPart(all: RawState, valid: Entity -> bool)
    ensures Part(Filtered(all, valid), all)
  {
  }

  // ---- Binds -------------------------------------------------------------------------------------------

  // setTargetsIDs has resolved the names of the binds.
  ghost predicate BindsNamed(raw: RawState, all: RawState) {
    && Tidy(all.clusters, ClusterKind) && Tidy(all.servers, ServerKind) && |all.binds| == |raw.binds|
    && forall i | 0 <= i < |raw.binds| ::
         && raw.binds[i] == RawBind(all.binds[i].clusterName, all.binds[i].serverAddr, None)
         && BindNamed(all.binds[i], all.clusters, all.servers)
  }

  // The bind has the ids of this cluster and this server exactly when it has their
  // names.
  lemma BindIdsIff(clusters: seq<Entity>, servers: seq<Entity>, b: RawBind, k: Entity, s: Entity)
    requires Tidy(clusters, ClusterKind) && Tidy(servers, ServerKind) && BindNamed(b, clusters, servers)
    requires k in clusters && s in servers
    ensures k.Cluster? && s.Server? && k.id != 0 && s.id != 0
    ensures BindIds(b) == (k.id, s.id) <==> b.clusterName == k.Name() && b.serverAddr == s.Name()
  {
    NameIffId(clusters, ClusterKind, k, k);
    NameIffId(servers, ServerKind, s, s);
    if b.bind.Some? {
      NamesIff(clusters, ClusterKind, b.clusterName, b.bind.value.clusterID, k);
      NamesIff(servers, ServerKind, b.serverAddr, b.bind.value.serverID, s);
    }
  }

  lemma BindFiled(m: Gateway, out: RawState, k: Id, s: Id) returns (b: RawBind)
    requires Filed(m, out) && Bind(k, s).Row() in m
    ensures b in out.binds && BindIds(b) == (k, s)
  {
    var bind := Bind(k, s);
    RowDeterminesIds(m[bind.Row()], bind);
    assert FiledAs(m[bind.Row()], out);
    b :| b in out.binds && BindIds(b) == (k, s);
  }

  lemma BoundIsAsked(raw: RawState, all: RawState, out: RawState, m: Gateway, name: string, addr: string)
    requires BindsNamed(raw, all) && Part(out, all) && Filed(m, out) && Bound(m, name, addr)
    ensures RawBind(name, addr, None) in raw.binds && Mentioned(out.clusters, name) && Mentioned(out.servers, addr)
  {
    var k, s :| IsCluster(m, k, name) && IsServer(m, s, addr) && Bind(m[k].id, m[s].id).Row() in m;
    assert FiledAs(m[k], out) && FiledAs(m[s], out);
    var b := BindFiled(m, out, m[k].id, m[s].id);
    NamedBind(raw, all, b, m[k], m[s]);
  }

  lemma NamedBind(raw: RawState, all: RawState, b: RawBind, k: Entity, s: Entity)
    requires BindsNamed(raw, all) && b in all.binds && k in all.clusters && s in all.servers
    requires !k.Bind? && !s.Bind? && BindIds(b) == (k.id, s.id)
    ensures RawBind(k.Name(), s.Name(), None) in raw.binds
  {
    var i :| 0 <= i < |all.binds| && all.binds[i] == b;
    BindIdsIff(all.clusters, all.servers, b, k, s);
    assert raw.binds[i] in raw.binds;
  }

  lemma AskedIsBound(raw: RawState, all: RawState, out: RawState, m: Gateway, name: string, addr: string)
    requires BindsNamed(raw, all) && Part(out, all) && Filed(m, out) && RawBind(name, addr, None) in raw.binds
    requires Mentioned(out.clusters, name) && Mentioned(out.servers, addr)
    ensures Bound(m, name, addr)
  {
    var k :| k in out.clusters && k.Name() == name;
    var s :| s in out.servers && s.Name() == addr;
    var b := BindOfNames(raw, all, k, s);
    assert IdOf(k) in IdsOf(out.clusters) && IdOf(s) in IdsOf(out.servers);
    assert Joins(out.clusters, out.servers)(b);
    BindInRows(out, b);
    assert k in TargetRows(out) && s in TargetRows(out);
    assert IsCluster(m, k.Row(), name) && IsServer(m, s.Row(), addr) && Bind(k.id, s.id).Row() in m;
  }

  lemma BindOfNames(raw: RawState, all: RawState, k: Entity, s: Entity) returns (b: RawBind)
    requires BindsNamed(raw, all) && k in all.clusters && s in all.servers
    requires RawBind(k.Name(), s.Name(), None) in raw.binds
    ensures k.Cluster? && s.Server? && b in all.binds && BindIds(b) == (k.id, s.id)
  {
    var i :| 0 <= i < |raw.binds| && raw.binds[i] == RawBind(k.Name(), s.Name(), None);
    b := all.binds[i];
    BindIdsIff(all.clusters, all.servers, b, k, s);
  }

  lemma BindInRows(out: RawState, b: RawBind)
    requires b in out.binds
    ensures Bind(BindIds(b).0, BindIds(b).1) in TargetRows(out)
  {
    var j :| 0 <= j < |out.binds| && out.binds[j] == b;
    assert BindsOfRaw(out)[j] == Bind(BindIds(b).0, BindIds(b).1);
  }

  lemma KeptAPI(all: RawState, out: RawState, x: Entity)
    requires Part(out, all) && x in APIsOf(out)
    ensures x in APIsOf(all)
  {
    var j :| 0 <= j < |out.apis| && APIsOf(out)[j] == x;
    assert out.apis[j] in out.apis;
    var i :| 0 <= i < |all.apis| && all.apis[i] == out.apis[j];
    assert APIsOf(all)[i] == x;
  }

  // ---- Nodes ---------------------------------------------------------------------------------------------

  ghost predicate AsksNode(apis: seq<RawAPI>, api: string, cluster: string, options: string) {
    exists a :: a in apis && a.api.Name() == api && AsksFor(a.proxies, cluster, options)
  }

  predicate AsksFor(proxies: seq<Proxy>, cluster: string, options: string) {
    exists j :: 0 <= j < |proxies| && proxies[j].clusterName == cluster && proxies[j].node.options == options
  }

  ghost predicate APIsNamed(raw: RawState, all: RawState) {
    && Tidy(all.clusters, ClusterKind) && Tidy(APIsOf(all), APIKind) && |all.apis| == |raw.apis|
    && forall i | 0 <= i < |raw.apis| ::
         && all.apis[i].proxies == raw.apis[i].proxies && all.apis[i].api.Name() == raw.apis[i].api.Name()
         && NodesNamed(all.apis[i], all.clusters) && NodesFrom(all.apis[i].proxies, all.apis[i].api.nodes)
  }

  // An API has a node to this cluster exactly when it has a proxy of its name.
  lemma HasNodeIff(a: RawAPI, clusters: seq<Entity>, k: Entity, options: string)
    requires Tidy(clusters, ClusterKind) && k in clusters && NodesNamed(a, clusters)
    requires NodesFrom(a.proxies, a.api.nodes)
    ensures k.Cluster? && (HasNode(a.api.nodes, k.id, options) <==> AsksFor(a.proxies, k.Name(), options))
  {
    NameIffId(clusters, ClusterKind, k, k);
    forall j | 0 <= j < |a.proxies|
      ensures a.api.nodes[j].clusterID == k.id <==> a.proxies[j].clusterName == k.Name()
    {
      NamesIff(clusters, ClusterKind, a.proxies[j].clusterName, a.api.nodes[j].clusterID, k);
    }
  }

  lemma DispatchedIsAsked(raw: RawState, all: RawState, out: RawState, m: Gateway, api: string,
                          cluster: string, options: string)
    requires APIsNamed(raw, all) && Part(out, all) && Filed(m, out) && Dispatched(m, api, cluster, options)
    ensures AsksNode(raw.apis, api, cluster, options)
    ensures Mentioned(APIsOf(out), api) && Mentioned(out.clusters, cluster)
  {
    var a, k :| IsAPI(m, a, api) && IsCluster(m, k, cluster) && HasNode(m[a].nodes, m[k].id, options);
    assert FiledAs(m[a], out) && FiledAs(m[k], out);
    var x :| x in out.apis && x.api == m[a];
    NodeNamed(raw, all, x, m[k], options);
    APIMentioned(out, x);
  }

  lemma NodeNamed(raw: RawState, all: RawState, x: RawAPI, k: Entity, options: string)
    requires APIsNamed(raw, all) && x in all.apis && k in all.clusters && !k.Bind?
    requires x.api.API? && HasNode(x.api.nodes, k.id, options)
    ensures AsksNode(raw.apis, x.api.Name(), k.Name(), options)
  {
    var i :| 0 <= i < |all.apis| && all.apis[i] == x;
    HasNodeIff(x, all.clusters, k, options);
    assert raw.apis[i] in raw.apis;
  }

  lemma APIMentioned(out: RawState, x: RawAPI)
    requires x in out.apis
    ensures x.api in APIsOf(out) && Mentioned(APIsOf(out), x.api.Name())
  {
    var j :| 0 <= j < |out.apis| && out.apis[j] == x;
    assert APIsOf(out)[j] == x.api;
  }

  // The listed API of this name.
  lemma APINamed(raw: RawState, all: RawState, a: RawAPI, x: RawAPI) returns (i: nat)
    requires Tidy(APIsOf(all), APIKind) && |all.apis| == |raw.apis| && a in raw.apis && x in all.apis
    requires forall i | 0 <= i < |raw.apis| :: all.apis[i].api.Name() == raw.apis[i].api.Name()
    requires a.api.Name() == x.api.Name()
    ensures i < |raw.apis| && raw.apis[i] == a && all.apis[i] == x
  {
    i :| 0 <= i < |raw.apis| && raw.apis[i] == a;
    var j :| 0 <= j < |all.apis| && all.apis[j] == x;
    assert APIsOf(all)[i] == all.apis[i].api && APIsOf(all)[j] == all.apis[j].api;
    assert i == j;
  }

  lemma AskedIsDispatched(raw: RawState, all: RawState, out: RawState, m: Gateway, api: string,
                          cluster: string, options: string)
    requires APIsNamed(raw, all) && Part(out, all) && Filed(m, out) && AsksNode(raw.apis, api, cluster, options)
    requires Mentioned(APIsOf(out), api) && Mentioned(out.clusters, cluster)
    ensures Dispatched(m, api, cluster, options)
  {
    var a :| a in raw.apis && a.api.Name() == api && AsksFor(a.proxies, cluster, options);
    var k :| k in out.clusters && k.Name() == cluster;
    var e :| e in APIsOf(out) && e.Name() == api;
    KeptAPI(all, out, e);
    NamedNode(raw, all, a, e, k, options);
    assert e in TargetRows(out) && k in TargetRows(out);
    assert IsAPI(m, e.Row(), api) && IsCluster(m, k.Row(), cluster);
  }

  lemma NamedNode(raw: RawState, all: RawState, a: RawAPI, e: Entity, k: Entity, options: string)
    requires APIsNamed(raw, all) && a in raw.apis && e in APIsOf(all) && k in all.clusters
    requires a.api.Name() == e.Name() && AsksFor(a.proxies, k.Name(), options)
    ensures e.API? && k.Cluster? && HasNode(e.nodes, k.id, options)
  {
    var j :| 0 <= j < |all.apis| && APIsOf(all)[j] == e;
    var i := APINamed(raw, all, a, all.apis[j]);
    HasNodeIff(all.apis[i], all.clusters, k, options);
  }

  // ---- Routings --------------------------------------------------------------------------------------------

  ghost predicate AsksRouting(routings: seq<RawRouting>, routing: string, config: string, api: string,
                              cluster: string) {
    exists r :: r in routings && r.routing.Routing? && r.routing.name == routing && r.routing.config == config
             && r.apiName == api && r.clusterName == cluster
  }

  ghost predicate RoutingsNamed(raw: RawState, all: RawState) {
    && Tidy(all.clusters, ClusterKind) && Tidy(APIsOf(all), APIKind) && Tidy(RoutingsOf(all), RoutingKind)
    && |all.routings| == |raw.routings|
    && forall i | 0 <= i < |raw.routings| ::
         && RoutingSet(raw.routings[i], all.routings[i])
         && RoutingNamed(raw.routings[i], all.routings[i], all.clusters, APIsOf(all))
         && raw.routings[i].routing.clusterID == 0 && raw.routings[i].routing.apiID == 0
  }

  // A routing leads from this API to this cluster exactly when it names them.
  lemma LeadsIff(before: RawRouting, r: RawRouting, clusters: seq<Entity>, apis: seq<Entity>, a: Entity, k: Entity)
    requires Tidy(clusters, ClusterKind) && Tidy(apis, APIKind) && a in apis && k in clusters
    requires RoutingNamed(before, r, clusters, apis) && before.routing.clusterID == 0 && before.routing.apiID == 0
    ensures Leads(r.routing, a, k) <==> r.apiName == a.Name() && r.clusterName == k.Name()
  {
    NameIffId(clusters, ClusterKind, k, k);
    NameIffId(apis, APIKind, a, a);
    NamesIff(clusters, ClusterKind, r.clusterName, r.routing.clusterID, k);
    NamesIff(apis, APIKind, r.apiName, r.routing.apiID, a);
  }

  lemma JoinedIsAsked(raw: RawState, all: RawState, out: RawState, m: Gateway, routing: string,
                      config: string, api: string, cluster: string)
    requires RoutingsNamed(raw, all) && Part(out, all) && Filed(m, out) && Joined(m, routing, config, api, cluster)
    ensures AsksRouting(raw.routings, routing, config, api, cluster)
    ensures Mentioned(RoutingsOf(out), routing) && Mentioned(APIsOf(out), api)
    ensures Mentioned(out.clusters, cluster)
  {
    var g, a, k :| IsRouting(m, g, routing, config) && IsAPI(m, a, api) && IsCluster(m, k, cluster)
                   && Leads(m[g], m[a], m[k]);
    assert FiledAs(m[g], out) && FiledAs(m[a], out) && FiledAs(m[k], out);
    var x :| x in out.apis && x.api == m[a];
    APIMentioned(out, x);
    KeptAPI(all, out, m[a]);
    var r :| r in out.routings && r.routing == m[g];
    RoutingMentioned(out, r);
    NamedRouting(raw, all, r, m[a], m[k]);
  }

  lemma NamedRouting(raw: RawState, all: RawState, r: RawRouting, a: Entity, k: Entity)
    requires RoutingsNamed(raw, all) && r in all.routings && a in APIsOf(all) && k in all.clusters
    requires Leads(r.routing, a, k)
    ensures AsksRouting(raw.routings, r.routing.name, r.routing.config, a.name, k.name)
  {
    var i :| 0 <= i < |all.routings| && all.routings[i] == r;
    LeadsIff(raw.routings[i], r, all.clusters, APIsOf(all), a, k);
    assert raw.routings[i] in raw.routings;
  }

  lemma RoutingMentioned(out: RawState, r: RawRouting)
    requires r in out.routings
    ensures r.routing in RoutingsOf(out) && Mentioned(RoutingsOf(out), r.routing.Name())
  {
    var j :| 0 <= j < |out.routings| && out.routings[j] == r;
    assert RoutingsOf(out)[j] == r.routing;
  }

  lemma AskedIsJoined(raw: RawState, all: RawState, out: RawState, m: Gateway, routing: string,
                      config: string, api: string, cluster: string)
    requires RoutingsNamed(raw, all) && Part(out, all) && Filed(m, out)
    requires AsksRouting(raw.routings, routing, config, api, cluster)
    requires Mentioned(RoutingsOf(out), routing) && Mentioned(APIsOf(out), api)
    requires Mentioned(out.clusters, cluster)
    ensures Joined(m, routing, config, api, cluster)
  {
    var g, a, k := AskedLeads(raw, all, out, routing, config, api, cluster);
    RowsJoined(m, out, g, a, k);
  }

  lemma AskedLeads(raw: RawState, all: RawState, out: RawState, routing: string, config: string, api: string,
                   cluster: string) returns (g: Entity, a: Entity, k: Entity)
    requires RoutingsNamed(raw, all) && Part(out, all) && AsksRouting(raw.routings, routing, config, api, cluster)
    requires Mentioned(RoutingsOf(out), routing) && Mentioned(APIsOf(out), api) && Mentioned(out.clusters, cluster)
    ensures g in RoutingsOf(out) && a in APIsOf(out) && k in out.clusters && Leads(g, a, k)
    ensures g.name == routing && g.config == config && a.name == api && k.name == cluster
  {
    k :| k in out.clusters && k.Name() == cluster;
    a :| a in APIsOf(out) && a.Name() == api;
    KeptAPI(all, out, a);
    var b := AskedRouting(raw.routings, routing, config, api, cluster);
    var r := RoutingKept(raw, all, out, b);
    LeadsIff(b, r, all.clusters, APIsOf(all), a, k);
    g := r.routing;
  }

  lemma AskedRouting(routings: seq<RawRouting>, routing: string, config: string, api: string, cluster: string)
    returns (b: RawRouting)
    requires AsksRouting(routings, routing, config, api, cluster)
    ensures b in routings && b.routing.Routing? && b.routing.name == routing && b.routing.config == config
    ensures b.apiName == api && b.clusterName == cluster
  {
    b :| b in routings && b.routing.Routing? && b.routing.name == routing && b.routing.config == config
         && b.apiName == api && b.clusterName == cluster;
  }

  lemma RowsJoined(m: Gateway, out: RawState, g: Entity, a: Entity, k: Entity)
    requires Filed(m, out) && g in RoutingsOf(out) && a in APIsOf(out) && k in out.clusters && Leads(g, a, k)
    ensures Joined(m, g.name, g.config, a.name, k.name)
  {
    assert g in TargetRows(out) && a in TargetRows(out) && k in TargetRows(out);
    assert IsRouting(m, g.Row(), g.name, g.config) && IsAPI(m, a.Row(), a.name) && IsCluster(m, k.Row(), k.name);
  }

  // What became of a routing whose name survives.
  lemma RoutingKept(raw: RawState, all: RawState, out: RawState, b: RawRouting) returns (r: RawRouting)
    requires RoutingsNamed(raw, all) && Part(out, all) && b in raw.routings && b.routing.Routing?
    requires Mentioned(RoutingsOf(out), b.routing.name)
    ensures r in out.routings && r.routing in RoutingsOf(out)
    ensures RoutingSet(b, r) && RoutingNamed(b, r, all.clusters, APIsOf(all))
    ensures b.routing.clusterID == 0 && b.routing.apiID == 0
  {
    var e :| e in RoutingsOf(out) && e.Name() == b.routing.name;
    var j :| 0 <= j < |out.routings| && RoutingsOf(out)[j] == e;
    r := out.routings[j];
    assert r in out.routings;
    var n :| 0 <= n < |all.routings| && all.routings[n] == r;
    var i :| 0 <= i < |raw.routings| && raw.routings[i] == b;
    assert RoutingsOf(all)[i] == all.routings[i].routing && RoutingsOf(all)[n] == all.routings[n].routing;
    assert RoutingSet(raw.routings[i], all.routings[i]);
    assert i == n;
  }

  // ---- The target as a whole ------------------------------------------------------------------------------

  lemma TidyByHandles(rows: seq<Entity>, others: seq<Entity>, kind: Kind)
    requires Tidy(rows, kind) && SameHandles(rows, others)
    ensures Tidy(others, kind)
  {
  }

  // What setTargetsIDs makes of a raw target.
  ghost predicate Named(raw: RawState, all: RawState) {
    BindsNamed(raw, all) && APIsNamed(raw, all) && RoutingsNamed(raw, all)
  }

  lemma ResolvedTidyKinds(db: DB, snow: nat -> Id, raw: RawState)
    requires Ordinary(db) && Fresh(db, snow, Draws(raw)) && Presentable(raw)
    ensures SetIDs(db, snow, raw).Ok?
    ensures
      var all := SetIDs(db, snow, raw).value;
      && Tidy(all.clusters, ClusterKind) && Tidy(all.servers, ServerKind)
      && Tidy(APIsOf(all), APIKind) && Tidy(RoutingsOf(all), RoutingKind)
  {
    ResolvedSound(db, snow, raw);
    ResolvedTidy(db, snow, raw);
    var servers := AssignAll(db, snow, 0, raw.servers).value;
    var clusters := AssignAll(db, snow, servers.next, raw.clusters).value;
    var apis := AssignAll(db, snow, clusters.next, APIsOf(raw)).value;
    var routings := AssignAll(db, snow, apis.next, RoutingsOf(raw)).value;
    AssignTidy(db, snow, 0, raw.servers, ServerKind, Draws(raw));
    AssignTidy(db, snow, servers.next, raw.clusters, ClusterKind, Draws(raw));
    AssignTidy(db, snow, clusters.next, APIsOf(raw), APIKind, Draws(raw));
    AssignTidy(db, snow, apis.next, RoutingsOf(raw), RoutingKind, Draws(raw));
    ResolvedHandles(raw, servers.rows, clusters.rows, apis.rows, routings.rows);
    var all := Resolved(raw, servers.rows, clusters.rows, apis.rows, routings.rows);
    TidyByHandles(apis.rows, APIsOf(all), APIKind);
    TidyByHandles(routings.rows, RoutingsOf(all), RoutingKind);
  }

  lemma ResolvedIsNamed(db: DB, snow: nat -> Id, raw: RawState)
    requires Ordinary(db) && Fresh(db, snow, Draws(raw)) && Presentable(raw) && TargetCloses.Unlinked(raw)
    ensures SetIDs(db, snow, raw).Ok? && Named(raw, SetIDs(db, snow, raw).value)
  {
    PresentableIsUnset(raw);
    ResolvedTidyKinds(db, snow, raw);
    SetIDsSetsOnlyIds(db, snow, raw);
    SetIDsLinks(db, snow, raw);
    var all := SetIDs(db, snow, raw).value;
    NamedByParts(raw, all);
  }

  // Binds without ids, and APIs that are APIs.
  ghost predicate Unset(raw: RawState) {
    && (forall b | b in raw.binds :: b.bind.None?)
    && (forall i | 0 <= i < |raw.apis| :: raw.apis[i].api.API?)
  }

  lemma PresentableIsUnset(raw: RawState)
    requires Presentable(raw)
    ensures Unset(raw)
  {
    forall i | 0 <= i < |raw.apis|
      ensures raw.apis[i].api.API?
    {
      assert APIsOf(raw)[i].Kind() == APIKind;
    }
  }

  lemma NamedByParts(raw: RawState, all: RawState)
    requires Tidy(all.clusters, ClusterKind) && Tidy(all.servers, ServerKind)
    requires Tidy(APIsOf(all), APIKind) && Tidy(RoutingsOf(all), RoutingKind)
    requires OnlyIdsSet(raw, all) && Linked(raw, all) && TargetCloses.Unlinked(raw)
    requires Unset(raw)
    ensures Named(raw, all)
  {
    forall i | 0 <= i < |raw.binds|
      ensures raw.binds[i] == RawBind(all.binds[i].clusterName, all.binds[i].serverAddr, None)
      ensures BindNamed(all.binds[i], all.clusters, all.servers)
    {
      assert raw.binds[i] in raw.binds && all.binds[i] in all.binds;
    }
    forall i | 0 <= i < |raw.apis|
      ensures all.apis[i].api.Name() == raw.apis[i].api.Name()
      ensures all.apis[i].proxies == raw.apis[i].proxies
      ensures NodesNamed(all.apis[i], all.clusters) && NodesFrom(all.apis[i].proxies, all.apis[i].api.nodes)
    {
      assert APISet(raw.apis[i], all.apis[i]);
    }
    forall i | 0 <= i < |raw.routings|
      ensures raw.routings[i].routing.Routing?
      ensures raw.routings[i].routing.clusterID == 0 && raw.routings[i].routing.apiID == 0
    {
      assert raw.routings[i] in raw.routings;
    }
  }

  // The state built from the prepared target, and its lists.
  lemma TargetIsFiled(db: DB, snow: nat -> Id, raw: RawState, valid: Entity -> bool, n: nat)
    requires Ordinary(db) && Fresh(db, snow, Draws(raw)) && Presentable(raw) && Builds(db, snow, raw, valid)
    ensures SetIDs(db, snow, raw).Ok?
    ensures
      var out := Prepared(db, snow, raw, valid).value;
      Part(out, SetIDs(db, snow, raw).value) && Filed(TargetConfig(db, snow, raw, valid, n).target.ids, out)
  {
    TargetBuildsIff(db, snow, raw, valid, n);
    var _, _ := PreparedFacts(db, snow, raw, valid);
    FilteredIsPart(SetIDs(db, snow, raw).value, valid);
    HeldIsFiled(TargetConfig(db, snow, raw, valid, n).target.ids, Prepared(db, snow, raw, valid).value);
  }

  // The target binds a cluster to a server exactly when the raw target does and
  // both survive,
  lemma TargetBoundIff(db: DB, snow: nat -> Id, raw: RawState, valid: Entity -> bool, n: nat, name: string,
                       addr: string)
    requires Ordinary(db) && Fresh(db, snow, Draws(raw)) && Presentable(raw) && TargetCloses.Unlinked(raw)
    requires Builds(db, snow, raw, valid)
    ensures
      var out := Prepared(db, snow, raw, valid).value;
      Bound(TargetConfig(db, snow, raw, valid, n).target.ids, name, addr) <==>
        RawBind(name, addr, None) in raw.binds && Mentioned(out.clusters, name) && Mentioned(out.servers, addr)
  {
    ResolvedIsNamed(db, snow, raw);
    TargetIsFiled(db, snow, raw, valid, n);
    var all, out := SetIDs(db, snow, raw).value, Prepared(db, snow, raw, valid).value;
    var m := TargetConfig(db, snow, raw, valid, n).target.ids;
    if Bound(m, name, addr) {
      BoundIsAsked(raw, all, out, m, name, addr);
    }
    if RawBind(name, addr, None) in raw.binds && Mentioned(out.clusters, name) && Mentioned(out.servers, addr) {
      AskedIsBound(raw, all, out, m, name, addr);
    }
  }

  // lets an API dispatch to a cluster exactly when it has a proxy there and both
  // survive,
  lemma TargetDispatchedIff(db: DB, snow: nat -> Id, raw: RawState, valid: Entity -> bool, n: nat, api: string,
                            cluster: string, options: string)
    requires Ordinary(db) && Fresh(db, snow, Draws(raw)) && Presentable(raw) && TargetCloses.Unlinked(raw)
    requires Builds(db, snow, raw, valid)
    ensures
      var out := Prepared(db, snow, raw, valid).value;
      Dispatched(TargetConfig(db, snow, raw, valid, n).target.ids, api, cluster, options) <==>
        && AsksNode(raw.apis, api, cluster, options)
        && Mentioned(APIsOf(out), api) && Mentioned(out.clusters, cluster)
  {
    ResolvedIsNamed(db, snow, raw);
    TargetIsFiled(db, snow, raw, valid, n);
    var all, out := SetIDs(db, snow, raw).value, Prepared(db, snow, raw, valid).value;
    var m := TargetConfig(db, snow, raw, valid, n).target.ids;
    if Dispatched(m, api, cluster, options) {
      DispatchedIsAsked(raw, all, out, m, api, cluster, options);
    }
    if AsksNode(raw.apis, api, cluster, options) && Mentioned(APIsOf(out), api) && Mentioned(out.clusters, cluster) {
      AskedIsDispatched(raw, all, out, m, api, cluster, options);
    }
  }

  // and has a routing between them exactly when the raw target has it and all three
  // survive.
  lemma TargetJoinedIff(db: DB, snow: nat -> Id, raw: RawState, valid: Entity -> bool, n: nat, routing: string,
                        config: string, api: string, cluster: string)
    requires Ordinary(db) && Fresh(db, snow, Draws(raw)) && Presentable(raw) && TargetCloses.Unlinked(raw)
    requires Builds(db, snow, raw, valid)
    ensures
      var out := Prepared(db, snow, raw, valid).value;
      Joined(TargetConfig(db, snow, raw, valid, n).target.ids, routing, config, api, cluster) <==>
        && AsksRouting(raw.routings, routing, config, api, cluster) && Mentioned(RoutingsOf(out), routing)
        && Mentioned(APIsOf(out), api) && Mentioned(out.clusters, cluster)
  {
    ResolvedIsNamed(db, snow, raw);
    TargetIsFiled(db, snow, raw, valid, n);
    var all, out := SetIDs(db, snow, raw).value, Prepared(db, snow, raw, valid).value;
    var m := TargetConfig(db, snow, raw, valid, n).target.ids;
    if Joined(m, routing, config, api, cluster) {
      JoinedIsAsked(raw, all, out, m, routing, config, api, cluster);
    }
    if && AsksRouting(raw.routings, routing, config, api, cluster) && Mentioned(RoutingsOf(out), routing)
       && Mentioned(APIsOf(out), api) && Mentioned(out.clusters, cluster) {
      AskedIsJoined(raw, all, out, m, routing, config, api, cluster);
    }
  }
}
