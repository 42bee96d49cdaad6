// When the prepared target is closed under references, and what that means for
// the gateway during an update.
module TargetCloses {
  import opened Entities
  import opened Store
  import opened Stable
  import opened Collections
  import opened Target
  import opened TargetLaws
  import opened TargetBuilds
  import Sync
  import SyncResults

  // ---- Ids of surviving objects -------------------------------------------------------

  ghost predicate Drawn(sub: seq<Entity>, rows: seq<Entity>) {
    forall e | e in sub :: exists k :: 0 <= k < |rows| && rows[k].Name() == e.Name() && IdOf(rows[k]) == IdOf(e)
  }

  // The map's id for a name is that of a survivor exactly when the name is.
  lemma IdSurvivesIff(rows: seq<Entity>, kind: Kind, sub: seq<Entity>, name: string)
    requires Tidy(rows, kind) && Drawn(sub, rows)
    ensures Known(IdMap(rows), name) in IdsOf(sub) <==> Mentioned(sub, name)
  {
    if Known(IdMap(rows), name) in IdsOf(sub) {
      var e :| e in sub && IdOf(e) == Known(IdMap(rows), name);
      var k :| 0 <= k < |rows| && rows[k].Name() == e.Name() && IdOf(rows[k]) == IdOf(e);
      IdMapFinds(rows, kind, k);
      IdMapInjective(rows, kind, name, e.Name());
    }
    if Mentioned(sub, name) {
      var e :| e in sub && e.Name() == name;
      var k :| 0 <= k < |rows| && rows[k].Name() == e.Name() && IdOf(rows[k]) == IdOf(e);
      IdMapFinds(rows, kind, k);
      assert IdOf(e) in IdsOf(sub);
    }
  }

  // A name the map does not have reads as zero.
  function Known(ids: map<string, Id>, name: string): Id {
    if name in ids then ids[name] else 0
  }

  // ---- The references of the prepared target --------------------------------------------

  // The parser sets no ids on routings.
  ghost predicate Unlinked(raw: RawState) {
    forall r | r in raw.routings :: r.routing.Routing? && r.routing.clusterID == 0 && r.routing.apiID == 0
  }

  ghost predicate Noded(a: RawAPI, clusters: map<string, Id>) {
    a.api.API? && a.api.nodes == ResolveNodes(a.proxies, clusters)
  }

  ghost predicate Linked(r: RawRouting, clusters: map<string, Id>, apis: map<string, Id>) {
    && r.routing.Routing? && r.routing.clusterID == Known(clusters, r.clusterName)
    && r.routing.apiID == Known(apis, r.apiName)
  }

  // Every proxy and every routing names survivors.
  ghost predicate NamesSurvive(out: RawState) {
    && (forall a, p | a in out.apis && p in a.proxies :: Mentioned(out.clusters, p.clusterName))
    && (forall r | r in out.routings :: Mentioned(out.clusters, r.clusterName) && Mentioned(APIsOf(out), r.apiName))
  }

  ghost predicate PointsIn(e: Entity, out: RawState) {
    match e
    case API(_, _, nodes, _, _) => forall n | n in nodes :: n.clusterID in IdsOf(out.clusters)
    case Routing(_, _, c, a, _, _) => c in IdsOf(out.clusters) && a in IdsOf(APIsOf(out))
    case Bind(c, s) => c in IdsOf(out.clusters) && s in IdsOf(out.servers)
    case _ => true
  }

  lemma NodesPointInIff(a: RawAPI, out: RawState, clusters: seq<Entity>)
    requires Tidy(clusters, ClusterKind) && Drawn(out.clusters, clusters) && Noded(a, IdMap(clusters))
    ensures PointsIn(a.api, out) <==> forall p | p in a.proxies :: Mentioned(out.clusters, p.clusterName)
  {
    forall p | p in a.proxies
      ensures ResolveNode(p, IdMap(clusters)) in a.api.nodes
      ensures ResolveNode(p, IdMap(clusters)).clusterID in IdsOf(out.clusters) <==>
                Mentioned(out.clusters, p.clusterName)
    {
      var i :| 0 <= i < |a.proxies| && a.proxies[i] == p;
      assert a.api.nodes[i] == ResolveNode(p, IdMap(clusters));
      IdSurvivesIff(clusters, ClusterKind, out.clusters, p.clusterName);
    }
    forall n | n in a.api.nodes
      ensures exists p :: p in a.proxies && n == ResolveNode(p, IdMap(clusters))
    {
      var i :| 0 <= i < |a.api.nodes| && a.api.nodes[i] == n;
      assert a.proxies[i] in a.proxies;
    }
  }

  lemma RoutingPointsInIff(r: RawRouting, out: RawState, clusters: seq<Entity>, apis: seq<Entity>)
    requires Tidy(clusters, ClusterKind) && Drawn(out.clusters, clusters)
    requires Tidy(apis, APIKind) && Drawn(APIsOf(out), apis)
    requires Linked(r, IdMap(clusters), IdMap(apis))
    ensures PointsIn(r.routing, out) <==> Mentioned(out.clusters, r.clusterName) && Mentioned(APIsOf(out), r.apiName)
  {
    IdSurvivesIff(clusters, ClusterKind, out.clusters, r.clusterName);
    IdSurvivesIff(apis, APIKind, APIsOf(out), r.apiName);
  }

  // ---- In the state built from it ----------------------------------------------------------

  // A row of a kind with that id is there exactly when a listed object has it.
  lemma RowThereIff(m: map<Ref, Entity>, rows: seq<Entity>, list: seq<Entity>, kind: Kind, id: Id)
    requires Holds(m, rows) && (forall r | r in m :: m[r].Row() == r) && kind != BindKind
    requires forall x :: x in list <==> x in rows && x.Kind() == kind
    ensures Ref(kind, IdText(id)) in m <==> id in IdsOf(list)
  {
    if Ref(kind, IdText(id)) in m {
      var x := m[Ref(kind, IdText(id))];
      assert x in rows && x.Row() == Ref(kind, IdText(id));
      IdTextInjective(x.id, id);
    }
    if id in IdsOf(list) {
      var x :| x in list && IdOf(x) == id;
      assert x in rows && Find(m, x.Row()) == Some(x);
    }
  }

  lemma ListsByKind(out: RawState)
    requires Sorted(out)
    ensures forall x :: x in out.clusters <==> x in TargetRows(out) && x.Kind() == ClusterKind
    ensures forall x :: x in out.servers <==> x in TargetRows(out) && x.Kind() == ServerKind
    ensures forall x :: x in APIsOf(out) <==> x in TargetRows(out) && x.Kind() == APIKind
  {
  }

  lemma TargetsThereIff(m: map<Ref, Entity>, out: RawState, e: Entity)
    requires Holds(m, TargetRows(out)) && (forall r | r in m :: m[r].Row() == r) && Sorted(out)
    ensures (forall t | t in Targets(e) :: t in m) <==> PointsIn(e, out)
  {
    ListsByKind(out);
    forall id: Id
      ensures Ref(ClusterKind, IdText(id)) in m <==> id in IdsOf(out.clusters)
      ensures Ref(ServerKind, IdText(id)) in m <==> id in IdsOf(out.servers)
      ensures Ref(APIKind, IdText(id)) in m <==> id in IdsOf(APIsOf(out))
    {
      RowThereIff(m, TargetRows(out), out.clusters, ClusterKind, id);
      RowThereIff(m, TargetRows(out), out.servers, ServerKind, id);
      RowThereIff(m, TargetRows(out), APIsOf(out), APIKind, id);
    }
    TargetsInIff(e, m, out);
  }

  lemma TargetsInIff(e: Entity, m: map<Ref, Entity>, out: RawState)
    requires forall id: Id :: Ref(ClusterKind, IdText(id)) in m <==> id in IdsOf(out.clusters)
    requires forall id: Id :: Ref(ServerKind, IdText(id)) in m <==> id in IdsOf(out.servers)
    requires forall id: Id :: Ref(APIKind, IdText(id)) in m <==> id in IdsOf(APIsOf(out))
    ensures (forall t | t in Targets(e) :: t in m) <==> PointsIn(e, out)
  {
  }

  // ---- The prepared target as a whole ---------------------------------------------------------

  lemma APINoded(a: RawAPI, all: seq<RawAPI>, raws: seq<RawAPI>, apis: seq<Entity>, clusters: map<string, Id>)
    requires |apis| == |raws| && (forall k | 0 <= k < |apis| :: apis[k].API?)
    requires all == ResolveAPIs(raws, apis, clusters) && a in all
    ensures Noded(a, clusters)
    ensures exists k :: 0 <= k < |apis| && apis[k].Name() == a.api.Name() && IdOf(apis[k]) == IdOf(a.api)
  {
  }

  lemma RoutingLinked(r: RawRouting, all: seq<RawRouting>, raws: seq<RawRouting>, rows: seq<Entity>,
                      clusters: map<string, Id>, apis: map<string, Id>)
    requires |rows| == |raws| && all == ResolveRoutings(raws, rows, clusters, apis) && r in all
    requires forall k | 0 <= k < |rows| :: rows[k].Routing? && rows[k].clusterID == 0 && rows[k].apiID == 0
    ensures Linked(r, clusters, apis)
  {
  }

  lemma RoutingsUnlinked(db: DB, snow: nat -> Id, next: nat, raw: RawState)
    requires Ordinary(db) && Plain(RoutingsOf(raw), RoutingKind) && Unlinked(raw)
    ensures AssignAll(db, snow, next, RoutingsOf(raw)).Ok?
    ensures
      var rows := AssignAll(db, snow, next, RoutingsOf(raw)).value.rows;
      forall k | 0 <= k < |rows| :: rows[k].Routing? && rows[k].clusterID == 0 && rows[k].apiID == 0
  {
    AssignResolves(db, snow, next, RoutingsOf(raw), RoutingKind);
    var done := AssignAll(db, snow, next, RoutingsOf(raw)).value;
    forall k | 0 <= k < |done.rows|
      ensures done.rows[k].Routing? && done.rows[k].clusterID == 0 && done.rows[k].apiID == 0
    {
      assert raw.routings[k] in raw.routings;
      assert Resolves(db, snow, next, done.next, RoutingsOf(raw)[k], done.rows[k]);
    }
  }

  // How names and ids of the prepared target hang together.
  ghost predicate Wired(out: RawState, clusters: seq<Entity>, apis: seq<Entity>) {
    && Tidy(clusters, ClusterKind) && Drawn(out.clusters, clusters)
    && Tidy(apis, APIKind) && Drawn(APIsOf(out), apis)
    && (forall a | a in out.apis :: Noded(a, IdMap(clusters)))
    && (forall r | r in out.routings :: Linked(r, IdMap(clusters), IdMap(apis)))
  }

  lemma FilteredWired(raw: RawState, servers: seq<Entity>, clusters: seq<Entity>, apis: seq<Entity>,
                      routings: seq<Entity>, valid: Entity -> bool)
    requires |apis| == |raw.apis| && |routings| == |raw.routings|
    requires Tidy(clusters, ClusterKind) && Tidy(apis, APIKind)
    requires forall k | 0 <= k < |routings| ::
               routings[k].Routing? && routings[k].clusterID == 0 && routings[k].apiID == 0
    ensures Wired(Filtered(Resolved(raw, servers, clusters, apis, routings), valid), clusters, apis)
  {
    var all := Resolved(raw, servers, clusters, apis, routings);
    var out := Filtered(all, valid);
    forall a | a in out.apis
      ensures Noded(a, IdMap(clusters))
      ensures exists k :: 0 <= k < |apis| && apis[k].Name() == a.api.Name() && IdOf(apis[k]) == IdOf(a.api)
    {
      APINoded(a, all.apis, raw.apis, apis, IdMap(clusters));
    }
    forall r | r in out.routings
      ensures Linked(r, IdMap(clusters), IdMap(apis))
    {
      RoutingLinked(r, all.routings, raw.routings, routings, IdMap(clusters), IdMap(apis));
    }
    forall e | e in APIsOf(out)
      ensures exists k :: 0 <= k < |apis| && apis[k].Name() == e.Name() && IdOf(apis[k]) == IdOf(e)
    {
      var i :| 0 <= i < |out.apis| && APIsOf(out)[i] == e;
      assert out.apis[i] in out.apis;
    }
    forall e | e in out.clusters
      ensures exists k :: 0 <= k < |clusters| && clusters[k].Name() == e.Name() && IdOf(clusters[k]) == IdOf(e)
    {
      var k :| 0 <= k < |clusters| && clusters[k] == e;
    }
  }

  lemma PreparedWired(db: DB, snow: nat -> Id, raw: RawState, valid: Entity -> bool)
    returns (clusters: seq<Entity>, apis: seq<Entity>)
    requires Ordinary(db) && Fresh(db, snow, Draws(raw)) && Presentable(raw) && Unlinked(raw)
    ensures Prepared(db, snow, raw, valid).Ok? && Wired(Prepared(db, snow, raw, valid).value, clusters, apis)
  {
    AssignTidy(db, snow, 0, raw.servers, ServerKind, Draws(raw));
    var s := AssignAll(db, snow, 0, raw.servers).value;
    AssignTidy(db, snow, s.next, raw.clusters, ClusterKind, Draws(raw));
    var k := AssignAll(db, snow, s.next, raw.clusters).value;
    AssignTidy(db, snow, k.next, APIsOf(raw), APIKind, Draws(raw));
    var a := AssignAll(db, snow, k.next, APIsOf(raw)).value;
    RoutingsUnlinked(db, snow, a.next, raw);
    var r := AssignAll(db, snow, a.next, RoutingsOf(raw)).value;
    clusters, apis := k.rows, a.rows;
    FilteredWired(raw, s.rows, clusters, apis, r.rows, valid);
  }

  // Binds always point at survivors; APIs and routings when they name them.
  lemma RowsPointInIff(out: RawState, clusters: seq<Entity>, apis: seq<Entity>)
    requires Wired(out, clusters, apis) && forall b | b in BindsOfRaw(out) :: PointsIn(b, out)
    requires Sorted(out)
    ensures (forall x | x in TargetRows(out) :: PointsIn(x, out)) <==> NamesSurvive(out)
  {
    forall a | a in out.apis
      ensures a.api in TargetRows(out)
      ensures PointsIn(a.api, out) <==> forall p | p in a.proxies :: Mentioned(out.clusters, p.clusterName)
    {
      var i :| 0 <= i < |out.apis| && out.apis[i] == a;
      assert APIsOf(out)[i] == a.api;
      NodesPointInIff(a, out, clusters);
    }
    forall r | r in out.routings
      ensures r.routing in TargetRows(out)
      ensures PointsIn(r.routing, out) <==> Mentioned(out.clusters, r.clusterName) && Mentioned(APIsOf(out), r.apiName)
    {
      var i :| 0 <= i < |out.routings| && out.routings[i] == r;
      assert RoutingsOf(out)[i] == r.routing;
      RoutingPointsInIff(r, out, clusters, apis);
    }
    forall x | x in TargetRows(out) && x !in BindsOfRaw(out) && !PointsIn(x, out)
      ensures (exists a :: a in out.apis && a.api == x) || (exists r :: r in out.routings && r.routing == x)
    {
      OwnerOf(out, x);
    }
  }

  lemma OwnerOf(out: RawState, x: Entity)
    requires Sorted(out) && x in TargetRows(out) && x !in BindsOfRaw(out) && (x.API? || x.Routing?)
    ensures (exists a :: a in out.apis && a.api == x) || (exists r :: r in out.routings && r.routing == x)
  {
  }

  lemma KeptBindsPointIn(all: RawState, valid: Entity -> bool, b: Entity)
    requires b in BindsOfRaw(Filtered(all, valid))
    ensures PointsIn(b, Filtered(all, valid))
  {
    var out := Filtered(all, valid);
    var i :| 0 <= i < |out.binds| && BindsOfRaw(out)[i] == b;
    assert out.binds[i] in out.binds;
  }

  lemma HeldReferences(m: map<Ref, Entity>, out: RawState)
    requires Holds(m, TargetRows(out)) && (forall r | r in m :: m[r].Row() == r) && Sorted(out)
    ensures SyncResults.ReferencesHold(m) <==> forall x | x in TargetRows(out) :: PointsIn(x, out)
  {
    forall x | x in TargetRows(out)
      ensures (forall t | t in Targets(x) :: t in m) <==> PointsIn(x, out)
      ensures x.Row() in m && m[x.Row()] == x
    {
      TargetsThereIff(m, out, x);
      assert Find(m, x.Row()) == Some(x);
    }
  }

  // The target is closed under references exactly when every surviving API's
  // proxies and every surviving routing name survivors.
  lemma TargetClosedIff(db: DB, snow: nat -> Id, raw: RawState, valid: Entity -> bool, n: nat)
    requires Ordinary(db) && Fresh(db, snow, Draws(raw)) && Presentable(raw) && Unlinked(raw)
    requires Builds(db, snow, raw, valid)
    ensures SyncResults.ReferencesHold(TargetConfig(db, snow, raw, valid, n).target.ids) <==>
              NamesSurvive(Prepared(db, snow, raw, valid).value)
  {
    TargetBuildsIff(db, snow, raw, valid, n);
    var out := Prepared(db, snow, raw, valid).value;
    var clusters, apis := PreparedWired(db, snow, raw, valid);
    var _, _ := PreparedFacts(db, snow, raw, valid);
    forall b | b in BindsOfRaw(out)
      ensures PointsIn(b, out)
    {
      KeptBindsPointIn(SetIDs(db, snow, raw).value, valid, b);
    }
    RowsPointInIff(out, clusters, apis);
    HeldReferences(TargetConfig(db, snow, raw, valid, n).target.ids, out);
  }

  // Then no reference in the gateway dangles at any time of the update, until a
  // call fails.
  lemma UpdateNeverDangles(db: DB, snow: nat -> Id, raw: RawState, valid: Entity -> bool, n: nat, run: seq<Sync.Label>)
    requires Ordinary(db) && Fresh(db, snow, Draws(raw)) && Presentable(raw) && Unlinked(raw)
    requires Builds(db, snow, raw, valid) && NamesSurvive(Prepared(db, snow, raw, valid).value)
    requires SyncResults.ReferencesHold(db.ids)
    requires Sync.Execute(TargetConfig(db, snow, raw, valid, n), run).Some?
    requires Sync.Execute(TargetConfig(db, snow, raw, valid, n), run).value.failures == 0
    ensures SyncResults.ReferencesHold(Sync.Execute(TargetConfig(db, snow, raw, valid, n), run).value.remote)
  {
    TargetBuildsIff(db, snow, raw, valid, n);
    TargetClosedIff(db, snow, raw, valid, n);
    SyncResults.ReferencesNeverDangle(TargetConfig(db, snow, raw, valid, n), run);
  }
}
