// What of the parser's objects reaches the target: every field that is no id, the
// references as named, and exactly the objects that pass the validators.
module TargetFields {
  import opened Entities
  import opened Store
  import opened Stable
  import opened Target
  import opened TargetLaws
  import opened TargetBuilds

  // ---- References are what they are named --------------------------------------------------

  // The id is that of the object of this name, or the given one when there is none.
  ghost predicate Names(rows: seq<Entity>, name: string, id: Id, otherwise: Id) {
    if Mentioned(rows, name) then exists e :: e in rows && e.Name() == name && IdOf(e) == id
    else id == otherwise
  }

  lemma MapNames(rows: seq<Entity>, kind: Kind, name: string, otherwise: Id)
    requires Tidy(rows, kind)
    ensures Names(rows, name, if name in IdMap(rows) then IdMap(rows)[name] else otherwise, otherwise)
  {
    if name in IdMap(rows) {
      var i := IdMapNames(rows, name);
      IdMapFinds(rows, kind, i);
      assert rows[i] in rows;
    }
    if Mentioned(rows, name) {
      var e :| e in rows && e.Name() == name;
      var i :| 0 <= i < |rows| && rows[i] == e;
      IdMapFinds(rows, kind, i);
    }
  }

  ghost predicate NodesNamed(a: RawAPI, clusters: seq<Entity>) {
    a.api.API? && |a.api.nodes| == |a.proxies|
    && forall j | 0 <= j < |a.proxies| :: Names(clusters, a.proxies[j].clusterName, a.api.nodes[j].clusterID, 0)
  }

  ghost predicate RoutingNamed(before: RawRouting, r: RawRouting, clusters: seq<Entity>, apis: seq<Entity>) {
    && before.routing.Routing? && r.routing.Routing?
    && Names(clusters, r.clusterName, r.routing.clusterID, before.routing.clusterID)
    && Names(apis, r.apiName, r.routing.apiID, before.routing.apiID)
  }

  ghost predicate BindNamed(b: RawBind, clusters: seq<Entity>, servers: seq<Entity>) {
    if Mentioned(clusters, b.clusterName) && Mentioned(servers, b.serverAddr) then
      && b.bind.Some? && b.bind.value.Bind?
      && Names(clusters, b.clusterName, b.bind.value.clusterID, 0)
      && Names(servers, b.serverAddr, b.bind.value.serverID, 0)
    else b.bind.None?
  }

  // Nodes, routings and binds point at the objects they name, by the ids these got.
  ghost predicate Linked(raw: RawState, out: RawState) {
    && (forall i | 0 <= i < |out.apis| :: NodesNamed(out.apis[i], out.clusters))
    && |out.routings| == |raw.routings|
    && (forall i | 0 <= i < |out.routings| ::
          RoutingNamed(raw.routings[i], out.routings[i], out.clusters, APIsOf(out)))
    && forall b | b in out.binds :: BindNamed(b, out.clusters, out.servers)
  }

  lemma SetIDsLinks(db: DB, snow: nat -> Id, raw: RawState)
    requires Ordinary(db) && Fresh(db, snow, Draws(raw)) && Presentable(raw)
    ensures SetIDs(db, snow, raw).Ok? && Linked(raw, SetIDs(db, snow, raw).value)
  {
    ResolvedSound(db, snow, raw);
    ResolvedTidy(db, snow, raw);
    var servers := AssignAll(db, snow, 0, raw.servers).value;
    var clusters := AssignAll(db, snow, servers.next, raw.clusters).value;
    var apis := AssignAll(db, snow, clusters.next, APIsOf(raw)).value;
    var routings := AssignAll(db, snow, apis.next, RoutingsOf(raw)).value;
    AssignTidy(db, snow, 0, raw.servers, ServerKind, Draws(raw));
    AssignTidy(db, snow, servers.next, raw.clusters, ClusterKind, Draws(raw));
    AssignTidy(db, snow, clusters.next, APIsOf(raw), APIKind, Draws(raw));
    AssignSets(db, snow, apis.next, RoutingsOf(raw));
    ResolvedLinks(raw, servers.rows, clusters.rows, apis.rows, routings.rows);
  }

  lemma ResolvedLinks(raw: RawState, servers: seq<Entity>, clusters: seq<Entity>, apis: seq<Entity>,
                      routings: seq<Entity>)
    requires |apis| == |raw.apis| && Tidy(clusters, ClusterKind) && Tidy(servers, ServerKind) && Tidy(apis, APIKind)
    requires IdsSet(RoutingsOf(raw), routings)
    requires forall i | 0 <= i < |raw.routings| :: RoutingsOf(raw)[i].Kind() == RoutingKind
    requires forall b | b in raw.binds :: b.bind.None?
    ensures Linked(raw, Resolved(raw, servers, clusters, apis, routings))
  {
    var out := Resolved(raw, servers, clusters, apis, routings);
    ResolvedHandles(raw, servers, clusters, apis, routings);
    forall i | 0 <= i < |out.apis|
      ensures NodesNamed(out.apis[i], clusters)
    {
      NodesAreNamed(raw.apis[i], apis[i], clusters);
    }
    forall i | 0 <= i < |out.routings|
      ensures RoutingNamed(raw.routings[i], out.routings[i], clusters, APIsOf(out))
    {
      assert RoutingsOf(raw)[i] == raw.routings[i].routing;
      RoutingIsNamed(raw.routings[i], routings[i], clusters, apis, APIsOf(out));
    }
    forall b | b in out.binds
      ensures BindNamed(b, clusters, servers)
    {
      var i :| 0 <= i < |raw.binds| && out.binds[i] == b;
      assert raw.binds[i] in raw.binds;
      BindIsNamed(raw.binds[i], clusters, servers);
    }
  }

  lemma NodesAreNamed(a: RawAPI, withId: Entity, clusters: seq<Entity>)
    requires Tidy(clusters, ClusterKind) && withId.Kind() == APIKind
    ensures NodesNamed(ResolveAPI(a, withId, IdMap(clusters)), clusters)
  {
    forall j | 0 <= j < |a.proxies|
      ensures Names(clusters, a.proxies[j].clusterName, ResolveNode(a.proxies[j], IdMap(clusters)).clusterID, 0)
    {
      MapNames(clusters, ClusterKind, a.proxies[j].clusterName, 0);
    }
  }

  lemma RoutingIsNamed(r: RawRouting, withId: Entity, clusters: seq<Entity>, apis: seq<Entity>, others: seq<Entity>)
    requires Tidy(clusters, ClusterKind) && Tidy(apis, APIKind) && SameHandles(apis, others)
    requires r.routing.Kind() == RoutingKind && IdSet(r.routing, withId)
    ensures RoutingNamed(r, ResolveRouting(r, withId, IdMap(clusters), IdMap(apis)), clusters, others)
  {
    MapNames(clusters, ClusterKind, r.clusterName, r.routing.clusterID);
    MapNames(apis, APIKind, r.apiName, r.routing.apiID);
    NamesByHandles(apis, others, r.apiName, ResolveRouting(r, withId, IdMap(clusters), IdMap(apis)).routing.apiID,
                   r.routing.apiID);
  }

  lemma NamesByHandles(rows: seq<Entity>, others: seq<Entity>, name: string, id: Id, otherwise: Id)
    requires SameHandles(rows, others) && Names(rows, name, id, otherwise)
    ensures Names(others, name, id, otherwise)
  {
    MentionedByHandles(rows, others, name);
    MentionedByHandles(others, rows, name);
    if Mentioned(rows, name) {
      var e :| e in rows && e.Name() == name && IdOf(e) == id;
      var i :| 0 <= i < |rows| && rows[i] == e;
      assert others[i] in others;
    }
  }

  lemma MentionedByHandles(rows: seq<Entity>, others: seq<Entity>, name: string)
    requires SameHandles(rows, others)
    ensures Mentioned(rows, name) ==> Mentioned(others, name)
  {
    if Mentioned(rows, name) {
      var e :| e in rows && e.Name() == name;
      var i :| 0 <= i < |rows| && rows[i] == e;
      assert others[i] in others;
    }
  }

  lemma BindIsNamed(b: RawBind, clusters: seq<Entity>, servers: seq<Entity>)
    requires Tidy(clusters, ClusterKind) && Tidy(servers, ServerKind) && b.bind.None?
    ensures BindNamed(ResolveBind(b, IdMap(clusters), IdMap(servers)), clusters, servers)
  {
    MapNames(clusters, ClusterKind, b.clusterName, 0);
    MapNames(servers, ServerKind, b.serverAddr, 0);
    InMapIff(clusters, ClusterKind, b.clusterName);
    InMapIff(servers, ServerKind, b.serverAddr);
  }

  lemma InMapIff(rows: seq<Entity>, kind: Kind, name: string)
    requires Tidy(rows, kind)
    ensures name in IdMap(rows) <==> Mentioned(rows, name)
  {
    if name in IdMap(rows) {
      var i := IdMapNames(rows, name);
      assert rows[i] in rows;
    }
    if Mentioned(rows, name) {
      var e :| e in rows && e.Name() == name;
      var i :| 0 <= i < |rows| && rows[i] == e;
      IdMapFinds(rows, kind, i);
    }
  }

  // ---- Filtering keeps the order --------------------------------------------------------------

  // ys are the elements of xs at these places, which ascend.
  ghost predicate Selects<T>(xs: seq<T>, ys: seq<T>, at: seq<nat>) {
    && |at| == |ys| && (forall i, j | 0 <= i < j < |at| :: at[i] < at[j])
    && forall i | 0 <= i < |at| :: at[i] < |xs| && xs[at[i]] == ys[i]
  }

  // The places are those of the first n elements that are kept.
  ghost predicate Marks<T>(xs: seq<T>, keep: T -> bool, n: nat, at: seq<nat>)
    requires n <= |xs|
  {
    forall k: nat :: k in at <==> k < n && keep(xs[k])
  }

  lemma SelectsNext<T>(xs: seq<T>, keep: T -> bool, n: nat, ys: seq<T>, at: seq<nat>)
    requires n < |xs| && Selects(xs, ys, at) && Marks(xs, keep, n, at)
    ensures Selects(xs, ys + [xs[n]], at + [n])
  {
    assert forall i | 0 <= i < |at| :: at[i] in at;
  }

  lemma MarksNext<T>(xs: seq<T>, keep: T -> bool, n: nat, at: seq<nat>)
    requires n < |xs| && Marks(xs, keep, n, at)
    ensures Marks(xs, keep, n + 1, if keep(xs[n]) then at + [n] else at)
  {
  }

  lemma {:induction false} FilterSelects<T(!new)>(xs: seq<T>, keep: T -> bool, n: nat) returns (at: seq<nat>)
    requires n <= |xs|
    ensures Selects(xs, Filter(xs[..n], keep), at) && Marks(xs, keep, n, at)
  {
    if n == 0 {
      at := [];
    } else {
      at := FilterSelects(xs, keep, n - 1);
      FilterNext(xs, keep, n - 1);
      SelectsNext(xs, keep, n - 1, Filter(xs[..n - 1], keep), at);
      MarksNext(xs, keep, n - 1, at);
      if keep(xs[n - 1]) {
        at := at + [n - 1];
      }
    }
  }

  lemma AllSelected<T(!new)>(xs: seq<T>, keep: T -> bool) returns (at: seq<nat>)
    ensures Selects(xs, Filter(xs, keep), at)
    ensures forall k: nat | k < |xs| :: k in at <==> keep(xs[k])
  {
    at := FilterSelects(xs, keep, |xs|);
    assert xs[..|xs|] == xs;
  }

  // Of every kind exactly the objects that pass remain, where they were.
  lemma FilteredInOrder(raw: RawState, valid: Entity -> bool)
    returns (apis: seq<nat>, routings: seq<nat>, clusters: seq<nat>, servers: seq<nat>)
    ensures
      var out := Filtered(raw, valid);
      && Selects(raw.apis, out.apis, apis) && Selects(raw.routings, out.routings, routings)
      && Selects(raw.clusters, out.clusters, clusters) && Selects(raw.servers, out.servers, servers)
    ensures forall k: nat | k < |raw.apis| :: k in apis <==> valid(raw.apis[k].api)
    ensures forall k: nat | k < |raw.routings| :: k in routings <==> valid(raw.routings[k].routing)
    ensures forall k: nat | k < |raw.clusters| :: k in clusters <==> valid(raw.clusters[k])
    ensures forall k: nat | k < |raw.servers| :: k in servers <==> valid(raw.servers[k])
  {
    apis := AllSelected(raw.apis, ValidAPI(valid));
    routings := AllSelected(raw.routings, ValidRouting(valid));
    clusters := AllSelected(raw.clusters, valid);
    servers := AllSelected(raw.servers, valid);
  }

  // ---- The prepared target ----------------------------------------------------------------------

  // Every object of the prepared target but a bind passed its validator, and every
  // object that passes is in it.
  lemma PreparedIsValid(db: DB, snow: nat -> Id, raw: RawState, valid: Entity -> bool, x: Entity)
    requires Prepared(db, snow, raw, valid).Ok? && SetIDs(db, snow, raw).Ok? && !x.Bind?
    ensures
      var all := SetIDs(db, snow, raw).value;
      x in TargetRows(Prepared(db, snow, raw, valid).value) <==>
        && valid(x)
        && (x in all.servers || x in all.clusters || (exists a :: a in all.apis && a.api == x)
            || exists r :: r in all.routings && r.routing == x)
  {
    var all, out := SetIDs(db, snow, raw).value, Prepared(db, snow, raw, valid).value;
    FilteredSurvivors(all, valid);
    InRows(out, x);
  }

  lemma InRows(out: RawState, x: Entity)
    requires !x.Bind?
    ensures x in TargetRows(out) <==>
              || x in out.servers || x in out.clusters || (exists a :: a in out.apis && a.api == x)
              || exists r :: r in out.routings && r.routing == x
  {
    if a :| a in out.apis && a.api == x {
      var i :| 0 <= i < |out.apis| && out.apis[i] == a;
      assert APIsOf(out)[i] == x;
    }
    if r :| r in out.routings && r.routing == x {
      var i :| 0 <= i < |out.routings| && out.routings[i] == r;
      assert RoutingsOf(out)[i] == x;
    }
    if x in APIsOf(out) {
      var i :| 0 <= i < |out.apis| && APIsOf(out)[i] == x;
      assert out.apis[i] in out.apis;
    }
    if x in RoutingsOf(out) {
      var i :| 0 <= i < |out.routings| && RoutingsOf(out)[i] == x;
      assert out.routings[i] in out.routings;
    }
  }
}
