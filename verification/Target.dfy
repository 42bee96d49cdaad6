// From the raw target to the target state: ids taken over from the objects
// already in Manba, invalid objects dropped, and a state built from the rest.
module Target {
  import opened Entities
  import opened Store
  import opened Stable
  import opened Collections

  // ---- Rewriting objects ---------------------------------------------------------

  function WithId(e: Entity, id: Id): (r: Entity)
    ensures r.Kind() == e.Kind() && r.Name() == e.Name()
    ensures if e.Bind? then r == e else r == e.(id := id)
  {
    match e
    case Server(_, addr, config, un) => Server(id, addr, config, un)
    case Cluster(_, name, config, un) => Cluster(id, name, config, un)
    case API(_, name, nodes, config, un) => API(id, name, nodes, config, un)
    case Routing(_, name, c, a, config, un) => Routing(id, name, c, a, config, un)
    case Bind(_, _) => e
  }

  function WithNodes(e: Entity, nodes: seq<Node>): (r: Entity)
    ensures r.Kind() == e.Kind() && r.Name() == e.Name() && r.Key() == e.Key()
    ensures if e.API? then r == e.(nodes := nodes) else r == e
  {
    match e
    case API(id, name, _, config, un) => API(id, name, nodes, config, un)
    case _ => e
  }

  function WithRefs(e: Entity, cluster: Option<Id>, api: Option<Id>): (r: Entity)
    ensures r.Kind() == e.Kind() && r.Name() == e.Name() && r.Key() == e.Key()
  {
    match e
    case Routing(id, name, c, a, config, un) =>
      Routing(id, name, if cluster.Some? then cluster.value else c, if api.Some? then api.value else a, config, un)
    case _ => e
  }

  // ---- setTargetsIDs --------------------------------------------------------------

  datatype Assignment = Assignment(rows: seq<Entity>, next: nat)

  // One object: an id it has, the id of its current namesake, or a fresh one.
  // `snow(i)` is the i-th id drawn from the generator.
  function AssignOne(db: DB, snow: nat -> Id, next: nat, e: Entity): Result<(Entity, nat)> {
    if e.Bind? || e.id != 0 then Ok((e, next))
    else match Get(db, e.Kind(), e.Name())
         case Err(NotFound) => Ok((WithId(e, snow(next)), next + 1))
         case Err(why) => Err(why)
         case Ok(found) => Ok((WithId(e, if found.Bind? then 0 else found.id), next))
  }

  function AssignAll(db: DB, snow: nat -> Id, next: nat, rows: seq<Entity>): (r: Result<Assignment>)
    ensures r.Ok? ==> |r.value.rows| == |rows|
  {
    if rows == [] then Ok(Assignment([], next))
    else match AssignAll(db, snow, next, rows[..|rows| - 1])
         case Err(why) => Err(why)
         case Ok(done) =>
           match AssignOne(db, snow, done.next, rows[|rows| - 1])
           case Err(why) => Err(why)
           case Ok(step) => Ok(Assignment(done.rows + [step.0], step.1))
  }

  function IdOf(e: Entity): Id {
    if e.Bind? then 0 else e.id
  }

  // serverAddrIDsMap, clusterNameIDsMap and apiNameIDsMap.
  function IdMap(rows: seq<Entity>): map<string, Id> {
    if rows == [] then map[]
    else IdMap(rows[..|rows| - 1])[rows[|rows| - 1].Name() := IdOf(rows[|rows| - 1])]
  }

  function ResolveBind(b: RawBind, clusters: map<string, Id>, servers: map<string, Id>): RawBind {
    if b.clusterName in clusters && b.serverAddr in servers
    then b.(bind := Some(Bind(clusters[b.clusterName], servers[b.serverAddr]))) else b
  }

  // A proxy to an unknown cluster gets the map's zero value.
  function ResolveNode(p: Proxy, clusters: map<string, Id>): Node {
    p.node.(clusterID := if p.clusterName in clusters then clusters[p.clusterName] else 0)
  }

  function ResolveNodes(proxies: seq<Proxy>, clusters: map<string, Id>): seq<Node> {
    seq(|proxies|, i requires 0 <= i < |proxies| => ResolveNode(proxies[i], clusters))
  }

  function ResolveAPI(a: RawAPI, withId: Entity, clusters: map<string, Id>): RawAPI {
    a.(api := WithNodes(withId, ResolveNodes(a.proxies, clusters)))
  }

  function ResolveRouting(r: RawRouting, withId: Entity, clusters: map<string, Id>, apis: map<string, Id>): RawRouting {
    r.(routing := WithRefs(withId, Find(clusters, r.clusterName), Find(apis, r.apiName)))
  }

  function APIsOf(raw: RawState): seq<Entity> {
    seq(|raw.apis|, i requires 0 <= i < |raw.apis| => raw.apis[i].api)
  }

  function RoutingsOf(raw: RawState): seq<Entity> {
    seq(|raw.routings|, i requires 0 <= i < |raw.routings| => raw.routings[i].routing)
  }

  // The whole of setTargetsIDs: servers, clusters, binds, APIs, routings.
  function SetIDs(db: DB, snow: nat -> Id, raw: RawState): Result<RawState> {
    match AssignAll(db, snow, 0, raw.servers)
    case Err(why) => Err(why)
    case Ok(servers) =>
      match AssignAll(db, snow, servers.next, raw.clusters)
      case Err(why) => Err(why)
      case Ok(clusters) =>
        match AssignAll(db, snow, clusters.next, APIsOf(raw))
        case Err(why) => Err(why)
        case Ok(apis) =>
          match AssignAll(db, snow, apis.next, RoutingsOf(raw))
          case Err(why) => Err(why)
          case Ok(routings) =>
            Ok(Resolved(raw, servers.rows, clusters.rows, apis.rows, routings.rows))
  }

  function Resolved(raw: RawState, servers: seq<Entity>, clusters: seq<Entity>, apis: seq<Entity>,
                    routings: seq<Entity>): RawState
    requires |apis| == |raw.apis| && |routings| == |raw.routings|
  {
    var ids := IdMap(clusters);
    RawState(
      ResolveAPIs(raw.apis, apis, ids),
      servers,
      clusters,
      ResolveBinds(raw.binds, ids, IdMap(servers)),
      ResolveRoutings(raw.routings, routings, ids, IdMap(apis)))
  }

  function ResolveBinds(binds: seq<RawBind>, clusters: map<string, Id>, servers: map<string, Id>): seq<RawBind> {
    seq(|binds|, i requires 0 <= i < |binds| => ResolveBind(binds[i], clusters, servers))
  }

  function ResolveAPIs(apis: seq<RawAPI>, withIds: seq<Entity>, clusters: map<string, Id>): seq<RawAPI>
    requires |withIds| == |apis|
  {
    seq(|apis|, i requires 0 <= i < |apis| => ResolveAPI(apis[i], withIds[i], clusters))
  }

  function ResolveRoutings(routings: seq<RawRouting>, withIds: seq<Entity>, clusters: map<string, Id>,
                           apis: map<string, Id>): seq<RawRouting>
    requires |withIds| == |routings|
  {
    seq(|routings|, i requires 0 <= i < |routings| => ResolveRouting(routings[i], withIds[i], clusters, apis))
  }

  // ---- filterInvalidations ----------------------------------------------------------

  function Filter<T(!new)>(xs: seq<T>, keep: T -> bool): (ys: seq<T>)
    ensures forall y :: y in ys <==> y in xs && keep(y)
  {
    if xs == [] then []
    else
      var init, x := xs[..|xs| - 1], xs[|xs| - 1];
      assert xs == init + [x];
      Filter(init, keep) + if keep(x) then [x] else []
  }

  function IdsOf(rows: seq<Entity>): set<Id> {
    set e | e in rows :: IdOf(e)
  }

  // A bind that was never resolved has a nil message, whose ids read as zero.
  function BindIds(b: RawBind): (Id, Id) {
    if b.bind.Some? && b.bind.value.Bind? then (b.bind.value.clusterID, b.bind.value.serverID) else (0, 0)
  }

  function Filtered(raw: RawState, valid: Entity -> bool): RawState {
    var clusters := Filter(raw.clusters, valid);
    var servers := Filter(raw.servers, valid);
    RawState(
      Filter(raw.apis, ValidAPI(valid)),
      servers,
      clusters,
      Filter(raw.binds, Joins(clusters, servers)),
      Filter(raw.routings, ValidRouting(valid)))
  }

  function ValidAPI(valid: Entity -> bool): RawAPI -> bool { (a: RawAPI) => valid(a.api) }
  function ValidRouting(valid: Entity -> bool): RawRouting -> bool { (r: RawRouting) => valid(r.routing) }

  function Joins(clusters: seq<Entity>, servers: seq<Entity>): RawBind -> bool {
    (b: RawBind) => BindIds(b).1 in IdsOf(servers) && BindIds(b).0 in IdsOf(clusters)
  }

  // Whatever the validators reject, every surviving bind joins a surviving
  // cluster and a surviving server.
  lemma BindsSurviveTogether(raw: RawState, valid: Entity -> bool, b: RawBind)
    requires b in Filtered(raw, valid).binds
    ensures exists k :: k in Filtered(raw, valid).clusters && IdOf(k) == BindIds(b).0
    ensures exists s :: s in Filtered(raw, valid).servers && IdOf(s) == BindIds(b).1
  {
  }

  // One cluster and an API with a proxy to it.
  function OneProxy(api: string, cluster: string): RawState {
    RawState([RawAPI(API(0, api, [], "", ""), [Proxy(cluster, Node(0, "", ""))])], [],
             [Cluster(0, cluster, "", "")], [], [])
  }

  function NoClusters(): Entity -> bool { (e: Entity) => !e.Cluster? }

  lemma AssignSingle(snow: nat -> Id, next: nat, e: Entity)
    requires !e.Bind? && e.id == 0 && e.Name() != ""
    ensures AssignAll(EMPTY, snow, next, [e]) == Ok(Assignment([WithId(e, snow(next))], next + 1))
  {
    var rows := [e];
    assert rows[..0] == [] && rows[..1] == rows;
    AssignNext(EMPTY, snow, next, rows, 0);
    assert AssignOne(EMPTY, snow, next, e) == Ok((WithId(e, snow(next)), next + 1));
    assert AssignAll(EMPTY, snow, next, rows[..1]).value == Assignment([WithId(e, snow(next))], next + 1);
  }

  // APIs are not filtered that way: rejecting a cluster leaves the nodes that
  // setTargetsIDs had pointed at it.
  lemma NodesMayDangle(snow: nat -> Id, api: string, cluster: string)
    requires api != "" && cluster != ""
    ensures SetIDs(EMPTY, snow, OneProxy(api, cluster)).Ok?
    ensures
      var all := SetIDs(EMPTY, snow, OneProxy(api, cluster)).value;
      && IdsOf(all.clusters) == {snow(0)} && Filtered(all, NoClusters()).clusters == []
      && |Filtered(all, NoClusters()).apis| == 1
      && Filtered(all, NoClusters()).apis[0].api == API(snow(1), api, [Node(snow(0), "", "")], "", "")
  {
    var raw := OneProxy(api, cluster);
    var k, a := Cluster(snow(0), cluster, "", ""), API(snow(1), api, [], "", "");
    AssignSingle(snow, 0, raw.clusters[0]);
    assert APIsOf(raw) == [raw.apis[0].api] && RoutingsOf(raw) == [];
    AssignSingle(snow, 1, raw.apis[0].api);
    var all := SetIDs(EMPTY, snow, raw).value;
    OneResolved(raw, k, a, snow(0));
    KeepOne(all.clusters[0], NoClusters());
    KeepOne(all.apis[0], ValidAPI(NoClusters()));
    assert all.clusters == [k] && all.apis == [all.apis[0]];
  }

  lemma KeepOne<T(!new)>(x: T, keep: T -> bool)
    ensures Filter([x], keep) == if keep(x) then [x] else []
  {
    assert [x][..0] == [];
    assert Filter([x][..0], keep) == [];
  }

  lemma OneResolved(raw: RawState, k: Entity, a: Entity, id: Id)
    requires |raw.apis| == 1 && |raw.apis[0].proxies| == 1 && raw.routings == [] && a.API?
    requires k.Cluster? && k.id == id && raw.apis[0].proxies[0] == Proxy(k.name, Node(0, "", ""))
    ensures
      var all := Resolved(raw, [], [k], [a], []);
      all.clusters == [k] && |all.apis| == 1
      && all.apis[0].api == API(a.id, a.name, [Node(id, "", "")], a.config, a.unrecognized)
  {
    assert [k][..0] == [];
    assert IdMap([k]) == map[k.name := id];
    assert ResolveNodes(raw.apis[0].proxies, IdMap([k])) == [Node(id, "", "")];
  }

  // ---- state.Get on the target ---------------------------------------------------------

  function BindsOfRaw(raw: RawState): seq<Entity> {
    seq(|raw.binds|, i requires 0 <= i < |raw.binds| => Bind(BindIds(raw.binds[i]).0, BindIds(raw.binds[i]).1))
  }

  function TargetRows(raw: RawState): seq<Entity> {
    APIsOf(raw) + RoutingsOf(raw) + raw.clusters + raw.servers + BindsOfRaw(raw)
  }

  // ---- setTargetsIDs touches ids only ----------------------------------------------------

  // The object itself, but for the id it had not.
  ghost predicate IdSet(before: Entity, after: Entity) {
    if before.Bind? || before.id != 0 then after == before
    else !after.Bind? && after == before.(id := after.id)
  }

  ghost predicate IdsSet(before: seq<Entity>, after: seq<Entity>) {
    |after| == |before| && forall i | 0 <= i < |before| :: IdSet(before[i], after[i])
  }

  lemma AssignOneSets(db: DB, snow: nat -> Id, next: nat, e: Entity)
    requires AssignOne(db, snow, next, e).Ok?
    ensures IdSet(e, AssignOne(db, snow, next, e).value.0)
  {
  }

  lemma {:induction false} AssignSets(db: DB, snow: nat -> Id, next: nat, rows: seq<Entity>)
    requires AssignAll(db, snow, next, rows).Ok?
    ensures IdsSet(rows, AssignAll(db, snow, next, rows).value.rows)
  {
    if rows != [] {
      var init, e := rows[..|rows| - 1], rows[|rows| - 1];
      AssignSets(db, snow, next, init);
      AssignOneSets(db, snow, AssignAll(db, snow, next, init).value.next, e);
    }
  }

  // One node for each proxy, the proxy's own but for the id of its cluster.
  ghost predicate NodesFrom(proxies: seq<Proxy>, nodes: seq<Node>) {
    && |nodes| == |proxies|
    && forall j | 0 <= j < |proxies| ::
         nodes[j].options == proxies[j].node.options && nodes[j].unrecognized == proxies[j].node.unrecognized
  }

  ghost predicate APISet(before: RawAPI, after: RawAPI) {
    && after.proxies == before.proxies
    && (before.api.API? ==>
          && after.api.API? && after.api.name == before.api.name && after.api.config == before.api.config
          && after.api.unrecognized == before.api.unrecognized && NodesFrom(before.proxies, after.api.nodes)
          && (before.api.id != 0 ==> after.api.id == before.api.id))
  }

  ghost predicate RoutingSet(before: RawRouting, after: RawRouting) {
    && after.apiName == before.apiName && after.clusterName == before.clusterName
    && (before.routing.Routing? ==>
          && after.routing.Routing? && after.routing.name == before.routing.name
          && after.routing.config == before.routing.config
          && after.routing.unrecognized == before.routing.unrecognized
          && (before.routing.id != 0 ==> after.routing.id == before.routing.id))
  }

  // Nothing is added, dropped or moved, and no field changes but ids and nodes.
  ghost predicate OnlyIdsSet(raw: RawState, out: RawState) {
    && IdsSet(raw.servers, out.servers) && IdsSet(raw.clusters, out.clusters)
    && |out.apis| == |raw.apis| && (forall i | 0 <= i < |raw.apis| :: APISet(raw.apis[i], out.apis[i]))
    && |out.routings| == |raw.routings|
    && (forall i | 0 <= i < |raw.routings| :: RoutingSet(raw.routings[i], out.routings[i]))
    && |out.binds| == |raw.binds|
    && forall i | 0 <= i < |raw.binds| ::
         out.binds[i].clusterName == raw.binds[i].clusterName && out.binds[i].serverAddr == raw.binds[i].serverAddr
  }

  lemma SetIDsSetsOnlyIds(db: DB, snow: nat -> Id, raw: RawState)
    requires SetIDs(db, snow, raw).Ok?
    ensures OnlyIdsSet(raw, SetIDs(db, snow, raw).value)
  {
    var servers := AssignAll(db, snow, 0, raw.servers).value;
    var clusters := AssignAll(db, snow, servers.next, raw.clusters).value;
    var apis := AssignAll(db, snow, clusters.next, APIsOf(raw)).value;
    var routings := AssignAll(db, snow, apis.next, RoutingsOf(raw)).value;
    AssignSets(db, snow, 0, raw.servers);
    AssignSets(db, snow, servers.next, raw.clusters);
    AssignSets(db, snow, clusters.next, APIsOf(raw));
    AssignSets(db, snow, apis.next, RoutingsOf(raw));
    ResolvedSetsOnlyIds(raw, servers.rows, clusters.rows, apis.rows, routings.rows);
  }

  lemma ResolvedSetsOnlyIds(raw: RawState, servers: seq<Entity>, clusters: seq<Entity>, apis: seq<Entity>,
                            routings: seq<Entity>)
    requires IdsSet(raw.servers, servers) && IdsSet(raw.clusters, clusters)
    requires IdsSet(APIsOf(raw), apis) && IdsSet(RoutingsOf(raw), routings)
    ensures OnlyIdsSet(raw, Resolved(raw, servers, clusters, apis, routings))
  {
    forall i | 0 <= i < |raw.apis|
      ensures APISet(raw.apis[i], ResolveAPI(raw.apis[i], apis[i], IdMap(clusters)))
    {
      assert APIsOf(raw)[i] == raw.apis[i].api;
      ResolvedAPISet(raw.apis[i], apis[i], IdMap(clusters));
    }
    forall i | 0 <= i < |raw.routings|
      ensures RoutingSet(raw.routings[i], ResolveRouting(raw.routings[i], routings[i], IdMap(clusters), IdMap(apis)))
    {
      assert RoutingsOf(raw)[i] == raw.routings[i].routing;
      ResolvedRoutingSet(raw.routings[i], routings[i], IdMap(clusters), IdMap(apis));
    }
  }

  lemma ResolvedAPISet(a: RawAPI, withId: Entity, clusters: map<string, Id>)
    requires IdSet(a.api, withId)
    ensures APISet(a, ResolveAPI(a, withId, clusters))
  {
  }

  lemma ResolvedRoutingSet(r: RawRouting, withId: Entity, clusters: map<string, Id>, apis: map<string, Id>)
    requires IdSet(r.routing, withId)
    ensures RoutingSet(r, ResolveRouting(r, withId, clusters, apis))
  {
  }

  // ---- The loops -------------------------------------------------------------------------

  method AssignID(state: StateDB, snow: nat -> Id, next: nat, e: Entity) returns (r: Result<(Entity, nat)>)
    ensures r == AssignOne(state.Value(), snow, next, e)
    ensures r.Ok? ==> IdSet(e, r.value.0)
  {
    if e.Bind? || e.id != 0 {
      return Ok((e, next));
    }
    var found := state.Get(e.Kind(), e.Name());
    if found.Err? && found.error == NotFound {
      r := Ok((WithId(e, snow(next)), next + 1));
    } else if found.Err? {
      r := Err(found.error);
    } else {
      r := Ok((WithId(e, IdOf(found.value)), next));
    }
  }

  method AssignIDs(state: StateDB, snow: nat -> Id, next: nat, rows: seq<Entity>)
    returns (r: Result<Assignment>, ids: map<string, Id>)
    ensures r == AssignAll(state.Value(), snow, next, rows)
    ensures r.Ok? ==> ids == IdMap(r.value.rows) && IdsSet(rows, r.value.rows)
  {
    ghost var db := state.Value();
    var done := Assignment([], next);
    ids := map[];
    for i := 0 to |rows|
      invariant AssignAll(db, snow, next, rows[..i]) == Ok(done)
      invariant ids == IdMap(done.rows)
    {
      var step := AssignID(state, snow, done.next, rows[i]);
      AssignNext(db, snow, next, rows, i);
      if step.Err? {
        AssignErrorStays(db, snow, next, rows, i + 1);
        r := Err(step.error);
        return;
      }
      IdMapAppend(done.rows, step.value.0);
      ids := ids[step.value.0.Name() := IdOf(step.value.0)];
      done := Assignment(done.rows + [step.value.0], step.value.1);
    }
    assert rows[..|rows|] == rows;
    AssignSets(db, snow, next, rows);
    r := Ok(done);
  }

  lemma IdMapAppend(rows: seq<Entity>, e: Entity)
    ensures IdMap(rows + [e]) == IdMap(rows)[e.Name() := IdOf(e)]
  {
  }

  lemma AssignNext(db: DB, snow: nat -> Id, next: nat, rows: seq<Entity>, i: nat)
    requires i < |rows| && AssignAll(db, snow, next, rows[..i]).Ok?
    ensures AssignAll(db, snow, next, rows[..i + 1])
         == var done := AssignAll(db, snow, next, rows[..i]).value;
            match AssignOne(db, snow, done.next, rows[i])
            case Err(why) => Err(why)
            case Ok(step) => Ok(Assignment(done.rows + [step.0], step.1))
  {
    assert rows[..i + 1][..i] == rows[..i];
  }

  lemma {:induction false} AssignErrorStays(db: DB, snow: nat -> Id, next: nat, rows: seq<Entity>, n: nat)
    requires n <= |rows| && AssignAll(db, snow, next, rows[..n]).Err?
    ensures AssignAll(db, snow, next, rows) == AssignAll(db, snow, next, rows[..n])
  {
    if n == |rows| {
      assert rows[..n] == rows;
    } else {
      assert rows[..|rows| - 1][..n] == rows[..n];
      AssignErrorStays(db, snow, next, rows[..|rows| - 1], n);
    }
  }

  method FillBinds(raw: seq<RawBind>, clusterIDs: map<string, Id>, serverIDs: map<string, Id>)
    returns (binds: seq<RawBind>)
    ensures binds == ResolveBinds(raw, clusterIDs, serverIDs)
  {
    binds := [];
    for i := 0 to |raw|
      invariant binds == ResolveBinds(raw, clusterIDs, serverIDs)[..i]
    {
      var b := raw[i];
      if b.clusterName in clusterIDs && b.serverAddr in serverIDs {
        b := b.(bind := Some(Bind(clusterIDs[b.clusterName], serverIDs[b.serverAddr])));
      }
      binds := binds + [b];
    }
  }

  method FillAPIs(raw: seq<RawAPI>, withIds: seq<Entity>, clusterIDs: map<string, Id>) returns (apis: seq<RawAPI>)
    requires |withIds| == |raw|
    ensures apis == ResolveAPIs(raw, withIds, clusterIDs)
    ensures forall i | 0 <= i < |raw| && IdSet(raw[i].api, withIds[i]) :: APISet(raw[i], apis[i])
  {
    apis := [];
    for i := 0 to |raw|
      invariant apis == ResolveAPIs(raw, withIds, clusterIDs)[..i]
    {
      var nodes: seq<Node> := [];
      for j := 0 to |raw[i].proxies|
        invariant nodes == ResolveNodes(raw[i].proxies, clusterIDs)[..j]
      {
        nodes := nodes + [ResolveNode(raw[i].proxies[j], clusterIDs)];
      }
      assert nodes == ResolveNodes(raw[i].proxies, clusterIDs);
      apis := apis + [raw[i].(api := WithNodes(withIds[i], nodes))];
    }
    forall i | 0 <= i < |raw| && IdSet(raw[i].api, withIds[i])
      ensures APISet(raw[i], apis[i])
    {
      ResolvedAPISet(raw[i], withIds[i], clusterIDs);
    }
  }

  // The routing keeps its id, name and settings, and points at the cluster and
  // the API it names wherever these are known.
  ghost predicate Points(r: RawRouting, withId: Entity, clusterIDs: map<string, Id>, apiIDs: map<string, Id>) {
    && r.routing.Kind() == withId.Kind() && r.routing.Name() == withId.Name() && r.routing.Key() == withId.Key()
    && (withId.Routing? ==>
          && r.routing.config == withId.config && r.routing.unrecognized == withId.unrecognized
          && r.routing.clusterID
             == (if r.clusterName in clusterIDs then clusterIDs[r.clusterName] else withId.clusterID)
          && r.routing.apiID == (if r.apiName in apiIDs then apiIDs[r.apiName] else withId.apiID))
  }

  method FillRoutings(raw: seq<RawRouting>, withIds: seq<Entity>, clusterIDs: map<string, Id>,
                      apiIDs: map<string, Id>) returns (routings: seq<RawRouting>)
    requires |withIds| == |raw|
    ensures |routings| == |raw| && forall i | 0 <= i < |raw| ::
              && routings[i].clusterName == raw[i].clusterName && routings[i].apiName == raw[i].apiName
              && Points(routings[i], withIds[i], clusterIDs, apiIDs)
    ensures routings == ResolveRoutings(raw, withIds, clusterIDs, apiIDs)
  {
    routings := [];
    ghost var all := ResolveRoutings(raw, withIds, clusterIDs, apiIDs);
    for i := 0 to |raw|
      invariant routings == all[..i]
    {
      var routing := FillRouting(raw[i], withIds[i], clusterIDs, apiIDs);
      routings := routings + [raw[i].(routing := routing)];
    }
    forall i | 0 <= i < |raw|
      ensures Points(all[i], withIds[i], clusterIDs, apiIDs)
    {
      ResolvedPoints(raw[i], withIds[i], clusterIDs, apiIDs);
    }
  }

  lemma ResolvedPoints(r: RawRouting, withId: Entity, clusterIDs: map<string, Id>, apiIDs: map<string, Id>)
    ensures Points(ResolveRouting(r, withId, clusterIDs, apiIDs), withId, clusterIDs, apiIDs)
  {
  }

  method FillRouting(r: RawRouting, withId: Entity, clusterIDs: map<string, Id>, apiIDs: map<string, Id>)
    returns (routing: Entity)
    ensures r.(routing := routing) == ResolveRouting(r, withId, clusterIDs, apiIDs)
  {
    routing := withId;
    if routing.Routing? {
      var cluster, api := routing.clusterID, routing.apiID;
      if r.clusterName in clusterIDs {
        cluster := clusterIDs[r.clusterName];
      }
      if r.apiName in apiIDs {
        api := apiIDs[r.apiName];
      }
      routing := Routing(routing.id, routing.name, cluster, api, routing.config, routing.unrecognized);
    }
  }

  method SetTargetsIDs(state: StateDB, snow: nat -> Id, raw: RawState) returns (r: Result<RawState>)
    ensures r == SetIDs(state.Value(), snow, raw)
    ensures r.Ok? ==> OnlyIdsSet(raw, r.value)
  {
    var servers, serverIDs := AssignIDs(state, snow, 0, raw.servers);
    if servers.Err? { return Err(servers.error); }
    var clusters, clusterIDs := AssignIDs(state, snow, servers.value.next, raw.clusters);
    if clusters.Err? { return Err(clusters.error); }
    var binds := FillBinds(raw.binds, clusterIDs, serverIDs);
    var apis, apiIDs := AssignIDs(state, snow, clusters.value.next, APIsOf(raw));
    if apis.Err? { return Err(apis.error); }
    var filledAPIs := FillAPIs(raw.apis, apis.value.rows, clusterIDs);
    var routings, _ := AssignIDs(state, snow, apis.value.next, RoutingsOf(raw));
    if routings.Err? { return Err(routings.error); }
    var filledRoutings := FillRoutings(raw.routings, routings.value.rows, clusterIDs, apiIDs);
    r := Ok(RawState(filledAPIs, servers.value.rows, clusters.value.rows, binds, filledRoutings));
    SetIDsSetsOnlyIds(state.Value(), snow, raw);
  }

  lemma FilterNext<T(!new)>(xs: seq<T>, keep: T -> bool, i: nat)
    requires i < |xs|
    ensures Filter(xs[..i + 1], keep) == Filter(xs[..i], keep) + if keep(xs[i]) then [xs[i]] else []
  {
    assert xs[..i + 1][..i] == xs[..i];
  }

  method KeepValid(rows: seq<Entity>, valid: Entity -> bool) returns (kept: seq<Entity>, ids: set<Id>)
    ensures kept == Filter(rows, valid) && ids == IdsOf(kept)
  {
    kept, ids := [], {};
    for i := 0 to |rows|
      invariant kept == Filter(rows[..i], valid) && ids == IdsOf(kept)
    {
      FilterNext(rows, valid, i);
      if valid(rows[i]) {
        kept, ids := kept + [rows[i]], ids + {IdOf(rows[i])};
      }
    }
    assert rows[..|rows|] == rows;
  }

  // What survives: every object that passes its validator, and every bind
  // between two objects that do.
  ghost predicate Survivors(raw: RawState, r: RawState, valid: Entity -> bool) {
    && (forall x :: x in r.clusters <==> x in raw.clusters && valid(x))
    && (forall x :: x in r.servers <==> x in raw.servers && valid(x))
    && (forall a :: a in r.apis <==> a in raw.apis && valid(a.api))
    && (forall g :: g in r.routings <==> g in raw.routings && valid(g.routing))
    && (forall b :: b in r.binds <==> b in raw.binds && Passes(raw.clusters, valid, BindIds(b).0)
                                      && Passes(raw.servers, valid, BindIds(b).1))
  }

  ghost predicate Passes(rows: seq<Entity>, valid: Entity -> bool, id: Id) {
    exists x :: x in rows && valid(x) && IdOf(x) == id
  }

  lemma FilteredSurvivors(raw: RawState, valid: Entity -> bool)
    ensures Survivors(raw, Filtered(raw, valid), valid)
  {
  }

  method FilterInvalidations(raw: RawState, valid: Entity -> bool) returns (r: RawState)
    ensures Survivors(raw, r, valid)
    ensures r == Filtered(raw, valid)
  {
    FilteredSurvivors(raw, valid);
    var clusters, validClusters := KeepValid(raw.clusters, valid);
    var servers, validServers := KeepValid(raw.servers, valid);

    ghost var joins := Joins(clusters, servers);
    var binds: seq<RawBind> := [];
    for i := 0 to |raw.binds|
      invariant binds == Filter(raw.binds[..i], joins)
    {
      FilterNext(raw.binds, joins, i);
      if BindIds(raw.binds[i]).1 in validServers && BindIds(raw.binds[i]).0 in validClusters {
        binds := binds + [raw.binds[i]];
      }
    }
    assert raw.binds[..|raw.binds|] == raw.binds;

    var apis: seq<RawAPI> := [];
    for i := 0 to |raw.apis|
      invariant apis == Filter(raw.apis[..i], ValidAPI(valid))
    {
      FilterNext(raw.apis, ValidAPI(valid), i);
      if valid(raw.apis[i].api) {
        apis := apis + [raw.apis[i]];
      }
    }
    assert raw.apis[..|raw.apis|] == raw.apis;

    var routings: seq<RawRouting> := [];
    for i := 0 to |raw.routings|
      invariant routings == Filter(raw.routings[..i], ValidRouting(valid))
    {
      FilterNext(raw.routings, ValidRouting(valid), i);
      if valid(raw.routings[i].routing) {
        routings := routings + [raw.routings[i]];
      }
    }
    assert raw.routings[..|raw.routings|] == raw.routings;
    r := RawState(apis, servers, clusters, binds, routings);
  }
}
