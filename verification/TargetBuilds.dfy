// When a state can be built from the resolved target, and that the sync engine
// then brings the gateway to it.
module TargetBuilds {
  import opened Entities
  import opened Store
  import opened Stable
  import opened Collections
  import opened Target
  import opened TargetLaws
  import Sync
  import SyncPlan
  import SyncContent

  // ---- The name-to-id maps ---------------------------------------------------------

  // One kind, distinct names, distinct nonzero ids.
  ghost predicate Tidy(rows: seq<Entity>, kind: Kind) {
    && kind != BindKind
    && (forall i | 0 <= i < |rows| :: rows[i].Kind() == kind && rows[i].id != 0)
    && (forall i, j | 0 <= i < j < |rows| :: rows[i].Name() != rows[j].Name())
    && (forall i, j | 0 <= i < j < |rows| :: rows[i].id != rows[j].id)
  }

  lemma AssignTidy(db: DB, snow: nat -> Id, next: nat, rows: seq<Entity>, kind: Kind, n: nat)
    requires Ordinary(db) && Fresh(db, snow, n) && next + |rows| <= n && Plain(rows, kind)
    ensures AssignAll(db, snow, next, rows).Ok? && AssignAll(db, snow, next, rows).value.next <= next + |rows|
    ensures Tidy(AssignAll(db, snow, next, rows).value.rows, kind)
  {
    AssignResolves(db, snow, next, rows, kind);
    AssignDistinct(db, snow, next, rows, kind);
    var done := AssignAll(db, snow, next, rows).value;
    forall i | 0 <= i < |rows|
      ensures done.rows[i].Kind() == kind && done.rows[i].id != 0 && done.rows[i].Name() == rows[i].Name()
    {
      assert Resolves(db, snow, next, done.next, rows[i], done.rows[i]);
      ResolvedFits(db, snow, next, done.next, rows[i], done.rows[i]);
    }
  }

  lemma {:induction false} IdMapFinds(rows: seq<Entity>, kind: Kind, i: nat)
    requires Tidy(rows, kind) && i < |rows|
    ensures Find(IdMap(rows), rows[i].Name()) == Some(rows[i].id)
  {
    var init := rows[..|rows| - 1];
    if i < |init| {
      TidyPrefix(rows, kind);
      IdMapFinds(init, kind, i);
      assert init[i] == rows[i] && rows[i].Name() != rows[|init|].Name();
    }
  }

  lemma TidyPrefix(rows: seq<Entity>, kind: Kind)
    requires Tidy(rows, kind) && rows != []
    ensures Tidy(rows[..|rows| - 1], kind)
  {
  }

  lemma {:induction false} IdMapNames(rows: seq<Entity>, name: string) returns (i: nat)
    requires name in IdMap(rows)
    ensures i < |rows| && rows[i].Name() == name
  {
    i := |rows| - 1;
    if name != rows[i].Name() {
      i := IdMapNames(rows[..i], name);
    }
  }

  lemma IdMapInjective(rows: seq<Entity>, kind: Kind, a: string, b: string)
    requires Tidy(rows, kind) && a in IdMap(rows) && b in IdMap(rows)
    ensures IdMap(rows)[a] != 0
    ensures IdMap(rows)[a] == IdMap(rows)[b] <==> a == b
  {
    var i := IdMapNames(rows, a);
    var j := IdMapNames(rows, b);
    IdMapFinds(rows, kind, i);
    IdMapFinds(rows, kind, j);
  }

  // ---- Binds that survive ----------------------------------------------------------------

  ghost predicate Mentioned(rows: seq<Entity>, name: string) {
    exists e :: e in rows && e.Name() == name
  }

  lemma IdListed(rows: seq<Entity>, kind: Kind, valid: Entity -> bool, name: string)
    requires Tidy(rows, kind)
    ensures name in IdMap(rows) && IdMap(rows)[name] in IdsOf(Filter(rows, valid)) <==>
              Mentioned(Filter(rows, valid), name)
  {
    if name in IdMap(rows) && IdMap(rows)[name] in IdsOf(Filter(rows, valid)) {
      var e :| e in Filter(rows, valid) && IdOf(e) == IdMap(rows)[name];
      var k :| 0 <= k < |rows| && rows[k] == e;
      IdMapFinds(rows, kind, k);
      IdMapInjective(rows, kind, name, e.Name());
    }
    if Mentioned(Filter(rows, valid), name) {
      var e :| e in Filter(rows, valid) && e.Name() == name;
      var k :| 0 <= k < |rows| && rows[k] == e;
      IdMapFinds(rows, kind, k);
      assert IdOf(e) in IdsOf(Filter(rows, valid));
    }
  }

  lemma NoZeroId(rows: seq<Entity>, kind: Kind, valid: Entity -> bool)
    requires Tidy(rows, kind)
    ensures 0 !in IdsOf(Filter(rows, valid))
  {
  }

  // A bind is kept exactly when the cluster and the server it names are kept.
  lemma BindKeptIff(b: RawBind, clusters: seq<Entity>, servers: seq<Entity>, valid: Entity -> bool)
    requires Tidy(clusters, ClusterKind) && Tidy(servers, ServerKind) && b.bind.None?
    ensures Joins(Filter(clusters, valid), Filter(servers, valid))(ResolveBind(b, IdMap(clusters), IdMap(servers)))
       <==> Mentioned(Filter(clusters, valid), b.clusterName) && Mentioned(Filter(servers, valid), b.serverAddr)
  {
    NoZeroId(clusters, ClusterKind, valid);
    IdListed(clusters, ClusterKind, valid, b.clusterName);
    IdListed(servers, ServerKind, valid, b.serverAddr);
  }

  // The ids of a kept bind are those of the objects it names.
  ghost predicate Pointed(b: RawBind, clusters: map<string, Id>, servers: map<string, Id>) {
    && b.clusterName in clusters && b.serverAddr in servers
    && BindIds(b) == (clusters[b.clusterName], servers[b.serverAddr])
  }

  lemma KeptPointed(raw: RawState, clusters: seq<Entity>, servers: seq<Entity>, valid: Entity -> bool, b: RawBind)
    requires Tidy(clusters, ClusterKind) && Tidy(servers, ServerKind)
    requires forall b | b in raw.binds :: b.bind.None?
    requires b in Filter(ResolveBinds(raw.binds, IdMap(clusters), IdMap(servers)),
                         Joins(Filter(clusters, valid), Filter(servers, valid)))
    ensures Pointed(b, IdMap(clusters), IdMap(servers))
  {
    NoZeroId(clusters, ClusterKind, valid);
    var all := ResolveBinds(raw.binds, IdMap(clusters), IdMap(servers));
    var k :| 0 <= k < |all| && all[k] == b;
    assert raw.binds[k] in raw.binds;
  }

  ghost predicate DistinctPairs(binds: seq<RawBind>) {
    forall i, j | 0 <= i < j < |binds| ::
      (binds[i].clusterName, binds[i].serverAddr) != (binds[j].clusterName, binds[j].serverAddr)
  }

  // Two kept binds have the same row exactly when they name the same pair.
  lemma SameRowSamePair(b: RawBind, d: RawBind, clusters: seq<Entity>, servers: seq<Entity>)
    requires Tidy(clusters, ClusterKind) && Tidy(servers, ServerKind)
    requires Pointed(b, IdMap(clusters), IdMap(servers)) && Pointed(d, IdMap(clusters), IdMap(servers))
    ensures BindIds(b).0 != 0 && BindIds(b).1 != 0
    ensures BindText(BindIds(b).0, BindIds(b).1) == BindText(BindIds(d).0, BindIds(d).1)
       <==> b.clusterName == d.clusterName && b.serverAddr == d.serverAddr
  {
    IdMapInjective(clusters, ClusterKind, b.clusterName, d.clusterName);
    IdMapInjective(servers, ServerKind, b.serverAddr, d.serverAddr);
    if BindText(BindIds(b).0, BindIds(b).1) == BindText(BindIds(d).0, BindIds(d).1) {
      BindTextInjective(BindIds(b).0, BindIds(b).1, BindIds(d).0, BindIds(d).1);
    }
  }

  lemma BindsSound(db: DB, raw: RawState, clusters: seq<Entity>, servers: seq<Entity>)
    requires Tidy(clusters, ClusterKind) && Tidy(servers, ServerKind)
    requires forall b | b in raw.binds :: Pointed(b, IdMap(clusters), IdMap(servers))
    requires Coherent(db)
    ensures forall i | 0 <= i < |raw.binds| :: BindsOfRaw(raw)[i].HasId()
    ensures DistinctPairs(raw.binds) ==> Sound(db, BindsOfRaw(raw))
    ensures !DistinctPairs(raw.binds) ==>
              exists i, j :: 0 <= i < j < |raw.binds| && Clash(BindsOfRaw(raw)[i], BindsOfRaw(raw)[j])
  {
    var rows := BindsOfRaw(raw);
    forall i | 0 <= i < |rows|
      ensures rows[i].HasId() && Fits(db, rows[i]) && rows[i].Addressable()
    {
      assert raw.binds[i] in raw.binds;
      SameRowSamePair(raw.binds[i], raw.binds[i], clusters, servers);
      BindFits(db, rows[i]);
    }
    forall i, j | 0 <= i < j < |rows|
      ensures Clash(rows[i], rows[j]) <==>
                && raw.binds[i].clusterName == raw.binds[j].clusterName
                && raw.binds[i].serverAddr == raw.binds[j].serverAddr
      ensures !Clash(rows[i], rows[j]) ==> Apart(rows[i], rows[j]) && rows[i].Row() != rows[j].Row()
    {
      assert raw.binds[i] in raw.binds && raw.binds[j] in raw.binds;
      SameRowSamePair(raw.binds[i], raw.binds[j], clusters, servers);
    }
  }

  lemma BindFits(db: DB, b: Entity)
    requires Coherent(db) && b.Bind?
    ensures Fits(db, b)
  {
  }

  // ---- All kinds together ------------------------------------------------------------------

  lemma SoundConcat(db: DB, xs: seq<Entity>, ys: seq<Entity>)
    requires Sound(db, xs) && Sound(db, ys)
    requires forall i, j | 0 <= i < |xs| && 0 <= j < |ys| :: xs[i].Kind() != ys[j].Kind()
    ensures Sound(db, xs + ys)
  {
  }

  ghost predicate AllOf(rows: seq<Entity>, kind: Kind) {
    forall i | 0 <= i < |rows| :: rows[i].Kind() == kind
  }

  ghost predicate Sorted(raw: RawState) {
    && AllOf(APIsOf(raw), APIKind) && AllOf(RoutingsOf(raw), RoutingKind)
    && AllOf(raw.clusters, ClusterKind) && AllOf(raw.servers, ServerKind)
  }

  lemma RowsSound(db: DB, raw: RawState)
    requires Sorted(raw)
    requires Sound(db, APIsOf(raw)) && Sound(db, RoutingsOf(raw)) && Sound(db, raw.clusters) && Sound(db, raw.servers)
    requires Sound(db, BindsOfRaw(raw))
    ensures Sound(db, TargetRows(raw))
  {
    SoundConcat(db, APIsOf(raw), RoutingsOf(raw));
    SoundConcat(db, APIsOf(raw) + RoutingsOf(raw), raw.clusters);
    SoundConcat(db, APIsOf(raw) + RoutingsOf(raw) + raw.clusters, raw.servers);
    SoundConcat(db, APIsOf(raw) + RoutingsOf(raw) + raw.clusters + raw.servers, BindsOfRaw(raw));
  }

  // A state built from sound rows is a fit partner for the current one.
  lemma SoundIsWellFormed(db: DB, rows: seq<Entity>, n: nat)
    requires Ordinary(db) && Sound(db, rows)
    ensures AddAll(EMPTY, rows).Ok? && Holds(AddAll(EMPTY, rows).value.ids, rows)
    ensures SyncPlan.WellFormed(Sync.Config(db, AddAll(EMPTY, rows).value, n))
  {
    BuildCoherent(rows);
    var target := AddAll(EMPTY, rows).value;
    var c := Sync.Config(db, target, n);
    forall r | r in target.ids
      ensures Fits(db, target.ids[r]) && target.ids[r].Addressable()
    {
      var i :| 0 <= i < |rows| && rows[i] == target.ids[r];
    }
    forall x, y | SyncPlan.Known(c, x) && SyncPlan.Known(c, y)
      ensures Apart(x, y)
    {
      KnownApart(db, target, x, y);
    }
  }

  lemma KnownApart(db: DB, target: DB, x: Entity, y: Entity)
    requires Coherent(db) && Coherent(target) && forall r | r in target.ids :: Fits(db, target.ids[r])
    requires Find(db.ids, x.Row()) == Some(x) || Find(target.ids, x.Row()) == Some(x)
    requires Find(db.ids, y.Row()) == Some(y) || Find(target.ids, y.Row()) == Some(y)
    ensures Apart(x, y)
  {
  }

  // What onUpdate hands to state.Get: resolved, then filtered.
  function Prepared(db: DB, snow: nat -> Id, raw: RawState, valid: Entity -> bool): Result<RawState> {
    match SetIDs(db, snow, raw)
    case Err(why) => Err(why)
    case Ok(out) => Ok(Filtered(out, valid))
  }

  // Facts about the prepared target that hold whether or not it builds.
  lemma PreparedFacts(db: DB, snow: nat -> Id, raw: RawState, valid: Entity -> bool)
    returns (clusters: seq<Entity>, servers: seq<Entity>)
    requires Ordinary(db) && Fresh(db, snow, Draws(raw)) && Presentable(raw)
    ensures Prepared(db, snow, raw, valid).Ok?
    ensures Tidy(clusters, ClusterKind) && Tidy(servers, ServerKind)
    ensures
      var out := Prepared(db, snow, raw, valid).value;
      && Sorted(out)
      && Sound(db, APIsOf(out)) && Sound(db, RoutingsOf(out)) && Sound(db, out.clusters) && Sound(db, out.servers)
      && (forall b | b in out.binds :: Pointed(b, IdMap(clusters), IdMap(servers)))
  {
    ResolvedSound(db, snow, raw);
    var all := SetIDs(db, snow, raw).value;
    FilteredSound(db, all, valid);
    clusters, servers := all.clusters, all.servers;
    ResolvedTidy(db, snow, raw);
    var out := Filtered(all, valid);
    SortedStays(all, valid);
    forall b | b in out.binds
      ensures Pointed(b, IdMap(clusters), IdMap(servers))
    {
      KeptPointed(raw, clusters, servers, valid, b);
    }
  }

  lemma ResolvedTidy(db: DB, snow: nat -> Id, raw: RawState)
    requires Ordinary(db) && Fresh(db, snow, Draws(raw)) && Presentable(raw) && SetIDs(db, snow, raw).Ok?
    ensures
      var out := SetIDs(db, snow, raw).value;
      && Tidy(out.clusters, ClusterKind) && Tidy(out.servers, ServerKind) && Sorted(out)
      && out.binds == ResolveBinds(raw.binds, IdMap(out.clusters), IdMap(out.servers))
  {
    AssignTidy(db, snow, 0, raw.servers, ServerKind, Draws(raw));
    var servers := AssignAll(db, snow, 0, raw.servers).value;
    AssignTidy(db, snow, servers.next, raw.clusters, ClusterKind, Draws(raw));
    var clusters := AssignAll(db, snow, servers.next, raw.clusters).value;
    AssignTidy(db, snow, clusters.next, APIsOf(raw), APIKind, Draws(raw));
    var apis := AssignAll(db, snow, clusters.next, APIsOf(raw)).value;
    AssignTidy(db, snow, apis.next, RoutingsOf(raw), RoutingKind, Draws(raw));
    var routings := AssignAll(db, snow, apis.next, RoutingsOf(raw)).value;
    ResolvedKinds(raw, servers.rows, clusters.rows, apis.rows, routings.rows);
  }

  lemma ResolvedKinds(raw: RawState, servers: seq<Entity>, clusters: seq<Entity>, apis: seq<Entity>,
                      routings: seq<Entity>)
    requires Tidy(servers, ServerKind) && Tidy(clusters, ClusterKind) && Tidy(apis, APIKind)
    requires Tidy(routings, RoutingKind) && |apis| == |raw.apis| && |routings| == |raw.routings|
    ensures Sorted(Resolved(raw, servers, clusters, apis, routings))
  {
    ResolvedHandles(raw, servers, clusters, apis, routings);
  }

  lemma SortedStays(raw: RawState, valid: Entity -> bool)
    requires Sorted(raw)
    ensures Sorted(Filtered(raw, valid))
  {
    var out := Filtered(raw, valid);
    forall i | 0 <= i < |out.apis|
      ensures out.apis[i].api.Kind() == APIKind
    {
      assert out.apis[i] in out.apis;
      var k :| 0 <= k < |raw.apis| && raw.apis[k] == out.apis[i];
      assert APIsOf(raw)[k].Kind() == APIKind;
    }
    forall i | 0 <= i < |out.routings|
      ensures out.routings[i].routing.Kind() == RoutingKind
    {
      assert out.routings[i] in out.routings;
      var k :| 0 <= k < |raw.routings| && raw.routings[k] == out.routings[i];
      assert RoutingsOf(raw)[k].Kind() == RoutingKind;
    }
    forall i | 0 <= i < |out.clusters|
      ensures out.clusters[i].Kind() == ClusterKind
    {
      assert out.clusters[i] in out.clusters;
    }
    forall i | 0 <= i < |out.servers|
      ensures out.servers[i].Kind() == ServerKind
    {
      assert out.servers[i] in out.servers;
    }
  }

  // The target builds exactly when no two surviving binds name the same
  // cluster and server, that is, when no cluster lists an address twice; and
  // then it is one the sync engine can converge to.
  lemma TargetBuildsIff(db: DB, snow: nat -> Id, raw: RawState, valid: Entity -> bool, n: nat)
    requires Ordinary(db) && Fresh(db, snow, Draws(raw)) && Presentable(raw)
    ensures Prepared(db, snow, raw, valid).Ok?
    ensures
      var out := Prepared(db, snow, raw, valid).value;
      && (AddAll(EMPTY, TargetRows(out)).Ok? <==> DistinctPairs(out.binds))
      && (AddAll(EMPTY, TargetRows(out)).Ok? ==>
            && Holds(AddAll(EMPTY, TargetRows(out)).value.ids, TargetRows(out))
            && SyncPlan.WellFormed(Sync.Config(db, AddAll(EMPTY, TargetRows(out)).value, n)))
  {
    var clusters, servers := PreparedFacts(db, snow, raw, valid);
    var out := Prepared(db, snow, raw, valid).value;
    RowsBuildIff(db, out, clusters, servers, n);
  }

  lemma RowsBuildIff(db: DB, out: RawState, clusters: seq<Entity>, servers: seq<Entity>, n: nat)
    requires Ordinary(db) && Tidy(clusters, ClusterKind) && Tidy(servers, ServerKind) && Sorted(out)
    requires Sound(db, APIsOf(out)) && Sound(db, RoutingsOf(out)) && Sound(db, out.clusters) && Sound(db, out.servers)
    requires forall b | b in out.binds :: Pointed(b, IdMap(clusters), IdMap(servers))
    ensures AddAll(EMPTY, TargetRows(out)).Ok? <==> DistinctPairs(out.binds)
    ensures AddAll(EMPTY, TargetRows(out)).Ok? ==>
              && Holds(AddAll(EMPTY, TargetRows(out)).value.ids, TargetRows(out))
              && SyncPlan.WellFormed(Sync.Config(db, AddAll(EMPTY, TargetRows(out)).value, n))
  {
    BindsSound(db, out, clusters, servers);
    if DistinctPairs(out.binds) {
      RowsSound(db, out);
      SoundIsWellFormed(db, TargetRows(out), n);
    } else {
      ClashAtEnd(APIsOf(out) + RoutingsOf(out) + out.clusters + out.servers, BindsOfRaw(out));
    }
  }

  lemma ClashAtEnd(front: seq<Entity>, binds: seq<Entity>)
    requires exists i, j :: 0 <= i < j < |binds| && Clash(binds[i], binds[j])
    requires forall j | 0 <= j < |binds| :: binds[j].Bind?
    ensures AddAll(EMPTY, front + binds).Err?
  {
    var i, j :| 0 <= i < j < |binds| && Clash(binds[i], binds[j]);
    var rows := front + binds;
    assert rows[|front| + i] == binds[i] && rows[|front| + j] == binds[j];
    BuildSucceedsIff(rows);
  }

  // ---- End to end ----------------------------------------------------------------------------

  ghost predicate AllTextual(rows: seq<Entity>) {
    forall x | x in rows :: x.Name() == "" || Textual(x.Name())
  }

  ghost predicate NamesTextual(rows: seq<Entity>) {
    forall i | 0 <= i < |rows| :: Textual(rows[i].Name())
  }

  lemma PreparedTextual(db: DB, snow: nat -> Id, raw: RawState, valid: Entity -> bool)
    requires Ordinary(db) && Presentable(raw)
    ensures Prepared(db, snow, raw, valid).Ok? ==> AllTextual(TargetRows(Prepared(db, snow, raw, valid).value))
  {
    AssignTextual(db, snow, 0, raw.servers, ServerKind);
    var servers := AssignAll(db, snow, 0, raw.servers).value;
    AssignTextual(db, snow, servers.next, raw.clusters, ClusterKind);
    var clusters := AssignAll(db, snow, servers.next, raw.clusters).value;
    AssignTextual(db, snow, clusters.next, APIsOf(raw), APIKind);
    var apis := AssignAll(db, snow, clusters.next, APIsOf(raw)).value;
    AssignTextual(db, snow, apis.next, RoutingsOf(raw), RoutingKind);
    var routings := AssignAll(db, snow, apis.next, RoutingsOf(raw)).value;
    ResolvedTextual(raw, servers.rows, clusters.rows, apis.rows, routings.rows, valid);
  }

  lemma AssignTextual(db: DB, snow: nat -> Id, next: nat, rows: seq<Entity>, kind: Kind)
    requires Ordinary(db) && Plain(rows, kind)
    ensures AssignAll(db, snow, next, rows).Ok? && NamesTextual(AssignAll(db, snow, next, rows).value.rows)
  {
    AssignResolves(db, snow, next, rows, kind);
    var done := AssignAll(db, snow, next, rows).value;
    forall i | 0 <= i < |rows|
      ensures Textual(done.rows[i].Name())
    {
      assert Resolves(db, snow, next, done.next, rows[i], done.rows[i]);
    }
  }

  lemma ResolvedTextual(raw: RawState, servers: seq<Entity>, clusters: seq<Entity>, apis: seq<Entity>,
                        routings: seq<Entity>, valid: Entity -> bool)
    requires |apis| == |raw.apis| && |routings| == |raw.routings|
    requires NamesTextual(servers) && NamesTextual(clusters) && NamesTextual(apis) && NamesTextual(routings)
    ensures AllTextual(TargetRows(Filtered(Resolved(raw, servers, clusters, apis, routings), valid)))
  {
    var all := Resolved(raw, servers, clusters, apis, routings);
    ResolvedHandles(raw, servers, clusters, apis, routings);
    FilteredTextual(all, valid);
  }

  lemma FilteredTextual(raw: RawState, valid: Entity -> bool)
    requires NamesTextual(raw.servers) && NamesTextual(raw.clusters)
    requires NamesTextual(APIsOf(raw)) && NamesTextual(RoutingsOf(raw))
    ensures AllTextual(TargetRows(Filtered(raw, valid)))
  {
    var out := Filtered(raw, valid);
    forall x | x in TargetRows(out)
      ensures x.Name() == "" || Textual(x.Name())
    {
      if x in APIsOf(out) {
        var i :| 0 <= i < |out.apis| && APIsOf(out)[i] == x;
        assert out.apis[i] in raw.apis;
        var k :| 0 <= k < |raw.apis| && raw.apis[k] == out.apis[i];
        assert APIsOf(raw)[k] == x;
      } else if x in RoutingsOf(out) {
        var i :| 0 <= i < |out.routings| && RoutingsOf(out)[i] == x;
        assert out.routings[i] in raw.routings;
        var k :| 0 <= k < |raw.routings| && raw.routings[k] == out.routings[i];
        assert RoutingsOf(raw)[k] == x;
      } else if x in out.clusters {
        assert x in raw.clusters;
      } else if x in out.servers {
        assert x in raw.servers;
      } else {
        assert x in BindsOfRaw(out);
      }
    }
  }

  // Any clean run from the current state leaves the gateway with exactly the
  // prepared target, in a state from which the next update can start.
  lemma UpdateConverges(db: DB, snow: nat -> Id, raw: RawState, valid: Entity -> bool, n: nat, run: seq<Sync.Label>)
    requires Ordinary(db) && Fresh(db, snow, Draws(raw)) && Presentable(raw)
    requires Builds(db, snow, raw, valid)
    requires Sync.Execute(TargetConfig(db, snow, raw, valid, n), run).Some?
    requires Sync.Clean(Sync.Execute(TargetConfig(db, snow, raw, valid, n), run).value)
    ensures
      var s := Sync.Execute(TargetConfig(db, snow, raw, valid, n), run).value;
      && s.remote == s.mirror.ids
      && Carries(s.remote, TargetRows(Prepared(db, snow, raw, valid).value))
      && Ordinary(s.mirror)
  {
    TargetBuildsIff(db, snow, raw, valid, n);
    PreparedTextual(db, snow, raw, valid);
    var c := TargetConfig(db, snow, raw, valid, n);
    SyncContent.Convergence(c, run);
    CarriesTarget(Sync.Execute(c, run).value.mirror, c.target, TargetRows(Prepared(db, snow, raw, valid).value));
  }

  // The gateway holds these objects and no others, up to unrecognized bytes.
  ghost predicate Carries(remote: map<Ref, Entity>, rows: seq<Entity>) {
    && (forall x | x in rows :: x.Row() in remote && Same(remote[x.Row()], x))
    && (forall r | r in remote :: exists x :: x in rows && x.Row() == r)
  }

  lemma CarriesTarget(mirror: DB, target: DB, rows: seq<Entity>)
    requires Coherent(mirror) && SyncPlan.Matches(mirror.ids, target.ids) && Holds(target.ids, rows)
    requires AllTextual(rows) && forall r | r in target.ids :: target.ids[r].Row() == r && target.ids[r].Addressable()
    ensures Carries(mirror.ids, rows) && Ordinary(mirror)
  {
    MatchesCarries(mirror.ids, target.ids, rows);
    forall r | r in mirror.ids
      ensures mirror.ids[r].Addressable() && (mirror.ids[r].Name() == "" || Textual(mirror.ids[r].Name()))
    {
      SameNames(mirror.ids[r], target.ids[r]);
    }
  }

  lemma MatchesCarries(have: map<Ref, Entity>, want: map<Ref, Entity>, rows: seq<Entity>)
    requires SyncPlan.Matches(have, want) && Holds(want, rows) && forall r | r in want :: want[r].Row() == r
    ensures Carries(have, rows)
  {
  }

  lemma SameNames(x: Entity, y: Entity)
    requires Same(x, y)
    ensures x.Name() == y.Name() && (x.Addressable() <==> y.Addressable())
  {
  }

  ghost predicate Builds(db: DB, snow: nat -> Id, raw: RawState, valid: Entity -> bool) {
    && Prepared(db, snow, raw, valid).Ok?
    && AddAll(EMPTY, TargetRows(Prepared(db, snow, raw, valid).value)).Ok?
  }

  ghost function TargetConfig(db: DB, snow: nat -> Id, raw: RawState, valid: Entity -> bool, n: nat): Sync.Config
    requires Builds(db, snow, raw, valid)
  {
    Sync.Config(db, AddAll(EMPTY, TargetRows(Prepared(db, snow, raw, valid).value)).value, n)
  }
}
