// Updates one after another: what the listing of the gateway shows, what a run
// leaves behind, and when the next update brings the gateway to its target.
module TargetRetry {
  import opened Entities
  import opened Store
  import opened Stable
  import opened Collections
  import opened Target
  import opened TargetLaws
  import opened TargetBuilds
  import Sync
  import SyncPlan
  import SyncResults
  import SyncFrame
  import SyncLimits

  type Gateway = map<Ref, Entity>

  // ---- The listing ---------------------------------------------------------------------

  function ClusterOfBind(b: Entity): Ref
    requires b.Bind?
  {
    Ref(ClusterKind, IdText(b.clusterID))
  }

  // dump.Get asks for the binds of the clusters it was given, so a bind of a
  // cluster that is gone is not listed.
  predicate Orphan(gateway: Gateway, r: Ref) {
    r in gateway && gateway[r].Bind? && ClusterOfBind(gateway[r]) !in gateway
  }

  function Listed(gateway: Gateway): Gateway {
    map r | r in gateway && !Orphan(gateway, r) :: gateway[r]
  }

  ghost predicate NoOrphans(gateway: Gateway) {
    forall r | r in gateway :: !Orphan(gateway, r)
  }

  // A bind that is listed is listed with its cluster.
  lemma ListedWithCluster(gateway: Gateway, b: Ref)
    requires Habitable(gateway) && b in Listed(gateway) && gateway[b].Bind?
    ensures ClusterOfBind(gateway[b]) in Listed(gateway) && b != ClusterOfBind(gateway[b])
  {
    var k := ClusterOfBind(gateway[b]);
    assert gateway[k].Row() == k;
  }

  // Each object that is listed comes once, in some order.
  ghost predicate Dumped(rows: seq<Entity>, gateway: Gateway) {
    && (forall i | 0 <= i < |rows| :: Find(Listed(gateway), rows[i].Row()) == Some(rows[i]))
    && (forall i, j | 0 <= i < j < |rows| :: rows[i].Row() != rows[j].Row())
    && (forall r | r in Listed(gateway) :: gateway[r] in rows)
  }

  // Objects that can live together in the gateway.
  ghost predicate Habitable(gateway: Gateway) {
    && (forall r | r in gateway ::
          && gateway[r].Row() == r && gateway[r].HasId() && gateway[r].Addressable()
          && (gateway[r].Name() == "" || Textual(gateway[r].Name())))
    && (forall r, q | r in gateway && q in gateway :: Apart(gateway[r], gateway[q]))
  }

  lemma OrdinaryIsHabitable(db: DB)
    requires Ordinary(db)
    ensures Habitable(db.ids)
  {
    forall r, q | r in db.ids && q in db.ids
      ensures Apart(db.ids[r], db.ids[q])
    {
      assert Fits(db, db.ids[q]);
    }
  }

  // The state built from a listing is ordinary, and is what was listed.
  lemma DumpIsOrdinary(gateway: Gateway, rows: seq<Entity>)
    requires Habitable(gateway) && Dumped(rows, gateway)
    ensures AddAll(EMPTY, rows).Ok? && AddAll(EMPTY, rows).value.ids == Listed(gateway)
    ensures Ordinary(AddAll(EMPTY, rows).value)
  {
    var m := Listed(gateway);
    DumpIsApart(m, rows);
    BuildCoherent(rows);
    HoldsAll(AddAll(EMPTY, rows).value.ids, m, rows);
  }

  lemma HoldsAll(m: Gateway, all: Gateway, rows: seq<Entity>)
    requires Holds(m, rows) && Holds(all, rows)
    requires forall r | r in m :: m[r].Row() == r
    requires forall r | r in all :: all[r].Row() == r
    ensures m == all
  {
  }

  lemma DumpIsApart(m: Gateway, rows: seq<Entity>)
    requires Habitable(m)
    requires forall i | 0 <= i < |rows| :: Find(m, rows[i].Row()) == Some(rows[i])
    requires forall i, j | 0 <= i < j < |rows| :: rows[i].Row() != rows[j].Row()
    requires forall r | r in m :: m[r] in rows
    ensures PairwiseApart(rows) && Holds(m, rows)
  {
    forall i | 0 <= i < |rows|
      ensures rows[i].HasId() && rows[i] == m[rows[i].Row()]
    {
    }
  }

  // ---- What an update starts from ------------------------------------------------------------

  // The generator also avoids the cluster ids that binds in the gateway name.
  ghost predicate FreshFor(gateway: Gateway, snow: nat -> Id, n: nat) {
    forall i: nat, r | i < n && r in gateway && gateway[r].Bind? :: snow(i) != gateway[r].clusterID
  }

  // The configuration of an update of this gateway to this target.
  ghost predicate Updates(gateway: Gateway, raw: RawState, valid: Entity -> bool, c: Sync.Config, snow: nat -> Id) {
    && Habitable(gateway) && c.current.ids == Listed(gateway) && Ordinary(c.current)
    && Fresh(c.current, snow, Draws(raw)) && FreshFor(gateway, snow, Draws(raw)) && Presentable(raw)
    && Builds(c.current, snow, raw, valid)
    && c == TargetConfig(c.current, snow, raw, valid, c.parallelism)
  }

  ghost predicate KnownTextual(c: Sync.Config) {
    forall x | SyncPlan.Known(c, x) :: x.Name() == "" || Textual(x.Name())
  }

  lemma TargetTextual(db: DB, snow: nat -> Id, raw: RawState, valid: Entity -> bool, n: nat)
    requires Ordinary(db) && Fresh(db, snow, Draws(raw)) && Presentable(raw) && Builds(db, snow, raw, valid)
    ensures SyncPlan.WellFormed(TargetConfig(db, snow, raw, valid, n))
    ensures KnownTextual(TargetConfig(db, snow, raw, valid, n))
  {
    TargetBuildsIff(db, snow, raw, valid, n);
    PreparedTextual(db, snow, raw, valid);
  }

  lemma UpdateIsWellFormed(gateway: Gateway, raw: RawState, valid: Entity -> bool, c: Sync.Config, snow: nat -> Id)
    requires Updates(gateway, raw, valid, c, snow)
    ensures SyncPlan.WellFormed(c) && KnownTextual(c) && SyncFrame.Shows(gateway, c.current.ids)
  {
    TargetTextual(c.current, snow, raw, valid, c.parallelism);
  }

  // ---- What a run leaves behind ----------------------------------------------------------------

  // A bind hides nothing and is hidden by nothing.
  lemma BindApart(b: Entity, x: Entity)
    requires b.Bind?
    ensures Apart(b, x) && Apart(x, b)
  {
  }

  // Every object a run leaves is of one of the two states, or a bind that was not
  // listed.
  lemma LeftOver(c: Sync.Config, gateway: Gateway, run: seq<Sync.Label>, r: Ref)
    requires SyncPlan.WellFormed(c) && Habitable(gateway) && c.current.ids == Listed(gateway)
    requires SyncFrame.ExecuteFrom(c, gateway, run).Some? && r in SyncFrame.ExecuteFrom(c, gateway, run).value.remote
    ensures
      var x := SyncFrame.ExecuteFrom(c, gateway, run).value.remote[r];
      x.Row() == r && (SyncPlan.Known(c, x) || (x.Bind? && x.HasId()))
  {
    SyncFrame.GatewayRows(c, gateway, run, r);
    if SyncPlan.EventFor(c, r).Some? {
      SyncPlan.EventForRow(c, r);
    }
  }

  // Whatever fails in a run, its gateway stays habitable.
  lemma RunLeavesHabitable(c: Sync.Config, gateway: Gateway, run: seq<Sync.Label>)
    requires SyncPlan.WellFormed(c) && KnownTextual(c) && Habitable(gateway) && c.current.ids == Listed(gateway)
    requires SyncFrame.ExecuteFrom(c, gateway, run).Some?
    ensures Habitable(SyncFrame.ExecuteFrom(c, gateway, run).value.remote)
  {
    var left := SyncFrame.ExecuteFrom(c, gateway, run).value.remote;
    forall r | r in left
      ensures left[r].Row() == r && (SyncPlan.Known(c, left[r]) || (left[r].Bind? && left[r].HasId()))
    {
      LeftOver(c, gateway, run, r);
    }
    KnownHabitable(c, left);
  }

  lemma KnownHabitable(c: Sync.Config, left: Gateway)
    requires SyncPlan.WellFormed(c) && KnownTextual(c)
    requires forall r | r in left ::
               left[r].Row() == r && (SyncPlan.Known(c, left[r]) || (left[r].Bind? && left[r].HasId()))
    ensures Habitable(left)
  {
    forall r, q | r in left && q in left
      ensures Apart(left[r], left[q])
    {
      if left[r].Bind? {
        BindApart(left[r], left[q]);
      } else if left[q].Bind? {
        BindApart(left[q], left[r]);
      }
    }
  }

  // After any run from any such gateway, clean, failed or stopped, the state the
  // next update builds from the listing is ordinary again.
  lemma NextUpdateStartsOrdinary(gateway: Gateway, raw: RawState, valid: Entity -> bool, c: Sync.Config,
                                 snow: nat -> Id, run: seq<Sync.Label>, rows: seq<Entity>)
    requires Updates(gateway, raw, valid, c, snow) && SyncFrame.ExecuteFrom(c, gateway, run).Some?
    requires Dumped(rows, SyncFrame.ExecuteFrom(c, gateway, run).value.remote)
    ensures Habitable(SyncFrame.ExecuteFrom(c, gateway, run).value.remote)
    ensures AddAll(EMPTY, rows).Ok? && Ordinary(AddAll(EMPTY, rows).value)
    ensures AddAll(EMPTY, rows).value.ids == Listed(SyncFrame.ExecuteFrom(c, gateway, run).value.remote)
  {
    UpdateIsWellFormed(gateway, raw, valid, c, snow);
    RunLeavesHabitable(c, gateway, run);
    DumpIsOrdinary(SyncFrame.ExecuteFrom(c, gateway, run).value.remote, rows);
  }

  // ---- Orphans ------------------------------------------------------------------------------------

  // The id of a target cluster is that of a listed cluster or a fresh one.
  lemma ClusterIdsKnown(db: DB, snow: nat -> Id, raw: RawState, valid: Entity -> bool, k: Entity)
    requires Ordinary(db) && Presentable(raw) && Prepared(db, snow, raw, valid).Ok?
    requires k in Prepared(db, snow, raw, valid).value.clusters
    ensures k.Cluster?
    ensures Ref(ClusterKind, IdText(k.id)) in db.ids || exists j: nat :: j < Draws(raw) && k.id == snow(j)
  {
    AssignResolves(db, snow, 0, raw.servers, ServerKind);
    var servers := AssignAll(db, snow, 0, raw.servers).value;
    AssignResolves(db, snow, servers.next, raw.clusters, ClusterKind);
    var clusters := AssignAll(db, snow, servers.next, raw.clusters).value;
    assert k in clusters.rows;
    var i :| 0 <= i < |clusters.rows| && clusters.rows[i] == k;
    assert Resolves(db, snow, servers.next, clusters.next, raw.clusters[i], k);
    GetFindsNamesake(db, ClusterKind, raw.clusters[i].Name());
  }

  // So the target has no cluster that a bind in the gateway is missing.
  lemma TargetLacksCluster(gateway: Gateway, raw: RawState, valid: Entity -> bool, c: Sync.Config, snow: nat -> Id,
                           r: Ref, k: Entity)
    requires Updates(gateway, raw, valid, c, snow) && Orphan(gateway, r)
    requires k in Prepared(c.current, snow, raw, valid).value.clusters
    ensures k.Cluster? && k.id != gateway[r].clusterID
  {
    ClusterIdsKnown(c.current, snow, raw, valid, k);
  }

  // A target row of kind cluster, or the cluster of a target bind, is among the
  // target's clusters.
  lemma TargetClusterOf(gateway: Gateway, raw: RawState, valid: Entity -> bool, c: Sync.Config, snow: nat -> Id, q: Ref)
    returns (k: Entity)
    requires Updates(gateway, raw, valid, c, snow) && q in c.target.ids
    requires c.target.ids[q].Cluster? || c.target.ids[q].Bind?
    ensures k in Prepared(c.current, snow, raw, valid).value.clusters
    ensures IdOf(k) == if c.target.ids[q].Bind? then c.target.ids[q].clusterID else c.target.ids[q].id
  {
    var out := Prepared(c.current, snow, raw, valid).value;
    TargetBuildsIff(c.current, snow, raw, valid, c.parallelism);
    var _, _ := PreparedFacts(c.current, snow, raw, valid);
    k := RowCluster(SetIDs(c.current, snow, raw).value, valid, c.target.ids[q]);
  }

  lemma RowCluster(all: RawState, valid: Entity -> bool, x: Entity) returns (k: Entity)
    requires Sorted(Filtered(all, valid)) && x in TargetRows(Filtered(all, valid)) && (x.Cluster? || x.Bind?)
    ensures k in Filtered(all, valid).clusters && IdOf(k) == if x.Bind? then x.clusterID else x.id
  {
    var out := Filtered(all, valid);
    if x.Cluster? {
      k := x;
      assert x !in APIsOf(out) && x !in RoutingsOf(out) && x !in out.servers && x !in BindsOfRaw(out);
    } else {
      assert x !in APIsOf(out) && x !in RoutingsOf(out) && x !in out.servers && x !in out.clusters;
      var i :| 0 <= i < |out.binds| && BindsOfRaw(out)[i] == x;
      assert out.binds[i] in out.binds;
      BindsSurviveTogether(all, valid, out.binds[i]);
      k :| k in out.clusters && IdOf(k) == BindIds(out.binds[i]).0;
    }
  }

  // The target has neither an orphan of the gateway nor its cluster.
  lemma TargetAvoidsOrphan(gateway: Gateway, raw: RawState, valid: Entity -> bool, c: Sync.Config, snow: nat -> Id,
                           r: Ref)
    requires Updates(gateway, raw, valid, c, snow) && Orphan(gateway, r)
    ensures r !in c.target.ids && ClusterOfBind(gateway[r]) !in c.target.ids
    ensures r !in c.current.ids && ClusterOfBind(gateway[r]) !in c.current.ids
  {
    UpdateIsWellFormed(gateway, raw, valid, c, snow);
    if r in c.target.ids {
      RowDeterminesIds(c.target.ids[r], gateway[r]);
      var k := TargetClusterOf(gateway, raw, valid, c, snow, r);
      TargetLacksCluster(gateway, raw, valid, c, snow, r, k);
    }
    var q := ClusterOfBind(gateway[r]);
    if q in c.target.ids {
      ClusterRow(c.target.ids[q], gateway[r].clusterID);
      var k := TargetClusterOf(gateway, raw, valid, c, snow, q);
      TargetLacksCluster(gateway, raw, valid, c, snow, r, k);
    }
  }

  lemma ClusterRow(x: Entity, id: Id)
    requires x.Row() == Ref(ClusterKind, IdText(id))
    ensures x.Cluster? && x.id == id
  {
    IdTextInjective(x.id, id);
  }

  // A clean update brings the gateway to its target exactly when no bind of the
  // gateway it started from names a missing cluster.
  lemma UpdateMatchesIff(gateway: Gateway, raw: RawState, valid: Entity -> bool, c: Sync.Config, snow: nat -> Id,
                         run: seq<Sync.Label>)
    requires Updates(gateway, raw, valid, c, snow) && SyncFrame.ExecuteFrom(c, gateway, run).Some?
    requires Sync.Clean(SyncFrame.ExecuteFrom(c, gateway, run).value)
    ensures SyncPlan.Matches(SyncFrame.ExecuteFrom(c, gateway, run).value.remote, c.target.ids) <==> NoOrphans(gateway)
  {
    UpdateIsWellFormed(gateway, raw, valid, c, snow);
    SyncFrame.CleanMatchesIff(c, gateway, run);
    forall r | r in gateway
      ensures r in c.current.ids || r in c.target.ids <==> !Orphan(gateway, r)
    {
      if Orphan(gateway, r) {
        TargetAvoidsOrphan(gateway, raw, valid, c, snow, r);
      }
    }
  }

  // No run of any update touches an orphan or brings its cluster back.
  lemma OrphanStays(gateway: Gateway, raw: RawState, valid: Entity -> bool, c: Sync.Config, snow: nat -> Id,
                    run: seq<Sync.Label>, r: Ref)
    requires Updates(gateway, raw, valid, c, snow) && SyncFrame.ExecuteFrom(c, gateway, run).Some?
    requires Orphan(gateway, r)
    ensures Orphan(SyncFrame.ExecuteFrom(c, gateway, run).value.remote, r)
    ensures SyncFrame.ExecuteFrom(c, gateway, run).value.remote[r] == gateway[r]
  {
    UpdateIsWellFormed(gateway, raw, valid, c, snow);
    TargetAvoidsOrphan(gateway, raw, valid, c, snow, r);
    SyncFrame.OthersStay(c, gateway, run, r);
    SyncFrame.OthersStay(c, gateway, run, ClusterOfBind(gateway[r]));
  }

  // ---- Updates in a row ------------------------------------------------------------------------------

  // After a clean update the gateway carries every object of the prepared target,
  // whatever was there before, and nothing else exactly when there was no orphan.
  lemma UpdateCarriesIff(gateway: Gateway, raw: RawState, valid: Entity -> bool, c: Sync.Config, snow: nat -> Id,
                         run: seq<Sync.Label>)
    requires Updates(gateway, raw, valid, c, snow) && SyncFrame.ExecuteFrom(c, gateway, run).Some?
    requires Sync.Clean(SyncFrame.ExecuteFrom(c, gateway, run).value)
    ensures
      var left, rows := SyncFrame.ExecuteFrom(c, gateway, run).value.remote,
                        TargetRows(Prepared(c.current, snow, raw, valid).value);
      && (forall x | x in rows :: x.Row() in left && Same(left[x.Row()], x))
      && (Carries(left, rows) <==> NoOrphans(gateway))
  {
    var left := SyncFrame.ExecuteFrom(c, gateway, run).value.remote;
    var rows := TargetRows(Prepared(c.current, snow, raw, valid).value);
    UpdateIsWellFormed(gateway, raw, valid, c, snow);
    TargetBuildsIff(c.current, snow, raw, valid, c.parallelism);
    forall x | x in rows
      ensures x.Row() in left && Same(left[x.Row()], x)
    {
      assert Find(c.target.ids, x.Row()) == Some(x);
      SyncFrame.CleanRowMatches(c, gateway, run, x.Row());
    }
    UpdateMatchesIff(gateway, raw, valid, c, snow, run);
    MatchesIffCarries(left, c.target.ids, rows);
  }

  lemma MatchesIffCarries(have: Gateway, want: Gateway, rows: seq<Entity>)
    requires Holds(want, rows) && forall r | r in want :: want[r].Row() == r
    ensures SyncPlan.Matches(have, want) <==> Carries(have, rows)
  {
    if SyncPlan.Matches(have, want) {
      MatchesCarries(have, want, rows);
    }
    if Carries(have, rows) {
      forall r
        ensures r in have <==> r in want
        ensures r in want ==> Same(have[r], want[r])
      {
        if r in want {
          assert want[r] in rows;
        }
        if r in have {
          var x :| x in rows && x.Row() == r;
          assert Find(want, x.Row()) == Some(x);
        }
      }
    }
  }

  // A retry: whatever the run before it left behind, a clean update from there
  // brings the gateway exactly to its target unless that run left an orphan.
  lemma RetryConvergesIff(gateway: Gateway, raw: RawState, valid: Entity -> bool, c: Sync.Config, snow: nat -> Id,
                          run: seq<Sync.Label>, rows: seq<Entity>, again: RawState, n: nat, snow': nat -> Id,
                          rerun: seq<Sync.Label>)
    requires Updates(gateway, raw, valid, c, snow) && SyncFrame.ExecuteFrom(c, gateway, run).Some?
    requires Dumped(rows, SyncFrame.ExecuteFrom(c, gateway, run).value.remote)
    requires AddAll(EMPTY, rows).Ok? && Presentable(again)
    requires Fresh(AddAll(EMPTY, rows).value, snow', Draws(again))
    requires FreshFor(SyncFrame.ExecuteFrom(c, gateway, run).value.remote, snow', Draws(again))
    requires Builds(AddAll(EMPTY, rows).value, snow', again, valid)
    requires Retried(c, gateway, run, rows, again, valid, n, snow', rerun).Some?
    requires Sync.Clean(Retried(c, gateway, run, rows, again, valid, n, snow', rerun).value)
    ensures Carries(Retried(c, gateway, run, rows, again, valid, n, snow', rerun).value.remote,
                    TargetRows(Prepared(AddAll(EMPTY, rows).value, snow', again, valid).value)) <==>
              NoOrphans(SyncFrame.ExecuteFrom(c, gateway, run).value.remote)
  {
    NextUpdateStartsOrdinary(gateway, raw, valid, c, snow, run, rows);
    UpdateCarriesIff(SyncFrame.ExecuteFrom(c, gateway, run).value.remote, again, valid,
                     TargetConfig(AddAll(EMPTY, rows).value, snow', again, valid, n), snow', rerun);
  }

  // The update that starts from the listing of what a run left.
  ghost function Retried(c: Sync.Config, gateway: Gateway, run: seq<Sync.Label>, rows: seq<Entity>, again: RawState,
                         valid: Entity -> bool, n: nat, snow': nat -> Id, rerun: seq<Sync.Label>): Option<Sync.State>
    requires SyncFrame.ExecuteFrom(c, gateway, run).Some? && AddAll(EMPTY, rows).Ok?
    requires Builds(AddAll(EMPTY, rows).value, snow', again, valid)
  {
    SyncFrame.ExecuteFrom(TargetConfig(AddAll(EMPTY, rows).value, snow', again, valid, n),
                          SyncFrame.ExecuteFrom(c, gateway, run).value.remote, rerun)
  }

  // ---- A complete listing, and one that is not --------------------------------------------------------

  // In a gateway without orphans the listing is complete, and an update is the one
  // the other modules speak of.
  lemma CompleteListing(db: DB, snow: nat -> Id, raw: RawState, valid: Entity -> bool, n: nat, run: seq<Sync.Label>)
    requires Ordinary(db) && NoOrphans(db.ids) && Fresh(db, snow, Draws(raw)) && Presentable(raw)
    requires Builds(db, snow, raw, valid)
    ensures Updates(db.ids, raw, valid, TargetConfig(db, snow, raw, valid, n), snow)
    ensures SyncFrame.ExecuteFrom(TargetConfig(db, snow, raw, valid, n), db.ids, run)
         == Sync.Execute(TargetConfig(db, snow, raw, valid, n), run)
  {
    OrdinaryIsHabitable(db);
    assert Listed(db.ids) == db.ids;
    SyncFrame.WholeListing(TargetConfig(db, snow, raw, valid, n), run);
    forall i: nat, r | i < Draws(raw) && r in db.ids && db.ids[r].Bind?
      ensures snow(i) != db.ids[r].clusterID
    {
      var q := ClusterOfBind(db.ids[r]);
      assert !Orphan(db.ids, r);
      ClusterRow(db.ids[q], db.ids[r].clusterID);
    }
  }

  // A server, a cluster and the bind between them, all to be deleted by two
  // workers: the bind can be all that is left.
  lemma OrphanInstance(addr: string, name: string) returns (c: Sync.Config, run: seq<Sync.Label>, s: Sync.State)
    requires Textual(addr) && Textual(name)
    ensures SyncPlan.WellFormed(c) && c.parallelism == 2 && c.target == EMPTY
    ensures Sync.Execute(c, run) == Some(s) && s.collector.Returned? && s.errs != []
    ensures Orphan(s.remote, Bind(2, 1).Row())
  {
    var server, cluster, bind := Server(1, addr, "", ""), Cluster(2, name, "", ""), Bind(2, 1);
    var db := ThreeRows(server, cluster, bind);
    c := Sync.Config(db, EMPTY, 2);
    OnlyCurrentIsWellFormed(db);
    run, s := SyncLimits.OrphanReachable(c, bind.Row(), cluster.Row());
    SyncResults.RowsAreOldOrNew(c, run, bind.Row());
  }

  lemma ThreeRows(server: Entity, cluster: Entity, bind: Entity) returns (db: DB)
    requires server.Server? && cluster.Cluster? && bind.Bind? && server.HasId() && cluster.HasId() && bind.HasId()
    requires Textual(server.addr) && Textual(cluster.name)
    ensures Ordinary(db) && Find(db.ids, bind.Row()) == Some(bind) && Find(db.ids, cluster.Row()) == Some(cluster)
  {
    var rows := [server, cluster, bind];
    BuildCoherent(rows);
    db := AddAll(EMPTY, rows).value;
    assert bind in rows && cluster in rows;
  }

  lemma OnlyCurrentIsWellFormed(db: DB)
    requires Ordinary(db)
    ensures SyncPlan.WellFormed(Sync.Config(db, EMPTY, 2))
  {
    OrdinaryIsHabitable(db);
  }
}
