// From the parser's state to the gateway: the pieces joined.
module Pipeline {
  import opened Entities
  import opened Store
  import opened Ordering
  import opened Stable
  import opened Target
  import opened TargetLaws
  import opened TargetBuilds
  import Sync

  // ---- Sorting keeps what holds of every pair ----------------------------------------

  lemma {:induction false} TwoPlaces<T>(xs: seq<T>, x: T) returns (a: nat, b: nat)
    requires multiset(xs)[x] >= 2
    ensures a < b < |xs| && xs[a] == xs[b] == x
  {
    var init, last := xs[..|xs| - 1], xs[|xs| - 1];
    assert xs == init + [last];
    if multiset(init)[x] >= 2 {
      a, b := TwoPlaces(init, x);
    } else {
      b := |init|;
      assert x in multiset(init);
      a :| 0 <= a < |init| && init[a] == x;
    }
  }

  lemma TwiceCounted<T>(xs: seq<T>, i: nat, j: nat)
    requires i < j < |xs| && xs[i] == xs[j]
    ensures multiset(xs)[xs[i]] >= 2
  {
    assert xs == xs[..j] + [xs[j]] + xs[j + 1..];
    assert xs[..j][i] == xs[i];
    assert xs[i] in multiset(xs[..j]);
  }

  lemma PairsPermute<T(!new)>(xs: seq<T>, ys: seq<T>, apart: (T, T) -> bool)
    requires multiset(xs) == multiset(ys)
    requires forall x, y :: apart(x, y) == apart(y, x)
    requires forall i, j | 0 <= i < j < |xs| :: apart(xs[i], xs[j])
    ensures forall i, j | 0 <= i < j < |ys| :: apart(ys[i], ys[j])
  {
    forall i, j | 0 <= i < j < |ys|
      ensures apart(ys[i], ys[j])
    {
      if ys[i] == ys[j] {
        TwiceCounted(ys, i, j);
        var a, b := TwoPlaces(xs, ys[i]);
        assert apart(xs[a], xs[b]);
      } else {
        assert ys[i] in multiset(xs) && ys[j] in multiset(xs);
        var a :| 0 <= a < |xs| && xs[a] == ys[i];
        var b :| 0 <= b < |xs| && xs[b] == ys[j];
        if a < b {
          assert apart(xs[a], xs[b]);
        } else {
          assert apart(xs[b], xs[a]);
        }
      }
    }
  }

  function Differing<T>(key: T -> string): (T, T) -> bool {
    (x: T, y: T) => key(x) != key(y)
  }

  lemma SortKeepsDistinct<T(!new)>(xs: seq<T>, less: (T, T) -> bool, key: T -> string)
    requires DistinctKeys(xs, key)
    ensures DistinctKeys(StableSort(xs, less), key)
    ensures forall y | y in StableSort(xs, less) :: y in xs
  {
    SortPermutes(xs, less);
    assert forall i, j | 0 <= i < j < |xs| :: Differing(key)(xs[i], xs[j]);
    PairsPermute(xs, StableSort(xs, less), Differing(key));
    var ys := StableSort(xs, less);
    assert forall i, j | 0 <= i < j < |ys| :: Differing(key)(ys[i], ys[j]);
    assert forall y | y in ys :: y in multiset(ys);
  }

  // ---- Presentable targets --------------------------------------------------------------

  ghost predicate Blank(e: Entity, kind: Kind) {
    e.Kind() == kind && kind != BindKind && e.id == 0 && Textual(e.Name())
  }

  // What the parser produces: no ids yet, and names that are no id texts.
  ghost predicate Parsed(s: ParserState) {
    && Distinct(s)
    && (forall i | 0 <= i < |s.apis| :: Blank(s.apis[i].api, APIKind))
    && (forall i | 0 <= i < |s.servers| :: Blank(s.servers[i], ServerKind))
    && (forall i | 0 <= i < |s.clusters| :: Blank(s.clusters[i].cluster, ClusterKind))
    && (forall i | 0 <= i < |s.routings| :: Blank(s.routings[i].routing, RoutingKind))
  }

  lemma PlainByKeys(rows: seq<Entity>, kind: Kind)
    requires DistinctKeys(rows, NameKey()) && kind != BindKind && forall i | 0 <= i < |rows| :: Blank(rows[i], kind)
    ensures Plain(rows, kind)
  {
  }

  lemma SortedPlain(rows: seq<Entity>, kind: Kind)
    requires DistinctKeys(rows, NameKey()) && kind != BindKind && forall i | 0 <= i < |rows| :: Blank(rows[i], kind)
    ensures Plain(StableSort(rows, ByKey(NameKey())), kind)
  {
    var ys := StableSort(rows, ByKey(NameKey()));
    SortKeepsDistinct(rows, ByKey(NameKey()), NameKey());
    forall i | 0 <= i < |ys|
      ensures Blank(ys[i], kind)
    {
      assert ys[i] in ys;
    }
    PlainByKeys(ys, kind);
  }

  lemma APIsPlain(s: ParserState, listed: seq<RawAPI>, raw: RawState)
    requires Parsed(s) && Listed(listed, s.apis) && raw.apis == StableSort(listed, ByKey(APIKey()))
    ensures Plain(APIsOf(raw), APIKind)
  {
    assert forall i, j | 0 <= i < j < |listed| :: APIKey()(listed[i]) != APIKey()(listed[j]);
    SortKeepsDistinct(listed, ByKey(APIKey()), APIKey());
    var rows := APIsOf(raw);
    forall i | 0 <= i < |rows|
      ensures Blank(rows[i], APIKind)
    {
      assert raw.apis[i] in raw.apis;
      var k :| 0 <= k < |listed| && listed[k] == raw.apis[i];
    }
    forall i, j | 0 <= i < j < |rows|
      ensures NameKey()(rows[i]) != NameKey()(rows[j])
    {
      assert APIKey()(raw.apis[i]) != APIKey()(raw.apis[j]);
    }
    PlainByKeys(rows, APIKind);
  }

  lemma RoutingsPlain(s: ParserState, raw: RawState)
    requires Parsed(s) && raw.routings == StableSort(s.routings, ByKey(RoutingKey()))
    ensures Plain(RoutingsOf(raw), RoutingKind)
  {
    SortKeepsDistinct(s.routings, ByKey(RoutingKey()), RoutingKey());
    var rows := RoutingsOf(raw);
    forall i | 0 <= i < |rows|
      ensures Blank(rows[i], RoutingKind)
    {
      assert raw.routings[i] in raw.routings;
      var k :| 0 <= k < |s.routings| && s.routings[k] == raw.routings[i];
    }
    forall i, j | 0 <= i < j < |rows|
      ensures NameKey()(rows[i]) != NameKey()(rows[j])
    {
      assert RoutingKey()(raw.routings[i]) != RoutingKey()(raw.routings[j]);
    }
    PlainByKeys(rows, RoutingKind);
  }

  lemma ClustersPlain(s: ParserState, raw: RawState)
    requires Parsed(s) && raw.clusters == StableSort(FlatMap(s.clusters, ClusterOf()), ByKey(NameKey()))
    ensures Plain(raw.clusters, ClusterKind)
  {
    ClusterNames(s.clusters);
    var rows := FlatMap(s.clusters, ClusterOf());
    forall i, j | 0 <= i < j < |rows|
      ensures NameKey()(rows[i]) != NameKey()(rows[j])
    {
      assert rows[i] == s.clusters[i].cluster && rows[j] == s.clusters[j].cluster;
    }
    SortedPlain(rows, ClusterKind);
  }

  // ---- Binds ------------------------------------------------------------------------------

  lemma BindsUnset(clusters: seq<ParserCluster>, b: RawBind)
    requires b in StableSort(FlatMap(clusters, BindsOf()), BindLess())
    ensures b.bind.None?
  {
    var all := FlatMap(clusters, BindsOf());
    SortPermutes(all, BindLess());
    SameMembers(StableSort(all, BindLess()), all);
    var k := InFlatMap(clusters, BindsOf(), b);
  }

  // What toStable makes of the parser's state is a target the rest can handle.
  lemma StableIsPresentable(s: ParserState, raw: RawState)
    requires Parsed(s) && IsStable(s, raw)
    ensures Presentable(raw)
  {
    var listed :| Listed(listed, s.apis) && raw.apis == StableSort(listed, ByKey(APIKey()));
    APIsPlain(s, listed, raw);
    SortedPlain(s.servers, ServerKind);
    ClustersPlain(s, raw);
    RoutingsPlain(s, raw);
    forall b | b in raw.binds
      ensures b.bind.None?
    {
      BindsUnset(s.clusters, b);
    }
  }

  // ---- Repeated binds -----------------------------------------------------------------------

  lemma {:induction false} FilterCount<T(!new)>(xs: seq<T>, keep: T -> bool, x: T)
    ensures multiset(Filter(xs, keep))[x] == if keep(x) then multiset(xs)[x] else 0
  {
    if xs != [] {
      var init, last := xs[..|xs| - 1], xs[|xs| - 1];
      assert xs == init + [last];
      FilterCount(init, keep, x);
    }
  }

  // Both objects of the bind survive the validators.
  ghost predicate Survives(out: RawState, clusterName: string, addr: string) {
    Mentioned(out.clusters, clusterName) && Mentioned(out.servers, addr)
  }

  // No bind that survives is there twice.
  ghost predicate NoRepeats(out: RawState, binds: seq<RawBind>) {
    forall b | b in binds && Survives(out, b.clusterName, b.serverAddr) :: multiset(binds)[b] == 1
  }

  lemma ResolvedTwice(binds: seq<RawBind>, b: RawBind, clusters: map<string, Id>, servers: map<string, Id>)
    requires b.bind.None? && forall d | d in binds :: d.bind.None?
    ensures multiset(ResolveBinds(binds, clusters, servers))[ResolveBind(b, clusters, servers)] >= 2 <==>
              multiset(binds)[b] >= 2
  {
    var all, x := ResolveBinds(binds, clusters, servers), ResolveBind(b, clusters, servers);
    if multiset(all)[x] >= 2 {
      var p, q := TwoPlaces(all, x);
      assert binds[p] in binds && binds[q] in binds;
      assert binds[p] == b && binds[q] == b;
      TwiceCounted(binds, p, q);
    }
    if multiset(binds)[b] >= 2 {
      var p, q := TwoPlaces(binds, b);
      assert all[p] == x && all[q] == x;
      TwiceCounted(all, p, q);
    }
  }

  // A bind comes out twice exactly when it went in twice and survives.
  lemma KeptTwice(raw: RawState, clusters: seq<Entity>, servers: seq<Entity>, valid: Entity -> bool, b: RawBind)
    requires Tidy(clusters, ClusterKind) && Tidy(servers, ServerKind)
    requires b.bind.None? && forall d | d in raw.binds :: d.bind.None?
    ensures
      var x := ResolveBind(b, IdMap(clusters), IdMap(servers));
      var kept, left := Filter(clusters, valid), Filter(servers, valid);
      multiset(Filter(ResolveBinds(raw.binds, IdMap(clusters), IdMap(servers)), Joins(kept, left)))[x] >= 2 <==>
        && multiset(raw.binds)[b] >= 2 && Mentioned(kept, b.clusterName) && Mentioned(left, b.serverAddr)
  {
    var x := ResolveBind(b, IdMap(clusters), IdMap(servers));
    BindKeptIff(b, clusters, servers, valid);
    ResolvedTwice(raw.binds, b, IdMap(clusters), IdMap(servers));
    FilterCount(ResolveBinds(raw.binds, IdMap(clusters), IdMap(servers)),
                Joins(Filter(clusters, valid), Filter(servers, valid)), x);
  }

  lemma PairsDistinctIff(db: DB, snow: nat -> Id, raw: RawState, valid: Entity -> bool)
    requires Ordinary(db) && Fresh(db, snow, Draws(raw)) && Presentable(raw)
    ensures Prepared(db, snow, raw, valid).Ok?
    ensures
      var out := Prepared(db, snow, raw, valid).value;
      DistinctPairs(out.binds) <==> NoRepeats(out, raw.binds)
  {
    ResolvedSound(db, snow, raw);
    ResolvedTidy(db, snow, raw);
    var all := SetIDs(db, snow, raw).value;
    var out := Filtered(all, valid);
    if !NoRepeats(out, raw.binds) {
      RepeatIsKept(raw, all, valid);
    }
    if !DistinctPairs(out.binds) {
      PairIsRepeat(raw, all, valid);
    }
  }

  // What setTargetsIDs makes of the binds.
  ghost predicate BindsResolved(raw: RawState, all: RawState) {
    && Tidy(all.clusters, ClusterKind) && Tidy(all.servers, ServerKind)
    && (forall b | b in raw.binds :: b.bind.None?)
    && all.binds == ResolveBinds(raw.binds, IdMap(all.clusters), IdMap(all.servers))
  }

  lemma RepeatIsKept(raw: RawState, all: RawState, valid: Entity -> bool)
    requires BindsResolved(raw, all) && !NoRepeats(Filtered(all, valid), raw.binds)
    ensures !DistinctPairs(Filtered(all, valid).binds)
  {
    var out := Filtered(all, valid);
    var b :| b in raw.binds && Survives(out, b.clusterName, b.serverAddr) && multiset(raw.binds)[b] != 1;
    KeptTwice(raw, all.clusters, all.servers, valid, b);
    var p, q := TwoPlaces(out.binds, ResolveBind(b, IdMap(all.clusters), IdMap(all.servers)));
  }

  lemma PairIsRepeat(raw: RawState, all: RawState, valid: Entity -> bool)
    requires BindsResolved(raw, all) && !DistinctPairs(Filtered(all, valid).binds)
    ensures !NoRepeats(Filtered(all, valid), raw.binds)
  {
    var out := Filtered(all, valid);
    var i, j :| 0 <= i < j < |out.binds|
                && (out.binds[i].clusterName, out.binds[i].serverAddr)
                   == (out.binds[j].clusterName, out.binds[j].serverAddr);
    var b := Origin(raw, all, valid, out.binds[i]);
    var d := Origin(raw, all, valid, out.binds[j]);
    TwiceCounted(out.binds, i, j);
    KeptTwice(raw, all.clusters, all.servers, valid, b);
  }

  lemma Origin(raw: RawState, all: RawState, valid: Entity -> bool, x: RawBind) returns (b: RawBind)
    requires BindsResolved(raw, all) && x in Filtered(all, valid).binds
    ensures b in raw.binds && b == RawBind(x.clusterName, x.serverAddr, None)
    ensures x == ResolveBind(b, IdMap(all.clusters), IdMap(all.servers))
  {
    var k :| 0 <= k < |all.binds| && all.binds[k] == x;
    b := raw.binds[k];
    assert b in raw.binds;
  }

  // ---- Repeated addresses -----------------------------------------------------------------------

  // The cluster, if it survives, lists no surviving server twice.
  ghost predicate KeptOnce(out: RawState, c: ParserCluster) {
    forall i, j | 0 <= i < j < |c.servers| && c.servers[i].Name() == c.servers[j].Name() ::
      !Survives(out, c.cluster.Name(), c.servers[i].Name())
  }

  ghost predicate NamesDiffer(clusters: seq<ParserCluster>) {
    forall i, j | 0 <= i < j < |clusters| :: clusters[i].cluster.Name() != clusters[j].cluster.Name()
  }

  lemma {:induction false} BindsOfOthers(clusters: seq<ParserCluster>, b: RawBind)
    requires forall i | 0 <= i < |clusters| :: clusters[i].cluster.Name() != b.clusterName
    ensures multiset(FlatMap(clusters, BindsOf()))[b] == 0
  {
    if b in FlatMap(clusters, BindsOf()) {
      var i := InFlatMap(clusters, BindsOf(), b);
    }
  }

  lemma CountAround<T>(xs: seq<T>, ys: seq<T>, zs: seq<T>, x: T)
    ensures multiset(xs + ys + zs)[x] == multiset(xs)[x] + multiset(ys)[x] + multiset(zs)[x]
  {
  }

  // How often a bind is listed is up to its cluster.
  lemma {:induction false} BindCount(clusters: seq<ParserCluster>, k: nat, b: RawBind)
    requires NamesDiffer(clusters)
    requires k < |clusters| && b.clusterName == clusters[k].cluster.Name()
    ensures multiset(FlatMap(clusters, BindsOf()))[b] == multiset(BindsOf()(clusters[k]))[b]
  {
    var left, c, right := clusters[..k], clusters[k], clusters[k + 1..];
    FlatMapAround(left, c, right, BindsOf());
    CountAround(FlatMap(left, BindsOf()), BindsOf()(c), FlatMap(right, BindsOf()), b);
    BindsOfOthers(left, b);
    BindsOfOthers(right, b);
    assert clusters == left + [c] + right;
  }

  lemma {:induction false} RepeatsIff(out: RawState, clusters: seq<ParserCluster>)
    requires NamesDiffer(clusters)
    ensures NoRepeats(out, FlatMap(clusters, BindsOf())) <==>
              forall k | 0 <= k < |clusters| :: KeptOnce(out, clusters[k])
  {
    if !NoRepeats(out, FlatMap(clusters, BindsOf())) {
      RepeatIsListed(out, clusters);
    }
    if k :| 0 <= k < |clusters| && !KeptOnce(out, clusters[k]) {
      ListedIsRepeat(out, clusters, k);
    }
  }

  lemma {:induction false} RepeatIsListed(out: RawState, clusters: seq<ParserCluster>)
    requires NamesDiffer(clusters) && !NoRepeats(out, FlatMap(clusters, BindsOf()))
    ensures exists k :: 0 <= k < |clusters| && !KeptOnce(out, clusters[k])
  {
    var all := FlatMap(clusters, BindsOf());
    var b :| b in all && Survives(out, b.clusterName, b.serverAddr) && multiset(all)[b] != 1;
    var k := InFlatMap(clusters, BindsOf(), b);
    BindCount(clusters, k, b);
    var i, j := TwoPlaces(BindsOf()(clusters[k]), b);
    assert !KeptOnce(out, clusters[k]);
  }

  lemma {:induction false} ListedIsRepeat(out: RawState, clusters: seq<ParserCluster>, k: nat)
    requires NamesDiffer(clusters) && k < |clusters| && !KeptOnce(out, clusters[k])
    ensures !NoRepeats(out, FlatMap(clusters, BindsOf()))
  {
    var c, all := clusters[k], FlatMap(clusters, BindsOf());
    var i, j :| 0 <= i < j < |c.servers| && c.servers[i].Name() == c.servers[j].Name()
                && Survives(out, c.cluster.Name(), c.servers[i].Name());
    var b := BindsOf()(c)[i];
    TwiceCounted(BindsOf()(c), i, j);
    BindCount(clusters, k, b);
    assert b in multiset(all);
  }

  // ---- End to end ----------------------------------------------------------------------------

  lemma RepeatsPermute(out: RawState, xs: seq<RawBind>, ys: seq<RawBind>)
    requires multiset(xs) == multiset(ys)
    ensures NoRepeats(out, xs) <==> NoRepeats(out, ys)
  {
    SameMembers(xs, ys);
  }

  // The parser's state builds exactly when no surviving cluster lists a surviving
  // server twice; then every clean run leaves the gateway with what it asks for.
  lemma ParserToGateway(s: ParserState, raw: RawState, db: DB, snow: nat -> Id, valid: Entity -> bool, n: nat,
                        run: seq<Sync.Label>)
    requires Parsed(s) && IsStable(s, raw) && Ordinary(db) && Fresh(db, snow, Draws(raw))
    ensures Prepared(db, snow, raw, valid).Ok?
    ensures Builds(db, snow, raw, valid) <==>
              forall k | 0 <= k < |s.clusters| :: KeptOnce(Prepared(db, snow, raw, valid).value, s.clusters[k])
    ensures
      Builds(db, snow, raw, valid) ==>
        var c := TargetConfig(db, snow, raw, valid, n);
        Sync.Execute(c, run).Some? && Sync.Clean(Sync.Execute(c, run).value) ==>
          && Carries(Sync.Execute(c, run).value.remote, TargetRows(Prepared(db, snow, raw, valid).value))
          && Ordinary(Sync.Execute(c, run).value.mirror)
  {
    StableIsPresentable(s, raw);
    TargetBuildsIff(db, snow, raw, valid, n);
    PairsDistinctIff(db, snow, raw, valid);
    var out, all := Prepared(db, snow, raw, valid).value, FlatMap(s.clusters, BindsOf());
    RepeatsIff(out, s.clusters);
    SortPermutes(all, BindLess());
    RepeatsPermute(out, all, raw.binds);
    if Builds(db, snow, raw, valid) {
      var c := TargetConfig(db, snow, raw, valid, n);
      if Sync.Execute(c, run).Some? && Sync.Clean(Sync.Execute(c, run).value) {
        UpdateConverges(db, snow, raw, valid, n, run);
      }
    }
  }
}
