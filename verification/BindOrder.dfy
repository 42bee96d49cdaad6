// When toStable puts the binds in one order whatever order the parser produced.
module BindOrder {
  import opened Entities
  import opened Ordering
  import opened Stable

  // ---- Sorting by a partial order ---------------------------------------------------------

  ghost predicate StrictPartialOrder<T(!new)>(less: (T, T) -> bool) {
    && (forall x, y :: less(x, y) ==> !less(y, x))
    && (forall x, y, z :: less(x, y) && less(y, z) ==> less(x, z))
  }

  ghost predicate Comparable<T(!new)>(xs: seq<T>, less: (T, T) -> bool) {
    forall x, y | x in xs && y in xs && x != y :: less(x, y) || less(y, x)
  }

  function Only<T(==)>(x: T, y: T): T -> seq<T> {
    (z: T) => if z == x || z == y then [z] else []
  }

  predicate Incomparable<T>(less: (T, T) -> bool, x: T, y: T) {
    !less(x, y) && !less(y, x) && !less(x, x) && !less(y, y)
  }

  // Inserting never moves one of two incomparable elements past the other, so
  // sorting leaves their order as it was.
  lemma {:induction false} InsertKeepsPair<T>(xs: seq<T>, z: T, less: (T, T) -> bool, x: T, y: T)
    requires Incomparable(less, x, y)
    ensures FlatMap(InsertLast(xs, z, less), Only(x, y)) == FlatMap(xs, Only(x, y)) + Only(x, y)(z)
  {
    var f := Only(x, y);
    if xs == [] || !less(z, xs[|xs| - 1]) {
      FlatMapLast(xs, z, f);
    } else {
      var init, last := xs[..|xs| - 1], xs[|xs| - 1];
      InsertKeepsPair(init, z, less, x, y);
      FlatMapLast(InsertLast(init, z, less), last, f);
      assert f(z) == [] || f(last) == [];
      SwapNothing(FlatMap(init, f), f(z), f(last));
    }
  }

  lemma FlatMapLast<T, U>(xs: seq<T>, z: T, f: T -> seq<U>)
    ensures FlatMap(xs + [z], f) == FlatMap(xs, f) + f(z)
  {
    assert (xs + [z])[..|xs|] == xs;
  }

  lemma SwapNothing<T>(a: seq<T>, b: seq<T>, c: seq<T>)
    requires b == [] || c == []
    ensures a + b + c == a + c + b
  {
  }

  lemma {:induction false} SortKeepsPair<T>(xs: seq<T>, less: (T, T) -> bool, x: T, y: T)
    requires Incomparable(less, x, y)
    ensures FlatMap(StableSort(xs, less), Only(x, y)) == FlatMap(xs, Only(x, y))
  {
    if xs != [] {
      SortKeepsPair(xs[..|xs| - 1], less, x, y);
      InsertKeepsPair(StableSort(xs[..|xs| - 1], less), xs[|xs| - 1], less, x, y);
    }
  }

  lemma FirstOfPair<T>(rest: seq<T>, u: T, x: T, y: T)
    requires u == x || u == y
    ensures FlatMap([u] + rest, Only(x, y)) == [u] + FlatMap(rest, Only(x, y))
  {
    FlatMapAppend([u], rest, Only(x, y));
    FlatMapOne(u, Only(x, y));
  }

  // Two incomparable elements come out in the order they went in.
  lemma IncomparableOrderStays<T>(xs: seq<T>, ys: seq<T>, less: (T, T) -> bool, x: T, y: T)
    requires Incomparable(less, x, y) && x != y
    ensures StableSort([x] + xs, less) != StableSort([y] + ys, less)
  {
    var a, b := [x] + xs, [y] + ys;
    SortKeepsPair(a, less, x, y);
    SortKeepsPair(b, less, x, y);
    FirstOfPair(xs, x, x, y);
    FirstOfPair(ys, y, x, y);
    assert FlatMap(a, Only(x, y))[0] == x && FlatMap(b, Only(x, y))[0] == y;
  }

  // Sorting by a strict partial order gives the same list for every order of
  // the input exactly when any two different elements are comparable.
  lemma SortCanonicalIff<T(!new)>(xs: seq<T>, less: (T, T) -> bool)
    requires StrictPartialOrder(less)
    ensures (forall ys | multiset(ys) == multiset(xs) :: StableSort(ys, less) == StableSort(xs, less)) <==>
              Comparable(xs, less)
  {
    if Comparable(xs, less) {
      forall ys | multiset(ys) == multiset(xs)
        ensures StableSort(ys, less) == StableSort(xs, less)
      {
        ComparableSortsAlike(xs, ys, less);
      }
    } else {
      var x, y :| x in xs && y in xs && x != y && !less(x, y) && !less(y, x);
      var rest := TakeOut(xs, x, y);
      IncomparableOrderStays([y] + rest, [x] + rest, less, x, y);
      UpFront(xs, x, y, rest);
    }
  }

  lemma ComparableSortsAlike<T(!new)>(xs: seq<T>, ys: seq<T>, less: (T, T) -> bool)
    requires StrictPartialOrder(less) && Comparable(xs, less) && multiset(ys) == multiset(xs)
    ensures StableSort(ys, less) == StableSort(xs, less)
  {
    SameMembers(ys, xs);
    ComparableAscends(xs, less);
    ComparableAscends(ys, less);
    SortPermutes(xs, less);
    SortPermutes(ys, less);
    SameMembers(StableSort(xs, less), xs);
    AscendingUnique(StableSort(xs, less), StableSort(ys, less), less);
  }

  lemma ComparableAscends<T(!new)>(xs: seq<T>, less: (T, T) -> bool)
    requires StrictPartialOrder(less) && Comparable(xs, less)
    ensures Ascending(StableSort(xs, less), less)
  {
    forall x, y, z | x in xs && y in xs && z in xs && less(x, z)
      ensures less(x, y) || less(y, z)
    {
      assert x == y || less(x, y) || less(y, x);
    }
    SortAscendingOn(xs, less, xs);
  }

  lemma BindLessIsPartial()
    ensures StrictPartialOrder(BindLess())
  {
    forall x, y
      ensures BindLess()(x, y) ==> !BindLess()(y, x)
    {
      LessTotal(x.clusterName, y.clusterName);
    }
    forall x, y, z | BindLess()(x, y) && BindLess()(y, z)
      ensures BindLess()(x, z)
    {
      LessTransitive(x.clusterName, y.clusterName, z.clusterName);
      LessTransitive(x.serverAddr, y.serverAddr, z.serverAddr);
    }
  }

  // A strict partial order, but no strict weak one: c is incomparable with both a
  // and b, yet a precedes b.
  lemma BindOrderIsNotWeak()
    ensures StrictPartialOrder(BindLess()) && !StrictWeakOrder(BindLess())
  {
    BindLessIsPartial();
    var a, b, c := RawBind("a", "1", None), RawBind("b", "2", None), RawBind("c", "0", None);
    assert BindLess()(a, b) && !BindLess()(a, c) && !BindLess()(c, b);
  }

  // ---- The binds of a parser state -----------------------------------------------------------

  // The binds of one cluster stay together, in the order of its servers.
  function Binds(clusters: seq<ParserCluster>): seq<RawBind> {
    FlatMap(clusters, BindsOf())
  }

  function ClusterKey(): ParserCluster -> string { (c: ParserCluster) => c.cluster.Name() }

  // Every bind of c precedes every bind of d.
  predicate BindsPrecede(c: ParserCluster, d: ParserCluster) {
    forall x, y | x in c.servers && y in d.servers :: Less(x.Name(), y.Name())
  }

  // Addresses are in the order of the names of their clusters.
  ghost predicate Aligned(clusters: seq<ParserCluster>) {
    forall c, d | c in clusters && d in clusters && Less(ClusterKey()(c), ClusterKey()(d)) :: BindsPrecede(c, d)
  }

  lemma BindOf(c: ParserCluster, b: RawBind) returns (x: Entity)
    requires b in BindsOf()(c)
    ensures x in c.servers && b == RawBind(ClusterKey()(c), x.Name(), None)
  {
    var i :| 0 <= i < |BindsOf()(c)| && BindsOf()(c)[i] == b;
    x := c.servers[i];
  }

  lemma {:induction false} InsertBetween<T>(left: seq<T>, right: seq<T>, x: T, less: (T, T) -> bool)
    requires forall y | y in right :: less(x, y)
    requires left == [] || !less(x, left[|left| - 1])
    ensures InsertLast(left + right, x, less) == left + [x] + right
  {
    if right == [] {
      assert left + right == left && left + [x] + right == left + [x];
    } else {
      var init, last := right[..|right| - 1], right[|right| - 1];
      InsertBetween(left, init, x, less);
      assert (left + right)[..|left + right| - 1] == left + init && (left + right)[|left + right| - 1] == last;
      assert right == init + [last];
    }
  }

  // x precedes nothing on its left and everything on its right.
  ghost predicate Fits<T>(x: T, left: seq<T>, right: seq<T>, less: (T, T) -> bool) {
    && (forall i | 0 <= i < |left| :: !less(x, left[i]))
    && (forall y | y in right :: less(x, y))
  }

  // A block of elements that do not precede each other goes in together.
  lemma {:induction false} InsertBlock<T>(xs: seq<T>, block: seq<T>, n: nat, left: seq<T>, right: seq<T>,
                                          less: (T, T) -> bool)
    requires StableSort(xs, less) == left + right && n <= |block|
    requires forall i | 0 <= i < |block| :: Fits(block[i], left + block, right, less)
    ensures StableSort(xs + block[..n], less) == left + block[..n] + right
  {
    if n == 0 {
      assert xs + block[..n] == xs && left + block[..n] == left;
    } else {
      var x, before := block[n - 1], left + block[..n - 1];
      InsertBlock(xs, block, n - 1, left, right, less);
      assert block[..n] == block[..n - 1] + [x];
      SortLast(xs + block[..n - 1], x, less);
      assert xs + block[..n] == xs + block[..n - 1] + [x];
      assert before != [] ==> before[|before| - 1] == (left + block)[|before| - 1];
      InsertBetween(before, right, x, less);
      assert before + [x] == left + block[..n];
    }
  }

  lemma SortLast<T>(xs: seq<T>, x: T, less: (T, T) -> bool)
    ensures StableSort(xs + [x], less) == InsertLast(StableSort(xs, less), x, less)
  {
    assert (xs + [x])[..|xs|] == xs;
  }

  // Where an element goes.
  lemma {:induction false} InsertSplits<T>(xs: seq<T>, z: T, less: (T, T) -> bool) returns (left: seq<T>, right: seq<T>)
    ensures xs == left + right && InsertLast(xs, z, less) == left + [z] + right
    ensures forall y | y in right :: less(z, y)
  {
    if xs == [] || !less(z, xs[|xs| - 1]) {
      left, right := xs, [];
    } else {
      left, right := InsertSplits(xs[..|xs| - 1], z, less);
      right := right + [xs[|xs| - 1]];
    }
  }

  // The sorted clusters, and a further one among them.
  lemma SplitByName(clusters: seq<ParserCluster>, z: ParserCluster)
    returns (left: seq<ParserCluster>, right: seq<ParserCluster>)
    ensures StableSort(clusters, ByKey(ClusterKey())) == left + right
    ensures StableSort(clusters + [z], ByKey(ClusterKey())) == left + [z] + right
    ensures forall y | y in right :: y in clusters && Less(ClusterKey()(z), ClusterKey()(y))
    ensures forall y | y in left :: y in clusters && !Less(ClusterKey()(z), ClusterKey()(y))
  {
    var less, sorted := ByKey(ClusterKey()), StableSort(clusters, ByKey(ClusterKey()));
    assert (clusters + [z])[..|clusters|] == clusters;
    left, right := InsertSplits(sorted, z, less);
    ByKeyIsStrictWeak(ClusterKey());
    SortAscending(clusters + [z], less);
    var all := left + [z] + right;
    forall y | y in left
      ensures !less(z, y)
    {
      var i :| 0 <= i < |left| && left[i] == y;
      assert all[i] == y && all[|left|] == z;
    }
    SortPermutes(clusters, less);
    SameMembers(sorted, clusters);
  }

  // The binds of a cluster go between those of the clusters before and after it.
  lemma BindFits(z: ParserCluster, left: seq<ParserCluster>, right: seq<ParserCluster>, x: RawBind)
    requires forall d | d in left :: !Less(ClusterKey()(z), ClusterKey()(d))
    requires forall d | d in right :: Less(ClusterKey()(z), ClusterKey()(d)) && BindsPrecede(z, d)
    requires x in BindsOf()(z)
    ensures Fits(x, Binds(left) + BindsOf()(z), Binds(right), BindLess())
  {
    var all := Binds(left) + BindsOf()(z);
    var p := BindOf(z, x);
    LessTotal(ClusterKey()(z), ClusterKey()(z));
    forall i | 0 <= i < |all|
      ensures !BindLess()(x, all[i])
    {
      if i < |Binds(left)| {
        var k := InFlatMap(left, BindsOf(), all[i]);
        var q := BindOf(left[k], all[i]);
      } else {
        var q := BindOf(z, all[i]);
      }
    }
    forall y | y in Binds(right)
      ensures BindLess()(x, y)
    {
      var k := InFlatMap(right, BindsOf(), y);
      var q := BindOf(right[k], y);
    }
  }

  // Sorting the binds is then sorting the clusters.
  lemma {:induction false} AlignedSorts(clusters: seq<ParserCluster>)
    requires Aligned(clusters)
    ensures StableSort(Binds(clusters), BindLess()) == Binds(StableSort(clusters, ByKey(ClusterKey())))
  {
    if clusters != [] {
      var init, z := clusters[..|clusters| - 1], clusters[|clusters| - 1];
      assert clusters == init + [z];
      AlignedSorts(init);
      var left, right := SplitByName(init, z);
      forall d | d in right
        ensures BindsPrecede(z, d)
      {
        assert d in clusters && z in clusters;
      }
      var block := BindsOf()(z);
      forall i | 0 <= i < |block|
        ensures Fits(block[i], Binds(left) + block, Binds(right), BindLess())
      {
        BindFits(z, left, right, block[i]);
      }
      FlatMapAppend(left, right, BindsOf());
      InsertBlock(Binds(init), block, |block|, Binds(left), Binds(right), BindLess());
      assert block[..|block|] == block;
      FlatMapAround(left, z, right, BindsOf());
    }
  }

  // Two binds of different clusters that are not comparable come out in the order
  // of their clusters.
  lemma CrossOrderStays(c: ParserCluster, d: ParserCluster, rest: seq<ParserCluster>, a: RawBind, b: RawBind)
    requires a in BindsOf()(c) && b in BindsOf()(d) && Incomparable(BindLess(), a, b)
    requires ClusterKey()(c) != ClusterKey()(d)
    ensures StableSort(Binds([c] + ([d] + rest)), BindLess()) != StableSort(Binds([d] + ([c] + rest)), BindLess())
  {
    var xs, ys := Binds([c] + ([d] + rest)), Binds([d] + ([c] + rest));
    SortKeepsPair(xs, BindLess(), a, b);
    SortKeepsPair(ys, BindLess(), a, b);
    FirstFromFirst(c, [d] + rest, a, b, a);
    FirstFromFirst(d, [c] + rest, a, b, b);
    var p := BindOf(c, a);
    var q := BindOf(d, b);
  }

  // Of the pair, the first in the list is the one of the first cluster.
  lemma FirstFromFirst(c: ParserCluster, rest: seq<ParserCluster>, a: RawBind, b: RawBind, u: RawBind)
    requires u in BindsOf()(c) && (u == a || u == b)
    requires forall v | v in {a, b} && v != u :: v.clusterName != ClusterKey()(c)
    ensures FlatMap(Binds([c] + rest), Only(a, b)) != []
    ensures FlatMap(Binds([c] + rest), Only(a, b))[0] == u
  {
    FlatMapAppend([c], rest, BindsOf());
    FlatMapOne(c, BindsOf());
    forall v | v in BindsOf()(c)
      ensures Only(a, b)(v) == [] || Only(a, b)(v) == [u]
    {
      var x := BindOf(c, v);
    }
    FirstKept(BindsOf()(c), Binds(rest), Only(a, b), u);
  }

  lemma FirstKept<T>(xs: seq<T>, ys: seq<T>, f: T -> seq<T>, u: T)
    requires u in xs && f(u) == [u] && forall v | v in xs :: f(v) == [] || f(v) == [u]
    ensures FlatMap(xs + ys, f) != [] && FlatMap(xs + ys, f)[0] == u
  {
    FlatMapAppend(xs, ys, f);
    var k :| 0 <= k < |xs| && xs[k] == u;
    FlatMapHas(xs, f, k, u);
    var i := InFlatMap(xs, f, FlatMap(xs, f)[0]);
    assert f(xs[i]) == [u];
  }

  // ---- The order as a whole ------------------------------------------------------------------

  // toStable gives one raw target for every order the parser may produce exactly
  // when the addresses of any two clusters are in the order of the clusters' names.
  lemma BindOrderCanonicalIff(s: ParserState)
    requires Distinct(s)
    ensures (forall t, raw, other | Permuted(s, t) && IsStable(s, raw) && IsStable(t, other) :: raw == other) <==>
              Aligned(s.clusters)
  {
    if Aligned(s.clusters) {
      forall t, raw, other | Permuted(s, t) && IsStable(s, raw) && IsStable(t, other)
        ensures raw == other
      {
        AlignedIsCanonical(s, t, raw, other);
      }
    } else {
      var t, raw, other := SomeOrderDiffers(s);
      assert Permuted(s, t) && IsStable(s, raw) && IsStable(t, other) && raw != other;
    }
  }

  lemma AlignedIsCanonical(s: ParserState, t: ParserState, raw: RawState, other: RawState)
    requires Distinct(s) && Permuted(s, t) && IsStable(s, raw) && IsStable(t, other) && Aligned(s.clusters)
    ensures raw == other
  {
    ToStableCanonical(s, t, raw, other);
    SameMembers(s.clusters, t.clusters);
    AlignedSorts(s.clusters);
    AlignedSorts(t.clusters);
    SortCanonical(s.clusters, t.clusters, ClusterKey());
  }

  // Otherwise two binds show in which order their clusters came.
  lemma SomeOrderDiffers(s: ParserState) returns (t: ParserState, raw: RawState, other: RawState)
    requires Distinct(s) && !Aligned(s.clusters)
    ensures Permuted(s, t) && IsStable(s, raw) && IsStable(t, other) && raw.binds != other.binds
  {
    var others := OtherClusters(s.clusters);
    t := s.(clusters := others);
    raw := StableExists(s);
    other := StableExists(t);
  }

  lemma OtherClusters(clusters: seq<ParserCluster>) returns (others: seq<ParserCluster>)
    requires !Aligned(clusters)
    ensures multiset(others) == multiset(clusters)
    ensures StableSort(Binds(others), BindLess()) != StableSort(Binds(clusters), BindLess())
  {
    var c, d :| c in clusters && d in clusters && Less(ClusterKey()(c), ClusterKey()(d)) && !BindsPrecede(c, d);
    var x, y :| x in c.servers && y in d.servers && !Less(x.Name(), y.Name());
    LessTotal(ClusterKey()(c), ClusterKey()(d));
    var rest := TakeOut(clusters, c, d);
    UpFront(clusters, c, d, rest);
    CrossBinds(c, d, rest, x, y);
    others := [c] + ([d] + rest);
    if StableSort(Binds(others), BindLess()) == StableSort(Binds(clusters), BindLess()) {
      others := [d] + ([c] + rest);
    }
  }

  lemma CrossBinds(c: ParserCluster, d: ParserCluster, rest: seq<ParserCluster>, x: Entity, y: Entity)
    requires Less(ClusterKey()(c), ClusterKey()(d)) && x in c.servers && y in d.servers && !Less(x.Name(), y.Name())
    ensures StableSort(Binds([c] + ([d] + rest)), BindLess()) != StableSort(Binds([d] + ([c] + rest)), BindLess())
  {
    var i :| 0 <= i < |c.servers| && c.servers[i] == x;
    var j :| 0 <= j < |d.servers| && d.servers[j] == y;
    var a, b := BindsOf()(c)[i], BindsOf()(d)[j];
    LessTotal(a.clusterName, b.clusterName);
    LessTotal(a.clusterName, a.clusterName);
    LessTotal(b.clusterName, b.clusterName);
    CrossOrderStays(c, d, rest, a, b);
  }

  lemma {:induction false} SomeVisit(m: map<string, Proxy>, keys: set<string>) returns (names: seq<string>)
    requires keys <= m.Keys
    ensures forall k :: k in keys <==> k in names
    ensures forall i, j | 0 <= i < j < |names| :: names[i] != names[j]
    decreases keys
  {
    if keys == {} {
      names := [];
    } else {
      var k :| k in keys;
      names := SomeVisit(m, keys - {k});
      names := names + [k];
    }
  }

  lemma {:induction false} ListedExists(apis: seq<ParserAPI>) returns (listed: seq<RawAPI>)
    ensures Listed(listed, apis)
  {
    if apis == [] {
      listed := [];
    } else {
      var init, a := apis[..|apis| - 1], apis[|apis| - 1];
      listed := ListedExists(init);
      var names := SomeVisit(a.proxies, a.proxies.Keys);
      var proxies := StableSort(Pick(names, a.proxies), ByKey(ProxyKey()));
      assert Visits(names, a.proxies);
      assert SortedProxies(proxies, a.proxies);
      listed := listed + [RawAPI(a.api, proxies)];
      assert forall i | 0 <= i < |init| :: apis[i] == init[i];
    }
  }

  lemma StableExists(s: ParserState) returns (raw: RawState)
    ensures IsStable(s, raw)
  {
    var listed := ListedExists(s.apis);
    raw := RawState(
      StableSort(listed, ByKey(APIKey())),
      StableSort(s.servers, ByKey(NameKey())),
      StableSort(FlatMap(s.clusters, ClusterOf()), ByKey(NameKey())),
      StableSort(Binds(s.clusters), BindLess()),
      StableSort(s.routings, ByKey(RoutingKey())));
  }

  // Two clusters whose binds come out in the order of the clusters.
  lemma BindOrderDependsOnInput(c: ParserCluster, d: ParserCluster) returns (s: ParserState, t: ParserState)
    requires c == ParserCluster(Cluster(0, "a", "", ""), [Server(0, "1", "", "")])
    requires d == ParserCluster(Cluster(0, "b", "", ""), [Server(0, "0", "", "")])
    ensures Distinct(s) && Permuted(s, t) && s.clusters == [c] + [d] && t.clusters == [d] + [c]
    ensures forall raw, other | IsStable(s, raw) && IsStable(t, other) :: raw.binds != other.binds
  {
    s := ParserState([], [], [c] + [d], []);
    t := s.(clusters := [d] + [c]);
    assert [d] + [] == [d] && [c] + [] == [c];
    CrossBinds(c, d, [], c.servers[0], d.servers[0]);
  }
}
