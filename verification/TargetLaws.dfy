// What resolving ids promises, and that the target so built is one the sync
// engine converges to.
module TargetLaws {
  import opened Entities
  import opened Decimal
  import opened Store
  import opened Stable
  import opened Collections
  import opened Target

  // ---- Assumptions -----------------------------------------------------------------

  // A name with a character that occurs in no id text. Addresses have ':' and
  // the names the parser generates have '.'.
  predicate Textual(s: string) {
    exists i :: 0 <= i < |s| && !IsDigit(s[i]) && s[i] != '-'
  }

  lemma TextualIsNoId(s: string, id: Id)
    requires Textual(s)
    ensures s != IdText(id)
  {
  }

  // The current state: searchable, and named like the parser names things.
  ghost predicate Ordinary(db: DB) {
    && Coherent(db)
    && (forall r | r in db.ids :: db.ids[r].Addressable() && (db.ids[r].Name() == "" || Textual(db.ids[r].Name())))
  }

  // What is assumed of the id generator, whose result the code reduces modulo
  // 20000000: its first n ids are distinct, nonzero and not in use.
  ghost predicate Fresh(db: DB, snow: nat -> Id, n: nat) {
    && (forall i: nat, j: nat | i < j < n :: snow(i) != snow(j))
    && (forall i: nat | i < n :: snow(i) != 0)
    && (forall i: nat, r | i < n && r in db.ids && !db.ids[r].Bind? :: snow(i) != db.ids[r].id)
  }

  // At most one id is drawn for each named object.
  function Draws(raw: RawState): nat {
    |raw.servers| + |raw.clusters| + |raw.apis| + |raw.routings|
  }

  // A list as the parser leaves it: one kind, no ids, distinct textual names.
  ghost predicate Plain(rows: seq<Entity>, kind: Kind) {
    && kind != BindKind
    && (forall i | 0 <= i < |rows| :: rows[i].Kind() == kind && rows[i].id == 0 && Textual(rows[i].Name()))
    && (forall i, j | 0 <= i < j < |rows| :: rows[i].Name() != rows[j].Name())
  }

  // ---- Ids of one list -----------------------------------------------------------------

  // The namesake's id, or one drawn from the generator between lo and hi.
  ghost predicate Resolves(db: DB, snow: nat -> Id, lo: nat, hi: nat, before: Entity, after: Entity) {
    && !before.Bind? && !after.Bind? && after == before.(id := after.id)
    && match Get(db, before.Kind(), before.Name())
       case Ok(found) => !found.Bind? && found.Name() == before.Name() && after.id == found.id
       case Err(_) => exists j: nat :: lo <= j < hi && after.id == snow(j)
  }

  // With a textual name Get finds the object of that name and nothing else.
  lemma GetFindsNamesake(db: DB, kind: Kind, name: string)
    requires Ordinary(db) && Textual(name) && kind != BindKind
    ensures Get(db, kind, name).Ok? ==>
              var e := Get(db, kind, name).value;
              !e.Bind? && e.Name() == name && e.Kind() == kind && Find(db.ids, e.Row()) == Some(e)
    ensures Get(db, kind, name).Err? ==>
              && Get(db, kind, name) == Err(NotFound)
              && forall r | r in db.ids && r.kind == kind :: db.ids[r].Name() != name
  {
    GetIsLinearSearch(db, kind, name);
    var found := Get(db, kind, name);
    if found.Ok? {
      var r :| r in db.ids && db.ids[r] == found.value;
      TextualIsNoId(name, found.value.id);
    }
  }

  lemma AssignOneResolves(db: DB, snow: nat -> Id, next: nat, e: Entity)
    requires Ordinary(db) && !e.Bind? && e.id == 0 && Textual(e.Name())
    ensures AssignOne(db, snow, next, e).Ok?
    ensures
      var step := AssignOne(db, snow, next, e).value;
      next <= step.1 <= next + 1 && Resolves(db, snow, next, step.1, e, step.0)
  {
    GetFindsNamesake(db, e.Kind(), e.Name());
  }

  lemma {:induction false} AssignResolves(db: DB, snow: nat -> Id, next: nat, rows: seq<Entity>, kind: Kind)
    requires Ordinary(db) && Plain(rows, kind)
    ensures AssignAll(db, snow, next, rows).Ok?
    ensures
      var done := AssignAll(db, snow, next, rows).value;
      && next <= done.next <= next + |rows|
      && forall i | 0 <= i < |rows| :: Resolves(db, snow, next, done.next, rows[i], done.rows[i])
  {
    if rows != [] {
      var init, e := rows[..|rows| - 1], rows[|rows| - 1];
      AssignResolves(db, snow, next, init, kind);
      var mid := AssignAll(db, snow, next, init).value;
      AssignOneResolves(db, snow, mid.next, e);
      var step := AssignOne(db, snow, mid.next, e).value;
      var done := AssignAll(db, snow, next, rows).value;
      assert done == Assignment(mid.rows + [step.0], step.1);
      forall i | 0 <= i < |rows|
        ensures Resolves(db, snow, next, done.next, rows[i], done.rows[i])
      {
        if i < |init| {
          assert Resolves(db, snow, next, mid.next, init[i], mid.rows[i]);
          ResolvesWithin(db, snow, next, mid.next, next, done.next, rows[i], done.rows[i]);
        } else {
          ResolvesWithin(db, snow, mid.next, done.next, next, done.next, e, step.0);
        }
      }
    }
  }

  lemma ResolvesWithin(db: DB, snow: nat -> Id, lo: nat, hi: nat, lo': nat, hi': nat, before: Entity, after: Entity)
    requires lo' <= lo && hi <= hi' && Resolves(db, snow, lo, hi, before, after)
    ensures Resolves(db, snow, lo', hi', before, after)
  {
  }

  // Distinct names get distinct ids.
  lemma {:induction false} AssignDistinct(db: DB, snow: nat -> Id, next: nat, rows: seq<Entity>, kind: Kind)
    requires Ordinary(db) && Plain(rows, kind) && Fresh(db, snow, next + |rows|)
    requires AssignAll(db, snow, next, rows).Ok?
    ensures forall i, j | 0 <= i < j < |rows| ::
              IdOf(AssignAll(db, snow, next, rows).value.rows[i]) != IdOf(AssignAll(db, snow, next, rows).value.rows[j])
  {
    if rows != [] {
      var init, e := rows[..|rows| - 1], rows[|rows| - 1];
      AssignResolves(db, snow, next, init, kind);
      AssignDistinct(db, snow, next, init, kind);
      var mid, done := AssignAll(db, snow, next, init).value, AssignAll(db, snow, next, rows).value;
      forall i | 0 <= i < |init|
        ensures IdOf(mid.rows[i]) != IdOf(done.rows[|init|])
      {
        assert rows[i] == init[i];
        assert Resolves(db, snow, next, mid.next, rows[i], mid.rows[i]);
        LastIdDiffers(db, snow, next, mid.next, rows[i], mid.rows[i], e);
      }
    }
  }

  lemma LastIdDiffers(db: DB, snow: nat -> Id, lo: nat, hi: nat, before: Entity, after: Entity, e: Entity)
    requires Ordinary(db) && Fresh(db, snow, hi + 1) && before.Kind() == e.Kind() && before.Name() != e.Name()
    requires Textual(before.Name()) && Textual(e.Name()) && !e.Bind? && e.id == 0
    requires Resolves(db, snow, lo, hi, before, after)
    ensures AssignOne(db, snow, hi, e).Ok? ==> IdOf(AssignOne(db, snow, hi, e).value.0) != after.id
  {
    GetFindsNamesake(db, e.Kind(), e.Name());
    GetFindsNamesake(db, e.Kind(), before.Name());
  }

  // Names new to Manba draw one id each, in order, so they get distinct ids
  // exactly when the generator does not repeat itself.
  lemma {:induction false} NewNamesDraw(db: DB, snow: nat -> Id, next: nat, rows: seq<Entity>, kind: Kind)
    requires Plain(rows, kind)
    requires forall i | 0 <= i < |rows| :: Get(db, kind, rows[i].Name()) == Err(NotFound)
    ensures AssignAll(db, snow, next, rows) == Ok(Assignment(Drawn(snow, next, rows), next + |rows|))
  {
    if rows != [] {
      var init, e := rows[..|rows| - 1], rows[|rows| - 1];
      NewNamesDraw(db, snow, next, init, kind);
      NewNameDraws(db, snow, next + |init|, e, kind);
      assert Drawn(snow, next, rows) == Drawn(snow, next, init) + [WithId(e, Draw(snow, next, |init|))];
    }
  }

  lemma NewNameDraws(db: DB, snow: nat -> Id, next: nat, e: Entity, kind: Kind)
    requires e.Kind() == kind && !e.Bind? && e.id == 0 && Get(db, kind, e.Name()) == Err(NotFound)
    ensures AssignOne(db, snow, next, e) == Ok((WithId(e, snow(next)), next + 1))
  {
  }

  // The rows with the ids drawn for them.
  function Drawn(snow: nat -> Id, next: nat, rows: seq<Entity>): (r: seq<Entity>)
    ensures |r| == |rows|
  {
    seq(|rows|, i requires 0 <= i < |rows| => WithId(rows[i], Draw(snow, next, i)))
  }

  lemma NewIdsDistinctIff(db: DB, snow: nat -> Id, next: nat, rows: seq<Entity>, kind: Kind)
    requires Plain(rows, kind)
    requires forall i | 0 <= i < |rows| :: Get(db, kind, rows[i].Name()) == Err(NotFound)
    ensures AssignAll(db, snow, next, rows).Ok?
    ensures
      var out := AssignAll(db, snow, next, rows).value.rows;
      (forall i: nat, j: nat | i < j < |rows| :: IdOf(out[i]) != IdOf(out[j])) <==>
      (forall i: nat, j: nat | i < j < |rows| :: Draw(snow, next, i) != Draw(snow, next, j))
  {
    NewNamesDraw(db, snow, next, rows, kind);
    forall i: nat | i < |rows|
      ensures IdOf(Drawn(snow, next, rows)[i]) == Draw(snow, next, i)
    {
      assert Drawn(snow, next, rows)[i] == WithId(rows[i], Draw(snow, next, i));
    }
  }

  // The i-th id drawn after `next` others.
  function Draw(snow: nat -> Id, next: nat, i: nat): Id {
    snow(next + i)
  }

  // ---- A list against the current state -----------------------------------------------------

  // A resolved object is told apart from every current object, or is the
  // current object of that name.
  lemma ResolvedFits(db: DB, snow: nat -> Id, lo: nat, hi: nat, before: Entity, after: Entity)
    requires Ordinary(db) && Fresh(db, snow, hi) && Textual(before.Name())
    requires !before.Bind? && Resolves(db, snow, lo, hi, before, after)
    ensures Fits(db, after) && after.HasId()
  {
    GetFindsNamesake(db, before.Kind(), before.Name());
    KeyNonEmpty(after);
    forall r | r in db.ids
      ensures Apart(db.ids[r], after)
    {
      var x := db.ids[r];
      if x.Kind() == after.Kind() {
        if x.Row() == after.Row() {
          RowDeterminesIds(x, after);
        } else {
          KeyIsNoName(x, after);
          NamesakeSharesRow(db, r, before, after);
        }
      }
    }
  }

  lemma KeyIsNoName(x: Entity, y: Entity)
    requires !x.Bind? && !y.Bind? && y.HasId() && Textual(y.Name())
    requires x.Name() == "" || Textual(x.Name())
    ensures x.Name() != y.Key() && y.Name() != x.Key()
  {
  }

  lemma NamesakeSharesRow(db: DB, r: Ref, before: Entity, after: Entity)
    requires Ordinary(db) && r in db.ids && db.ids[r].Kind() == before.Kind() && !before.Bind? && !after.Bind?
    requires after == before.(id := after.id) && Textual(before.Name())
    requires Get(db, before.Kind(), before.Name()).Ok? ==> after.id == IdOf(Get(db, before.Kind(), before.Name()).value)
    requires db.ids[r].Row() != after.Row()
    ensures db.ids[r].Name() != after.Name()
  {
  }

  ghost predicate Sound(db: DB, rows: seq<Entity>) {
    && PairwiseApart(rows)
    && (forall i | 0 <= i < |rows| :: Fits(db, rows[i]) && rows[i].Addressable())
  }

  lemma AssignSound(db: DB, snow: nat -> Id, next: nat, rows: seq<Entity>, kind: Kind, n: nat)
    requires Ordinary(db) && Fresh(db, snow, n) && next + |rows| <= n && Plain(rows, kind)
    ensures AssignAll(db, snow, next, rows).Ok? && AssignAll(db, snow, next, rows).value.next <= next + |rows|
    ensures Sound(db, AssignAll(db, snow, next, rows).value.rows)
    ensures NoBinds(AssignAll(db, snow, next, rows).value.rows)
  {
    AssignResolves(db, snow, next, rows, kind);
    AssignDistinct(db, snow, next, rows, kind);
    var done := AssignAll(db, snow, next, rows).value;
    forall i | 0 <= i < |rows|
      ensures Fits(db, done.rows[i]) && done.rows[i].HasId() && done.rows[i].Addressable()
    {
      ResolvedFits(db, snow, next, done.next, rows[i], done.rows[i]);
    }
    forall i, j | 0 <= i < j < |rows|
      ensures Apart(done.rows[i], done.rows[j]) && done.rows[i].Row() != done.rows[j].Row()
    {
      assert Resolves(db, snow, next, done.next, rows[i], done.rows[i]);
      assert Resolves(db, snow, next, done.next, rows[j], done.rows[j]);
      KeyIsNoName(done.rows[i], done.rows[j]);
      if done.rows[i].Row() == done.rows[j].Row() {
        RowDeterminesIds(done.rows[i], done.rows[j]);
      }
    }
  }

  predicate NoBinds(rows: seq<Entity>) {
    forall i | 0 <= i < |rows| :: !rows[i].Bind?
  }

  // Soundness depends only on kind, name and id, which later rewriting keeps.
  predicate SameHandles(rows: seq<Entity>, others: seq<Entity>) {
    && |others| == |rows|
    && forall i | 0 <= i < |rows| ::
         && others[i].Kind() == rows[i].Kind() && others[i].Name() == rows[i].Name()
         && others[i].Key() == rows[i].Key() && IdOf(others[i]) == IdOf(rows[i])
  }

  lemma SoundByHandles(db: DB, rows: seq<Entity>, others: seq<Entity>)
    requires Sound(db, rows) && NoBinds(rows) && SameHandles(rows, others)
    ensures Sound(db, others)
  {
  }

  lemma ResolvedHandles(raw: RawState, servers: seq<Entity>, clusters: seq<Entity>, apis: seq<Entity>,
                        routings: seq<Entity>)
    requires |apis| == |raw.apis| && |routings| == |raw.routings|
    ensures
      var out := Resolved(raw, servers, clusters, apis, routings);
      SameHandles(apis, APIsOf(out)) && SameHandles(routings, RoutingsOf(out))
  {
  }

  // ---- The whole target ------------------------------------------------------------------------

  // A raw target as toStable produces it from the parser's output.
  ghost predicate Presentable(raw: RawState) {
    && Plain(raw.servers, ServerKind)
    && Plain(raw.clusters, ClusterKind)
    && Plain(APIsOf(raw), APIKind)
    && Plain(RoutingsOf(raw), RoutingKind)
    && (forall b | b in raw.binds :: b.bind.None?)
  }

  // Every list of the resolved target is sound.
  lemma ResolvedSound(db: DB, snow: nat -> Id, raw: RawState)
    requires Ordinary(db) && Fresh(db, snow, Draws(raw)) && Presentable(raw)
    ensures SetIDs(db, snow, raw).Ok?
    ensures
      var out := SetIDs(db, snow, raw).value;
      && Sound(db, out.servers) && Sound(db, out.clusters)
      && Sound(db, APIsOf(out)) && Sound(db, RoutingsOf(out))
  {
    AssignSound(db, snow, 0, raw.servers, ServerKind, Draws(raw));
    var servers := AssignAll(db, snow, 0, raw.servers).value;
    AssignSound(db, snow, servers.next, raw.clusters, ClusterKind, Draws(raw));
    var clusters := AssignAll(db, snow, servers.next, raw.clusters).value;
    AssignSound(db, snow, clusters.next, APIsOf(raw), APIKind, Draws(raw));
    var apis := AssignAll(db, snow, clusters.next, APIsOf(raw)).value;
    AssignSound(db, snow, apis.next, RoutingsOf(raw), RoutingKind, Draws(raw));
    var routings := AssignAll(db, snow, apis.next, RoutingsOf(raw)).value;
    ResolvedHandles(raw, servers.rows, clusters.rows, apis.rows, routings.rows);
    var out := Resolved(raw, servers.rows, clusters.rows, apis.rows, routings.rows);
    SoundByHandles(db, apis.rows, APIsOf(out));
    SoundByHandles(db, routings.rows, RoutingsOf(out));
  }

  // ---- Filtering keeps order and soundness -----------------------------------------------------

  lemma {:induction false} FilterKeepsPairs<T(!new)>(xs: seq<T>, keep: T -> bool, apart: (T, T) -> bool)
    requires forall i, j | 0 <= i < j < |xs| :: apart(xs[i], xs[j])
    ensures forall i, j | 0 <= i < j < |Filter(xs, keep)| :: apart(Filter(xs, keep)[i], Filter(xs, keep)[j])
  {
    if xs != [] {
      var init, x := xs[..|xs| - 1], xs[|xs| - 1];
      FilterKeepsPairs(init, keep, apart);
      var ys := Filter(init, keep);
      forall i | 0 <= i < |ys|
        ensures apart(ys[i], x)
      {
        assert ys[i] in ys;
        var k :| 0 <= k < |init| && init[k] == ys[i];
        assert xs[k] == init[k];
      }
    }
  }

  function Differ<T>(of: T -> Entity): (T, T) -> bool {
    (x: T, y: T) => Apart(of(x), of(y)) && of(x).Row() != of(y).Row()
  }

  function Project<T>(xs: seq<T>, of: T -> Entity): (r: seq<Entity>)
    ensures |r| == |xs| && forall i | 0 <= i < |xs| :: r[i] == of(xs[i])
  {
    seq(|xs|, i requires 0 <= i < |xs| => of(xs[i]))
  }

  lemma FilterSound<T(!new)>(db: DB, xs: seq<T>, keep: T -> bool, of: T -> Entity)
    requires Sound(db, Project(xs, of))
    ensures Sound(db, Project(Filter(xs, keep), of))
  {
    var ys, rows := Filter(xs, keep), Project(xs, of);
    forall i, j | 0 <= i < j < |xs|
      ensures Differ(of)(xs[i], xs[j])
    {
      assert Apart(rows[i], rows[j]);
    }
    FilterKeepsPairs(xs, keep, Differ(of));
    forall i | 0 <= i < |ys|
      ensures Fits(db, of(ys[i])) && of(ys[i]).Addressable() && of(ys[i]).HasId()
    {
      assert ys[i] in ys;
      var k :| 0 <= k < |xs| && xs[k] == ys[i];
      assert rows[k] == of(ys[i]);
    }
    forall i, j | 0 <= i < j < |ys|
      ensures Apart(of(ys[i]), of(ys[j])) && of(ys[i]).Row() != of(ys[j]).Row()
    {
      assert Differ(of)(ys[i], ys[j]);
    }
  }

  lemma FilteredSound(db: DB, raw: RawState, valid: Entity -> bool)
    requires Sound(db, raw.servers) && Sound(db, raw.clusters)
    requires Sound(db, APIsOf(raw)) && Sound(db, RoutingsOf(raw))
    ensures
      var out := Filtered(raw, valid);
      && Sound(db, out.servers) && Sound(db, out.clusters)
      && Sound(db, APIsOf(out)) && Sound(db, RoutingsOf(out))
  {
    var out := Filtered(raw, valid);
    var self := (e: Entity) => e;
    assert Project(raw.servers, self) == raw.servers && Project(raw.clusters, self) == raw.clusters;
    FilterSound(db, raw.servers, valid, self);
    FilterSound(db, raw.clusters, valid, self);
    assert Project(out.servers, self) == out.servers && Project(out.clusters, self) == out.clusters;
    var api := (a: RawAPI) => a.api;
    assert Project(raw.apis, api) == APIsOf(raw);
    FilterSound(db, raw.apis, ValidAPI(valid), api);
    assert Project(out.apis, api) == APIsOf(out);
    var routing := (r: RawRouting) => r.routing;
    assert Project(raw.routings, routing) == RoutingsOf(raw);
    FilterSound(db, raw.routings, ValidRouting(valid), routing);
    assert Project(out.routings, routing) == RoutingsOf(out);
  }
}
