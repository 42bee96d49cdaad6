// The database updated in place, and the construction of a state from lists.
module Collections {
  import opened Entities
  import opened Store

  datatype Index = NameIndex | IdIndex

  // The indexes a table is searched by, in order.
  function IndexesOf(kind: Kind): seq<Index> {
    if kind.BindKind? then [IdIndex] else [NameIndex, IdIndex]
  }

  function First(db: DB, index: Index, row: Ref): Option<Entity> {
    if index.NameIndex? then Find(db.names, row) else Find(db.ids, row)
  }

  class StateDB {
    var ids: map<Ref, Entity>
    var names: map<Ref, Entity>

    function Value(): DB
      reads this
    {
      DB(ids, names)
    }

    constructor ()
      ensures Value() == EMPTY
    {
      ids, names := map[], map[];
    }

    method MultiIndexLookup(kind: Kind, text: string) returns (found: Option<Entity>)
      ensures found == Lookup(Value(), kind, text)
    {
      var indexes := IndexesOf(kind);
      var i := 0;
      while i < |indexes|
        invariant i <= |indexes|
        invariant forall k | 0 <= k < i :: First(Value(), indexes[k], Ref(kind, text)).None?
      {
        found := First(Value(), indexes[i], Ref(kind, text));
        if found.Some? {
          assert i == 0 || (i == 1 && First(Value(), indexes[0], Ref(kind, text)).None?);
          return;
        }
        i := i + 1;
      }
      assert First(Value(), indexes[0], Ref(kind, text)).None?;
      assert First(Value(), indexes[|indexes| - 1], Ref(kind, text)).None?;
      return None;
    }

    method Get(kind: Kind, nameOrID: string) returns (r: Result<Entity>)
      ensures r == Store.Get(Value(), kind, nameOrID)
    {
      if nameOrID == "" {
        return Err(IDRequired);
      }
      var found := MultiIndexLookup(kind, nameOrID);
      r := if found.Some? then Ok(found.value) else Err(NotFound);
    }

    method Commit(txn: DB)
      modifies this
      ensures Value() == txn
    {
      ids, names := txn.ids, txn.names;
    }

    // A failed operation leaves the database as it was.
    method Add(e: Entity) returns (err: Option<StoreError>)
      modifies this
      ensures match Store.Add(old(Value()), e)
              case Ok(db) => err == None && Value() == db
              case Err(why) => err == Some(why) && Value() == old(Value())
    {
      if !e.HasId() {
        return Some(IDRequired);
      }
      var found := MultiIndexLookup(e.Kind(), e.Key());
      if found.Some? {
        return Some(AlreadyExists);
      }
      Commit(InsertRow(Value(), e));
      return None;
    }

    method Update(e: Entity) returns (err: Option<StoreError>)
      modifies this
      ensures match Store.Update(old(Value()), e)
              case Ok(db) => err == None && Value() == db
              case Err(why) => err == Some(why) && Value() == old(Value())
    {
      if e.Bind? || !e.HasId() {
        return Some(IDRequired);
      }
      var found := MultiIndexLookup(e.Kind(), e.Key());
      if found.None? {
        return Some(NotFound);
      }
      var txn := DeleteRow(Value(), found.value);
      Commit(InsertRow(txn, e));
      return None;
    }

    method Delete(kind: Kind, nameOrID: string) returns (err: Option<StoreError>)
      modifies this
      ensures match Store.Delete(old(Value()), kind, nameOrID)
              case Ok(db) => err == None && Value() == db
              case Err(why) => err == Some(why) && Value() == old(Value())
    {
      if nameOrID == "" {
        return Some(IDRequired);
      }
      var found := MultiIndexLookup(kind, nameOrID);
      if found.None? {
        return Some(NotFound);
      }
      Commit(DeleteRow(Value(), found.value));
      return None;
    }

    method GetAll(kind: Kind) returns (rows: seq<Entity>)
      requires Indexed(Value())
      ensures Lists(rows, Value(), kind)
    {
      rows := [];
      var left := set r | r in ids && r.kind == kind;
      while left != {}
        invariant left <= ids.Keys
        invariant forall r | r in left :: r.kind == kind && ids[r] !in rows
        invariant forall i | 0 <= i < |rows| :: rows[i].Kind() == kind && Find(ids, rows[i].Row()) == Some(rows[i])
        invariant forall i, j | 0 <= i < j < |rows| :: rows[i].Row() != rows[j].Row()
        invariant forall r | r in ids && r.kind == kind && r !in left :: ids[r] in rows
        decreases left
      {
        var r :| r in left;
        assert ids[r].Row() == r;
        rows := rows + [ids[r]];
        left := left - {r};
      }
    }
  }

  // ---- state.Get -----------------------------------------------------------------

  // Adds rows in order and stops at the first error; only a server that is
  // already there is passed over.
  function AddAll(db: DB, rows: seq<Entity>): Result<DB> {
    if rows == [] then Ok(db)
    else
      var row := rows[|rows| - 1];
      match AddAll(db, rows[..|rows| - 1])
      case Err(why) => Err(why)
      case Ok(soFar) =>
        match Store.Add(soFar, row)
        case Ok(next) => Ok(next)
        case Err(why) => if row.Server? && why == AlreadyExists then Ok(soFar) else Err(why)
  }

  lemma {:induction false} AddAllAppend(db: DB, xs: seq<Entity>, ys: seq<Entity>)
    ensures AddAll(db, xs + ys)
         == match AddAll(db, xs) { case Ok(mid) => AddAll(mid, ys) case Err(why) => Err(why) }
  {
    if ys == [] {
      assert xs + ys == xs;
    } else {
      assert (xs + ys)[..|xs + ys| - 1] == xs + ys[..|ys| - 1];
      AddAllAppend(db, xs, ys[..|ys| - 1]);
    }
  }

  lemma AddAllNext(db: DB, rows: seq<Entity>, i: nat)
    requires i < |rows| && AddAll(db, rows[..i]).Ok?
    ensures AddAll(db, rows[..i + 1])
         == match Store.Add(AddAll(db, rows[..i]).value, rows[i])
            case Ok(next) => Ok(next)
            case Err(why) => if rows[i].Server? && why == AlreadyExists then AddAll(db, rows[..i]) else Err(why)
  {
    assert rows[..i + 1][..i] == rows[..i];
  }

  method AddList(state: StateDB, rows: seq<Entity>) returns (err: Option<StoreError>)
    modifies state
    ensures match AddAll(old(state.Value()), rows)
            case Ok(db) => err == None && state.Value() == db
            case Err(why) => err == Some(why)
  {
    var i := 0;
    while i < |rows|
      invariant i <= |rows|
      invariant AddAll(old(state.Value()), rows[..i]) == Ok(state.Value())
    {
      AddAllNext(old(state.Value()), rows, i);
      err := state.Add(rows[i]);
      if err.Some? && !(rows[i].Server? && err.value == AlreadyExists) {
        FirstErrorStays(old(state.Value()), rows, i + 1);
        return;
      }
      i := i + 1;
    }
    assert rows[..i] == rows;
    return None;
  }

  lemma FirstErrorStays(db: DB, rows: seq<Entity>, n: nat)
    requires n <= |rows| && AddAll(db, rows[..n]).Err?
    ensures AddAll(db, rows) == AddAll(db, rows[..n])
  {
    assert rows == rows[..n] + rows[n..];
    AddAllAppend(db, rows[..n], rows[n..]);
  }

  // Builds a state from raw lists.
  method BuildState(apis: seq<Entity>, routings: seq<Entity>, clusters: seq<Entity>, servers: seq<Entity>,
                    binds: seq<Entity>)
    returns (state: StateDB, err: Option<StoreError>)
    ensures match AddAll(EMPTY, apis + routings + clusters + servers + binds)
            case Ok(db) => err == None && state.Value() == db
            case Err(why) => err == Some(why)
  {
    state := new StateDB();
    AddAllAppend(EMPTY, apis, routings);
    AddAllAppend(EMPTY, apis + routings, clusters);
    AddAllAppend(EMPTY, apis + routings + clusters, servers);
    AddAllAppend(EMPTY, apis + routings + clusters + servers, binds);
    err := AddList(state, apis);
    if err.Some? { return; }
    err := AddList(state, routings);
    if err.Some? { return; }
    err := AddList(state, clusters);
    if err.Some? { return; }
    err := AddList(state, servers);
    if err.Some? { return; }
    err := AddList(state, binds);
  }

  // ---- When building succeeds ---------------------------------------------------------

  // y cannot be added after x: same id, or x is named like y's id.
  predicate Clash(x: Entity, y: Entity) {
    x.Kind() == y.Kind() && (x.Key() == y.Key() || x.Name() == y.Key())
  }

  ghost predicate Buildable(rows: seq<Entity>) {
    && (forall j | 0 <= j < |rows| :: rows[j].HasId())
    && (forall i, j | 0 <= i < j < |rows| && !rows[j].Server? :: !Clash(rows[i], rows[j]))
  }

  function RowsOf(rows: seq<Entity>): set<Ref> {
    set x | x in rows :: x.Row()
  }

  function NamesOf(rows: seq<Entity>): set<Ref> {
    set x | x in rows && x.Name() != "" :: x.NameRow()
  }

  lemma RowsOfAppend(rows: seq<Entity>, row: Entity)
    ensures RowsOf(rows + [row]) == RowsOf(rows) + {row.Row()}
    ensures NamesOf(rows + [row]) == NamesOf(rows) + if row.Name() == "" then {} else {row.NameRow()}
  {
  }

  // Adding to kinds other than servers skips nothing, so both indexes hold
  // exactly the keys and names of what was added.
  lemma {:induction false} TakenTexts(rows: seq<Entity>, r: Ref)
    requires AddAll(EMPTY, rows).Ok? && r.kind != ServerKind
    ensures r in AddAll(EMPTY, rows).value.ids <==> r in RowsOf(rows)
    ensures r in AddAll(EMPTY, rows).value.names <==> r in NamesOf(rows)
  {
    if rows != [] {
      var rest, row := rows[..|rows| - 1], rows[|rows| - 1];
      assert rows == rest + [row];
      TakenTexts(rest, r);
      RowsOfAppend(rest, row);
      TakenAfterAdd(AddAll(EMPTY, rest).value, row, r);
    }
  }

  lemma TakenAfterAdd(db: DB, row: Entity, r: Ref)
    ensures Store.Add(db, row).Ok? ==>
              && (r in Store.Add(db, row).value.ids <==> r in db.ids || r == row.Row())
              && (r in Store.Add(db, row).value.names <==> r in db.names || (row.Name() != "" && r == row.NameRow()))
  {
  }

  lemma ClashIsTaken(rest: seq<Entity>, row: Entity)
    requires row.HasId()
    ensures row.Row() in RowsOf(rest) || row.Row() in NamesOf(rest) <==>
              exists i :: 0 <= i < |rest| && Clash(rest[i], row)
  {
    KeyNonEmpty(row);
    if i :| 0 <= i < |rest| && Clash(rest[i], row) {
      assert rest[i] in rest;
    }
  }

  // Building succeeds exactly when every object has an id and no object but a
  // server clashes with an earlier one.
  lemma {:induction false} BuildSucceedsIff(rows: seq<Entity>)
    ensures AddAll(EMPTY, rows).Ok? <==> Buildable(rows)
  {
    if rows != [] {
      var rest, row := rows[..|rows| - 1], rows[|rows| - 1];
      assert rows == rest + [row];
      BuildSucceedsIff(rest);
      BuildableAppend(rest, row);
      if AddAll(EMPTY, rest).Ok? && row.HasId() && !row.Server? {
        TakenTexts(rest, row.Row());
        ClashIsTaken(rest, row);
        NoBindNames(rest, row.Row());
      }
    }
  }

  lemma NoBindNames(rows: seq<Entity>, r: Ref)
    ensures r.kind == BindKind ==> r !in NamesOf(rows)
  {
  }

  lemma BuildableAppend(rest: seq<Entity>, row: Entity)
    ensures Buildable(rest + [row]) <==>
              Buildable(rest) && row.HasId() && (row.Server? || !exists i :: 0 <= i < |rest| && Clash(rest[i], row))
  {
    var rows := rest + [row];
    assert rows[|rest|] == row;
    assert forall i | 0 <= i < |rest| :: rows[i] == rest[i];
  }

  // Of several servers with one id the first stays, as long as its id text is
  // nobody's address.
  lemma {:induction false} FirstServerWins(rows: seq<Entity>, i: nat)
    requires AddAll(EMPTY, rows).Ok? && i < |rows| && rows[i].Server?
    requires forall k | 0 <= k < i :: !Clash(rows[k], rows[i])
    ensures Find(AddAll(EMPTY, rows).value.ids, rows[i].Row()) == Some(rows[i])
  {
    var rest := rows[..|rows| - 1];
    assert rows == rest + [rows[|rows| - 1]];
    if i < |rest| {
      FirstServerWins(rest, i);
    } else {
      BuildSucceedsIff(rows);
      AtMostTaken(rest, rows[i].Row());
      ClashIsTaken(rest, rows[i]);
    }
  }

  lemma {:induction false} AtMostTaken(rows: seq<Entity>, r: Ref)
    requires AddAll(EMPTY, rows).Ok?
    ensures r in AddAll(EMPTY, rows).value.ids ==> r in RowsOf(rows)
    ensures r in AddAll(EMPTY, rows).value.names ==> r in NamesOf(rows)
  {
    if rows != [] {
      var rest, row := rows[..|rows| - 1], rows[|rows| - 1];
      assert rows == rest + [row];
      AtMostTaken(rest, r);
      RowsOfAppend(rest, row);
      TakenAfterAdd(AddAll(EMPTY, rest).value, row, r);
    }
  }

  // The database holds these rows and no others.
  ghost predicate Holds(m: map<Ref, Entity>, rows: seq<Entity>) {
    && (forall r | r in m :: m[r] in rows)
    && (forall x | x in rows :: Find(m, x.Row()) == Some(x))
  }

  lemma HoldsAppend(m: map<Ref, Entity>, rest: seq<Entity>, row: Entity)
    requires Holds(m, rest) && forall x | x in rest :: x.Row() != row.Row()
    ensures Holds(m[row.Row() := row], rest + [row])
  {
  }

  ghost predicate PairwiseApart(rows: seq<Entity>) {
    && (forall i | 0 <= i < |rows| :: rows[i].HasId())
    && (forall i, j | 0 <= i < j < |rows| :: Apart(rows[i], rows[j]) && rows[i].Row() != rows[j].Row())
  }

  // Rows that keep apart all get in, and the result is searchable.
  lemma {:induction false} BuildCoherent(rows: seq<Entity>)
    requires PairwiseApart(rows)
    ensures AddAll(EMPTY, rows).Ok? && Coherent(AddAll(EMPTY, rows).value)
    ensures Holds(AddAll(EMPTY, rows).value.ids, rows)
  {
    if rows != [] {
      var rest, row := rows[..|rows| - 1], rows[|rows| - 1];
      assert rows == rest + [row];
      BuildCoherent(rest);
      forall x | x in rest
        ensures Apart(x, row) && x.Row() != row.Row()
      {
        var i :| 0 <= i < |rest| && rest[i] == x;
        assert rows[i] == rest[i];
      }
      var db := AddAll(EMPTY, rest).value;
      AddApart(db, rest, row);
      HoldsAppend(db.ids, rest, row);
    }
  }

  lemma AddApart(db: DB, rest: seq<Entity>, row: Entity)
    requires Coherent(db) && row.HasId() && Holds(db.ids, rest)
    requires forall x | x in rest :: Apart(x, row) && x.Row() != row.Row()
    ensures Store.Add(db, row).Ok? && Coherent(Store.Add(db, row).value)
    ensures Store.Add(db, row).value.ids == db.ids[row.Row() := row]
  {
    AddEffect(db, row);
  }
}
