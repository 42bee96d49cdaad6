// The in-memory database behind ManbaState: one table per kind, a unique
// primary index over the id text, a unique secondary index over the name, and
// a listing of everything. This module gives the database as a value; module
// Collections updates it in place.
module Store {
  import opened Entities
  import Decimal

  datatype StoreError = IDRequired | NotFound | AlreadyExists

  datatype Result<+T> = Ok(value: T) | Err(error: StoreError)

  datatype DB = DB(ids: map<Ref, Entity>, names: map<Ref, Entity>)

  const EMPTY := DB(map[], map[])

  function Find<K, V>(m: map<K, V>, k: K): Option<V> {
    if k in m then Some(m[k]) else None
  }

  // ---- memdb ---------------------------------------------------------------

  // Inserting over an existing id first drops that row's old name entry. A
  // name already taken by another row is overwritten without complaint.
  function InsertRow(db: DB, e: Entity): DB {
    var kept :=
      if e.Row() in db.ids && db.ids[e.Row()].NameRow() != e.NameRow()
      then db.names - {db.ids[e.Row()].NameRow()} else db.names;
    DB(db.ids[e.Row() := e], if e.Name() == "" then kept else kept[e.NameRow() := e])
  }

  // Removes the row with e's id and whatever its name entry points at.
  function DeleteRow(db: DB, e: Entity): DB {
    if e.Row() in db.ids
    then DB(db.ids - {e.Row()}, db.names - {db.ids[e.Row()].NameRow()})
    else db
  }

  // multiIndexLookupUsingTxn over {"name", "id"}, or {"id"} for binds.
  function Lookup(db: DB, kind: Kind, text: string): Option<Entity> {
    if kind != BindKind && Ref(kind, text) in db.names then Some(db.names[Ref(kind, text)])
    else Find(db.ids, Ref(kind, text))
  }

  // ---- The collection operations -------------------------------------------

  function Get(db: DB, kind: Kind, text: string): Result<Entity> {
    if text == "" then Err(IDRequired)
    else match Lookup(db, kind, text)
         case None => Err(NotFound)
         case Some(e) => Ok(e)
  }

  function Add(db: DB, e: Entity): Result<DB> {
    if !e.HasId() then Err(IDRequired)
    else if Lookup(db, e.Kind(), e.Key()).Some? then Err(AlreadyExists)
    else Ok(InsertRow(db, e))
  }

  // A bind handed to Update by the differ carries no composite id yet, and
  // BindCollection.Update refuses it for that.
  function Update(db: DB, e: Entity): Result<DB> {
    if e.Bind? || !e.HasId() then Err(IDRequired)
    else match Lookup(db, e.Kind(), e.Key())
         case None => Err(NotFound)
         case Some(row) => Ok(InsertRow(DeleteRow(db, row), e))
  }

  function Delete(db: DB, kind: Kind, text: string): Result<DB> {
    if text == "" then Err(IDRequired)
    else match Lookup(db, kind, text)
         case None => Err(NotFound)
         case Some(row) => Ok(DeleteRow(db, row))
  }

  // Has no id yet: zero, or a zero on either side of a bind.
  predicate Unidentified(e: Entity) {
    match e
    case Bind(c, s) => c == 0 || s == 0
    case Server(id, _, _, _) => id == 0
    case Cluster(id, _, _, _) => id == 0
    case API(id, _, _, _, _) => id == 0
    case Routing(id, _, _, _, _, _) => id == 0
  }

  // What each operation refuses, and why.
  lemma RefusedIff(db: DB, e: Entity, kind: Kind, text: string)
    ensures Get(db, kind, text) == Err(IDRequired) <==> text == ""
    ensures Delete(db, kind, text) == Err(IDRequired) <==> text == ""
    ensures text != "" ==> (Delete(db, kind, text) == Err(NotFound) <==> Get(db, kind, text) == Err(NotFound))
    ensures Add(db, e) == Err(IDRequired) <==> Unidentified(e)
    ensures !Unidentified(e) ==> (Add(db, e) == Err(AlreadyExists) <==> Get(db, e.Kind(), e.Key()).Ok?)
    ensures Update(db, e) == Err(IDRequired) <==> e.Bind? || Unidentified(e)
    ensures !e.Bind? && !Unidentified(e) ==>
              (Update(db, e) == Err(NotFound) <==> Get(db, e.Kind(), e.Key()) == Err(NotFound))
  {
    KeyNonEmpty(e);
  }

  // GetAll promises every row of the kind once. Its order is left open, and
  // everything proved holds for every order.
  ghost predicate Lists(rows: seq<Entity>, db: DB, kind: Kind) {
    && (forall i | 0 <= i < |rows| :: rows[i].Kind() == kind && Find(db.ids, rows[i].Row()) == Some(rows[i]))
    && (forall i, j | 0 <= i < j < |rows| :: rows[i].Row() != rows[j].Row())
    && (forall r | r in db.ids && r.kind == kind :: db.ids[r] in rows)
  }

  // ---- What always holds of the two indexes ----------------------------------

  // Name entries never dangle and are filed under their own name.
  ghost predicate Indexed(db: DB) {
    && (forall r | r in db.ids :: db.ids[r].Row() == r && db.ids[r].HasId())
    && (forall r | r in db.names ::
          && db.names[r].NameRow() == r
          && r.text != ""
          && Find(db.ids, db.names[r].Row()) == Some(db.names[r]))
  }

  lemma InsertKeepsIndexed(db: DB, e: Entity)
    requires Indexed(db) && e.HasId()
    ensures Indexed(InsertRow(db, e))
  {
    var db' := InsertRow(db, e);
    forall r | r in db'.names
      ensures db'.names[r].NameRow() == r && Find(db'.ids, db'.names[r].Row()) == Some(db'.names[r])
    {
      if e.Name() == "" || r != e.NameRow() {
        assert r in db.names && db'.names[r] == db.names[r];
      }
    }
  }

  lemma DeleteKeepsIndexed(db: DB, e: Entity)
    requires Indexed(db)
    ensures Indexed(DeleteRow(db, e))
  {
  }

  // No operation, whatever its argument, lets a name entry dangle.
  lemma OperationsKeepIndexed(db: DB, e: Entity, kind: Kind, text: string)
    requires Indexed(db)
    ensures Add(db, e).Ok? ==> Indexed(Add(db, e).value)
    ensures Update(db, e).Ok? ==> Indexed(Update(db, e).value)
    ensures Delete(db, kind, text).Ok? ==> Indexed(Delete(db, kind, text).value)
  {
    if e.HasId() {
      InsertKeepsIndexed(db, e);
      var row := Lookup(db, e.Kind(), e.Key());
      if row.Some? {
        DeleteKeepsIndexed(db, row.value);
        InsertKeepsIndexed(DeleteRow(db, row.value), e);
      }
    }
    var row := Lookup(db, kind, text);
    if row.Some? {
      DeleteKeepsIndexed(db, row.value);
    }
  }

  // ---- When the indexes agree with a search of all rows ---------------------

  // x and y can sit in one table without one hiding the other.
  predicate Apart(x: Entity, y: Entity) {
    x.Kind() == y.Kind() ==>
      if x.Row() == y.Row() then x.Name() == y.Name()
      else x.Name() != y.Key() && y.Name() != x.Key() && (x.Name() == "" || x.Name() != y.Name())
  }

  ghost predicate Fits(db: DB, e: Entity) {
    forall r | r in db.ids :: Apart(db.ids[r], e)
  }

  // Has a name that is not simply its own id text.
  predicate Named(e: Entity) {
    e.Name() != "" && e.Name() != e.Key()
  }

  // No row hides another, and every name is in the name index.
  ghost predicate Coherent(db: DB) {
    && Indexed(db)
    && (forall r | r in db.ids :: Fits(db, db.ids[r]))
    && (forall r | r in db.ids && Named(db.ids[r]) :: db.ids[r].NameRow() in db.names)
  }

  // The reference: a row answers to its name and to its id text.
  predicate Answers(e: Entity, kind: Kind, text: string) {
    e.Kind() == kind && text != "" && (e.Name() == text || e.Key() == text)
  }

  // In a coherent database Get finds exactly the one row that answers.
  lemma GetIsLinearSearch(db: DB, kind: Kind, text: string)
    requires Coherent(db)
    ensures AgreesWithSearch(db, kind, text)
    ensures Get(db, kind, text).Ok? ==> Get(db, kind, text).value in db.ids.Values
  {
    var found := Get(db, kind, text);
    if found.Ok? {
      var e := found.value;
      assert Find(db.ids, e.Row()) == Some(e);
      assert Answers(e, kind, text);
      forall r | r in db.ids && Answers(db.ids[r], kind, text)
        ensures db.ids[r] == e
      {
        assert Fits(db, e);
        assert Apart(db.ids[r], e);
      }
    }
  }

  ghost predicate AgreesWithSearch(db: DB, kind: Kind, text: string) {
    forall r | r in db.ids :: Answers(db.ids[r], kind, text) <==> Get(db, kind, text) == Ok(db.ids[r])
  }

  lemma OneAnswer(db: DB, r: Ref, q: Ref, kind: Kind, text: string)
    requires Indexed(db) && AgreesWithSearch(db, kind, text)
    requires r in db.ids && q in db.ids
    requires Answers(db.ids[r], kind, text) && Answers(db.ids[q], kind, text)
    ensures r == q
  {
  }

  // Coherence is exactly what makes Get agree with the search for every text.
  lemma CoherentIffSearchable(db: DB)
    requires Indexed(db)
    ensures Coherent(db) <==> forall kind, text :: AgreesWithSearch(db, kind, text)
  {
    if Coherent(db) {
      forall kind, text
        ensures AgreesWithSearch(db, kind, text)
      {
        GetIsLinearSearch(db, kind, text);
      }
    }
    if forall kind, text :: AgreesWithSearch(db, kind, text) {
      forall r, q | r in db.ids && q in db.ids
        ensures Apart(db.ids[q], db.ids[r])
      {
        SearchableRowsApart(db, r, q);
      }
      forall r | r in db.ids && Named(db.ids[r])
        ensures db.ids[r].NameRow() in db.names
      {
        SearchableRowNamed(db, r);
      }
    }
  }

  lemma SearchableRowsApart(db: DB, r: Ref, q: Ref)
    requires Indexed(db) && r in db.ids && q in db.ids
    requires forall kind, text :: AgreesWithSearch(db, kind, text)
    ensures Apart(db.ids[q], db.ids[r])
  {
    var x, y := db.ids[q], db.ids[r];
    if x.Kind() == y.Kind() && x.Row() != y.Row() {
      KeyNonEmpty(x);
      KeyNonEmpty(y);
      if x.Name() == y.Key() {
        OneAnswer(db, q, r, x.Kind(), y.Key());
      }
      if y.Name() == x.Key() {
        OneAnswer(db, q, r, x.Kind(), x.Key());
      }
      if x.Name() != "" && x.Name() == y.Name() {
        OneAnswer(db, q, r, x.Kind(), x.Name());
      }
    }
  }

  lemma SearchableRowNamed(db: DB, r: Ref)
    requires Indexed(db) && r in db.ids && Named(db.ids[r])
    requires forall kind, text :: AgreesWithSearch(db, kind, text)
    ensures db.ids[r].NameRow() in db.names
  {
    var x := db.ids[r];
    assert AgreesWithSearch(db, x.Kind(), x.Name());
    assert Answers(x, x.Kind(), x.Name());
    assert Get(db, x.Kind(), x.Name()) == Ok(x);
  }

  // Names are tried first: an object named like another's id hides it.
  lemma NameHidesId(db: DB, x: Entity, y: Entity)
    requires Find(db.names, x.NameRow()) == Some(x) && Find(db.ids, y.Row()) == Some(y)
    requires y.HasId() && x.Kind() == y.Kind() != BindKind && x.Name() == y.Key() && x != y
    ensures Get(db, y.Kind(), y.Key()) == Ok(x)
  {
    KeyNonEmpty(y);
  }

  // ---- The operations on a coherent database --------------------------------

  lemma LookupByKey(db: DB, e: Entity)
    requires Coherent(db) && Fits(db, e)
    requires e.HasId()
    ensures Lookup(db, e.Kind(), e.Key()) == Find(db.ids, e.Row())
  {
  }

  lemma LookupByIdentifier(db: DB, e: Entity)
    requires Coherent(db) && Fits(db, e)
    requires e.HasId() && e.Addressable()
    ensures Lookup(db, e.Kind(), e.Identifier()) == Find(db.ids, e.Row())
  {
    if e.Bind? || e.Name() == "" {
      assert e.Identifier() == e.Key();
      LookupByKey(db, e);
    } else {
      if e.NameRow() in db.names {
        var x := db.names[e.NameRow()];
        assert Apart(db.ids[x.Row()], e);
      } else if e.NameRow() in db.ids {
        assert Apart(db.ids[e.NameRow()], e);
      }
      if e.Row() in db.ids {
        assert Apart(db.ids[e.Row()], e);
      }
    }
  }

  // A stored object is found by its own identifier exactly when it is
  // addressable: a nameless object with an id from 2^63 on is not.
  lemma FoundByIdentifierIff(db: DB, e: Entity)
    requires Coherent(db) && Find(db.ids, e.Row()) == Some(e)
    ensures Lookup(db, e.Kind(), e.Identifier()) == Some(e) <==> e.Addressable()
  {
    if e.Addressable() {
      LookupByIdentifier(db, e);
    } else {
      GetIsLinearSearch(db, e.Kind(), e.Identifier());
      UnsignedIsNoKey(e.id);
    }
  }

  lemma UnsignedIsNoKey(id: Id)
    requires id >= 0x8000_0000_0000_0000
    ensures Decimal.Format(id) != IdText(id)
  {
    IdTextSign(id);
    assert Decimal.Format(id)[0] in Decimal.Format(id);
  }

  lemma HugeIdIsLost() returns (db: DB, e: Entity)
    ensures e == Cluster(0x8000_0000_0000_0000, "", "", "") && Coherent(db) && Find(db.ids, e.Row()) == Some(e)
    ensures Lookup(db, e.Kind(), e.Identifier()) != Some(e)
  {
    e := Cluster(0x8000_0000_0000_0000, "", "", "");
    AddEffect(EMPTY, e);
    db := InsertRow(EMPTY, e);
    FoundByIdentifierIff(db, e);
  }

  // Add succeeds exactly when the row is free, and then adds that row only.
  lemma AddEffect(db: DB, e: Entity)
    requires Coherent(db) && Fits(db, e) && e.HasId()
    ensures Add(db, e) == if e.Row() in db.ids then Err(AlreadyExists) else Ok(InsertRow(db, e))
    ensures e.Row() !in db.ids ==>
              Coherent(Add(db, e).value) && Add(db, e).value.ids == db.ids[e.Row() := e]
  {
    LookupByKey(db, e);
    if e.Row() !in db.ids {
      InsertCoherent(db, e);
    }
  }

  // Delete by identifier removes exactly the row with that id.
  lemma DeleteEffect(db: DB, e: Entity)
    requires Coherent(db) && Fits(db, e) && e.HasId() && e.Addressable()
    ensures Delete(db, e.Kind(), e.Identifier())
         == if e.Row() in db.ids then Ok(DeleteRow(db, e)) else Err(NotFound)
    ensures e.Row() in db.ids ==>
              Coherent(DeleteRow(db, e)) && DeleteRow(db, e).ids == db.ids - {e.Row()}
  {
    LookupByIdentifier(db, e);
    if e.Row() in db.ids {
      DeleteCoherent(db, e);
    }
  }

  // e is told apart from every row but the one it would replace.
  ghost predicate FitsOthers(db: DB, e: Entity) {
    forall r | r in db.ids && r != e.Row() :: Apart(db.ids[r], e)
  }

  // Update replaces exactly the row with that id, also when the name changes.
  lemma UpdateEffect(db: DB, e: Entity)
    requires Coherent(db) && FitsOthers(db, e) && e.HasId() && !e.Bind?
    ensures Update(db, e).Ok? <==> e.Row() in db.ids
    ensures !Update(db, e).Ok? ==> Update(db, e) == Err(NotFound)
    ensures e.Row() in db.ids ==>
              Coherent(Update(db, e).value) && Update(db, e).value.ids == db.ids[e.Row() := e]
  {
    if e.Row() in db.ids {
      var own := db.ids[e.Row()];
      LookupByKey(db, own);
      var mid := DeleteRow(db, own);
      DeleteCoherent(db, own);
      InsertCoherent(mid, e);
      assert mid.ids[e.Row() := e] == db.ids[e.Row() := e];
    } else {
      LookupByKey(db, e);
    }
  }

  lemma InsertCoherent(db: DB, e: Entity)
    requires Coherent(db) && Fits(db, e) && e.HasId() && e.Row() !in db.ids
    ensures Coherent(InsertRow(db, e))
  {
    InsertKeepsIndexed(db, e);
    var db' := InsertRow(db, e);
    forall r, q | r in db'.ids && q in db'.ids
      ensures Apart(db'.ids[q], db'.ids[r])
    {
      assert r in db.ids ==> Fits(db, db.ids[r]);
    }
  }

  lemma DeleteCoherent(db: DB, e: Entity)
    requires Coherent(db) && e.Row() in db.ids
    ensures Coherent(DeleteRow(db, e))
  {
    DeleteKeepsIndexed(db, e);
    var db' := DeleteRow(db, e);
    forall r | r in db'.ids
      ensures Fits(db', db'.ids[r])
    {
      assert Fits(db, db.ids[r]);
    }
    forall r | r in db'.ids && Named(db'.ids[r])
      ensures db'.ids[r].NameRow() in db'.names
    {
      OtherNameStays(db, e, r);
    }
  }

  lemma OtherNameStays(db: DB, e: Entity, r: Ref)
    requires Coherent(db) && e.Row() in db.ids && r in db.ids && r != e.Row() && Named(db.ids[r])
    ensures db.ids[r].NameRow() in DeleteRow(db, e).names
  {
    assert Fits(db, db.ids[r]);
    assert Apart(db.ids[e.Row()], db.ids[r]);
  }
}
