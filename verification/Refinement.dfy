// Which sequences of collection operations refine a plain map by id.
module Refinement {
  import opened Entities
  import opened Store

  datatype Operation = AddOp(e: Entity) | UpdateOp(e: Entity) | DeleteOp(kind: Kind, text: string)

  function Outcome(db: DB, op: Operation): Result<DB> {
    match op
    case AddOp(e) => Add(db, e)
    case UpdateOp(e) => Update(db, e)
    case DeleteOp(kind, text) => Delete(db, kind, text)
  }

  // A failed operation changes nothing.
  function Next(db: DB, op: Operation): DB {
    var outcome := Outcome(db, op);
    if outcome.Ok? then outcome.value else db
  }

  function Perform(ops: seq<Operation>): DB {
    if ops == [] then EMPTY else Next(Perform(ops[..|ops| - 1]), ops[|ops| - 1])
  }

  // The reference: one map, no indexes. Delete removes whatever answers to the
  // text.
  function Reference(m: map<Ref, Entity>, op: Operation): map<Ref, Entity> {
    match op
    case AddOp(e) => if e.HasId() && e.Row() !in m then m[e.Row() := e] else m
    case UpdateOp(e) => if e.HasId() && !e.Bind? && e.Row() in m then m[e.Row() := e] else m
    case DeleteOp(kind, text) => map r | r in m && !Answers(m[r], kind, text) :: m[r]
  }

  function PerformReference(ops: seq<Operation>): map<Ref, Entity> {
    if ops == [] then map[] else Reference(PerformReference(ops[..|ops| - 1]), ops[|ops| - 1])
  }

  // What the code asks of an operation, against the rows stored at that moment:
  // a new object is told apart from all of them, an updated one from all others,
  // and no name is the id of an object that is not there. Renaming an object and
  // reusing a name that was freed are fine, and Delete asks for nothing.
  ghost predicate Admissible(db: DB, op: Operation) {
    match op
    case AddOp(e) => e.HasId() && e.Row() !in db.ids ==> Fits(db, e)
    case UpdateOp(e) =>
      e.HasId() && !e.Bind? ==>
        if e.Row() in db.ids then FitsOthers(db, e)
        else forall r | r in db.ids :: db.ids[r].NameRow() != e.Row()
    case DeleteOp(_, _) => true
  }

  // The operation did what it does to the plain map.
  ghost predicate Refines(db: DB, op: Operation) {
    Coherent(Next(db, op)) && Next(db, op).ids == Reference(db.ids, op)
  }

  // ---- One operation ---------------------------------------------------------------

  // Rows that are not apart cannot be in a coherent database together.
  lemma CoherentRowsApart(db: DB, r: Ref, q: Ref)
    requires Coherent(db) && r in db.ids && q in db.ids
    ensures Apart(db.ids[r], db.ids[q])
  {
    assert Fits(db, db.ids[q]);
  }

  lemma AddRefinesIff(db: DB, e: Entity)
    requires Coherent(db)
    ensures Refines(db, AddOp(e)) <==> Admissible(db, AddOp(e))
  {
    if e.HasId() && e.Row() !in db.ids {
      if Fits(db, e) {
        AddEffect(db, e);
      } else {
        var r :| r in db.ids && !Apart(db.ids[r], e);
        if Refines(db, AddOp(e)) {
          CoherentRowsApart(Next(db, AddOp(e)), r, e.Row());
        }
      }
    }
  }

  lemma UpdateRefinesIff(db: DB, e: Entity)
    requires Coherent(db)
    ensures Refines(db, UpdateOp(e)) <==> Admissible(db, UpdateOp(e))
  {
    if e.HasId() && !e.Bind? {
      if e.Row() !in db.ids {
        UpdateOfMissing(db, e);
      } else if FitsOthers(db, e) {
        UpdateEffect(db, e);
      } else {
        var r :| r in db.ids && r != e.Row() && !Apart(db.ids[r], e);
        if Refines(db, UpdateOp(e)) {
          CoherentRowsApart(Next(db, UpdateOp(e)), r, e.Row());
        }
      }
    }
  }

  // An object named like the missing id would be replaced instead.
  lemma UpdateOfMissing(db: DB, e: Entity)
    requires Coherent(db) && e.HasId() && !e.Bind? && e.Row() !in db.ids
    ensures Refines(db, UpdateOp(e)) <==> forall r | r in db.ids :: db.ids[r].NameRow() != e.Row()
  {
    KeyNonEmpty(e);
    GetIsLinearSearch(db, e.Kind(), e.Key());
    if r :| r in db.ids && db.ids[r].NameRow() == e.Row() {
      assert Answers(db.ids[r], e.Kind(), e.Key());
      assert e.Row() in Next(db, UpdateOp(e)).ids;
    } else {
      assert Lookup(db, e.Kind(), e.Key()).None?;
    }
  }

  lemma DeleteRefines(db: DB, kind: Kind, text: string)
    requires Coherent(db)
    ensures Refines(db, DeleteOp(kind, text))
  {
    GetIsLinearSearch(db, kind, text);
    var found := Get(db, kind, text);
    if found.Ok? {
      DeleteFound(db, kind, text, found.value);
    } else {
      assert forall r | r in db.ids :: !Answers(db.ids[r], kind, text);
    }
  }

  lemma DeleteFound(db: DB, kind: Kind, text: string, e: Entity)
    requires Coherent(db) && Get(db, kind, text) == Ok(e) && AgreesWithSearch(db, kind, text)
    ensures Refines(db, DeleteOp(kind, text))
  {
    assert Find(db.ids, e.Row()) == Some(e);
    DeleteCoherent(db, e);
    OneAnswers(db, kind, text, e);
  }

  lemma OneAnswers(db: DB, kind: Kind, text: string, e: Entity)
    requires Indexed(db) && Get(db, kind, text) == Ok(e) && AgreesWithSearch(db, kind, text)
    requires Find(db.ids, e.Row()) == Some(e)
    ensures db.ids - {e.Row()} == Reference(db.ids, DeleteOp(kind, text))
  {
    forall r | r in db.ids
      ensures Answers(db.ids[r], kind, text) <==> r == e.Row()
    {
    }
  }

  // An operation on coherent indexes does what it does to the plain map, and
  // leaves them coherent, exactly when it is admissible.
  lemma StepRefinesIff(db: DB, op: Operation)
    requires Coherent(db)
    ensures Refines(db, op) <==> Admissible(db, op)
  {
    match op
    case AddOp(e) => AddRefinesIff(db, e);
    case UpdateOp(e) => UpdateRefinesIff(db, e);
    case DeleteOp(kind, text) => DeleteRefines(db, kind, text);
  }

  // ---- Sequences --------------------------------------------------------------------

  ghost predicate RefinesThroughout(ops: seq<Operation>) {
    forall n | 0 <= n <= |ops| ::
      Coherent(Perform(ops[..n])) && Perform(ops[..n]).ids == PerformReference(ops[..n])
  }

  ghost predicate AdmissibleThroughout(ops: seq<Operation>) {
    forall n | 0 <= n < |ops| :: Admissible(Perform(ops[..n]), ops[n])
  }

  lemma PerformNext(ops: seq<Operation>, n: nat)
    requires n < |ops|
    ensures Perform(ops[..n + 1]) == Next(Perform(ops[..n]), ops[n])
    ensures PerformReference(ops[..n + 1]) == Reference(PerformReference(ops[..n]), ops[n])
  {
    assert ops[..n + 1][..n] == ops[..n];
  }

  // From the empty state, the two indexes agree with the plain map at every step
  // exactly when every operation is admissible at its step; then Get agrees with
  // a search of all rows throughout.
  lemma IndexesRefineMapIff(ops: seq<Operation>)
    ensures RefinesThroughout(ops) <==> AdmissibleThroughout(ops)
    ensures AdmissibleThroughout(ops) ==> forall kind, text :: AgreesWithSearch(Perform(ops), kind, text)
  {
    if AdmissibleThroughout(ops) {
      forall n | 0 <= n <= |ops|
        ensures Coherent(Perform(ops[..n])) && Perform(ops[..n]).ids == PerformReference(ops[..n])
      {
        AdmissibleRefines(ops, n);
      }
      assert ops[..|ops|] == ops;
      CoherentIffSearchable(Perform(ops));
    }
    if RefinesThroughout(ops) {
      forall n | 0 <= n < |ops|
        ensures Admissible(Perform(ops[..n]), ops[n])
      {
        PerformNext(ops, n);
        assert Coherent(Perform(ops[..n + 1]));
        StepRefinesIff(Perform(ops[..n]), ops[n]);
      }
    }
  }

  lemma {:induction false} AdmissibleRefines(ops: seq<Operation>, n: nat)
    requires AdmissibleThroughout(ops) && n <= |ops|
    ensures Coherent(Perform(ops[..n])) && Perform(ops[..n]).ids == PerformReference(ops[..n])
  {
    if n > 0 {
      AdmissibleRefines(ops, n - 1);
      StepRefinesIff(Perform(ops[..n - 1]), ops[n - 1]);
      PerformNext(ops, n - 1);
    }
  }

  // Renaming an object, and giving its old name to another, are admissible.
  lemma RenameAndReuse(id: Id, other: Id, a: string, b: string)
    requires id != 0 && other != 0 && id != other && a != "" && b != "" && a != b
    requires forall n: Id :: a != IdText(n) && b != IdText(n)
    ensures AdmissibleThroughout([AddOp(Cluster(id, a, "", "")), UpdateOp(Cluster(id, b, "", "")),
                                  AddOp(Cluster(other, a, "", ""))])
  {
    var x, y, z := Cluster(id, a, "", ""), Cluster(id, b, "", ""), Cluster(other, a, "", "");
    var ops := [AddOp(x), UpdateOp(y), AddOp(z)];
    assert ops[..0] == [];
    PerformNext(ops, 0);
    PerformNext(ops, 1);
    OneRow(x);
    assert Perform(ops[..1]).ids == map[x.Row() := x];
    UpdateEffect(Perform(ops[..1]), y);
    assert Perform(ops[..2]).ids == map[x.Row() := y];
    if x.Row() == z.Row() {
      RowDeterminesIds(x, z);
    }
  }

  lemma OneRow(x: Entity)
    requires x.HasId()
    ensures Next(EMPTY, AddOp(x)).ids == map[x.Row() := x] && Coherent(Next(EMPTY, AddOp(x)))
  {
    AddEffect(EMPTY, x);
  }
}
