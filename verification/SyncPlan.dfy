// The plan a run follows: which event each row needs, computed from the
// current and the target state alone, and the contents every phase should
// reach. The engine never computes this; module SyncContent proves that every
// interleaving carries it out.
module SyncPlan {
  import opened Entities
  import opened Store
  import opened Sync

  // What the differ needs of its two states: each is searchable, their rows
  // do not hide each other, equal rows carry equal names (the ids were matched
  // by name), and every object can be found by its identifier.
  ghost predicate WellFormed(c: Config) {
    && Coherent(c.current)
    && Coherent(c.target)
    && (forall x, y | Known(c, x) && Known(c, y) :: Apart(x, y))
    && (forall x | Known(c, x) :: x.Addressable())
  }

  predicate Known(c: Config, x: Entity) {
    Find(c.current.ids, x.Row()) == Some(x) || Find(c.target.ids, x.Row()) == Some(x)
  }

  // The only event row r ever needs.
  function EventFor(c: Config, r: Ref): Option<Event> {
    if r in c.target.ids then
      if r !in c.current.ids then Some(Event(Create, c.target.ids[r], None))
      else if Same(c.current.ids[r], c.target.ids[r]) then None
      else Some(Event(Update, c.target.ids[r], Some(c.current.ids[r])))
    else if r in c.current.ids then Some(Event(Delete, c.current.ids[r], None))
    else None
  }

  function After(e: Event): Option<Entity> {
    if e.op.Delete? then None else Some(e.obj)
  }

  // The contents of row r when every phase before `phase` is complete.
  function Value(c: Config, phase: nat, r: Ref): Option<Entity> {
    match EventFor(c, r)
    case Some(e) => if PhaseOf(e) < phase then After(e) else Find(c.current.ids, r)
    case None => Find(c.current.ids, r)
  }

  predicate Planned(c: Config, e: Event) {
    EventFor(c, e.Row()) == Some(e)
  }

  // The event of row r, if it belongs to this phase.
  function PlanAt(c: Config, phase: nat, r: Ref): Option<Event> {
    match EventFor(c, r)
    case Some(e) => if PhaseOf(e) == phase then Some(e) else None
    case None => None
  }

  lemma EventForRow(c: Config, r: Ref)
    requires WellFormed(c) && EventFor(c, r).Some?
    ensures EventFor(c, r).value.Row() == r
    ensures Known(c, EventFor(c, r).value.obj)
  {
  }

  // A bind is its two ids, so one that is in both states never changed and
  // its Update event, which the gateway could not answer, is never planned.
  lemma NoBindUpdate(c: Config, r: Ref)
    requires WellFormed(c)
    ensures EventFor(c, r).Some? ==> !RawResultIsNil(EventFor(c, r).value)
  {
    if r in c.target.ids && r in c.current.ids && c.target.ids[r].Bind? {
      RowDeterminesIds(c.target.ids[r], c.current.ids[r]);
    }
  }

  lemma ValueKnown(c: Config, phase: nat, r: Ref)
    requires WellFormed(c) && Value(c, phase, r).Some?
    ensures Known(c, Value(c, phase, r).value) && Value(c, phase, r).value.Row() == r
  {
  }

  // ---- Known objects in a mirror made of known objects -----------------------

  ghost predicate Mirrors(c: Config, db: DB) {
    Coherent(db) && forall r | r in db.ids :: Known(c, db.ids[r])
  }

  lemma KnownFits(c: Config, db: DB, x: Entity)
    requires WellFormed(c) && Mirrors(c, db) && Known(c, x)
    ensures Fits(db, x) && x.HasId() && x.Addressable()
  {
    assert Find(c.current.ids, x.Row()) == Some(x) || Find(c.target.ids, x.Row()) == Some(x);
  }

  lemma TargetFits(c: Config, x: Entity)
    requires WellFormed(c) && Known(c, x)
    ensures Fits(c.target, x)
  {
  }

  // Deciding on a target object while its row still has the phase's starting
  // value, or on any mirrored object when deleting, yields the planned event,
  // whatever happened to the other rows.
  lemma DecideIsPlan(c: Config, db: DB, phase: nat, x: Entity)
    requires WellFormed(c) && Mirrors(c, db) && phase < PHASES
    requires x.Kind() == PhaseKind(phase) && Known(c, x)
    requires IsCreatePhase(phase) ==>
               Find(c.target.ids, x.Row()) == Some(x) && Find(db.ids, x.Row()) == Value(c, phase, x.Row())
    ensures Decide(db, c.target, phase, x) == PlanAt(c, phase, x.Row())
  {
    if IsCreatePhase(phase) {
      GetKnown(c, db, x);
      DecideCreateIsPlan(c, db, phase, x);
    } else {
      DecideDeleteIsPlan(c, db, phase, x);
    }
  }

  lemma GetKnown(c: Config, db: DB, x: Entity)
    requires WellFormed(c) && Mirrors(c, db) && Known(c, x)
    ensures Get(db, x.Kind(), x.Identifier())
         == match Find(db.ids, x.Row()) { case Some(y) => Ok(y) case None => Err(NotFound) }
  {
    KnownFits(c, db, x);
    LookupByIdentifier(db, x);
  }

  lemma DecideCreateIsPlan(c: Config, db: DB, phase: nat, x: Entity)
    requires IsCreatePhase(phase)
    requires x.Kind() == PhaseKind(phase) && Find(c.target.ids, x.Row()) == Some(x)
    requires Get(db, x.Kind(), x.Identifier())
          == match Value(c, phase, x.Row()) { case Some(y) => Ok(y) case None => Err(NotFound) }
    ensures Decide(db, c.target, phase, x) == PlanAt(c, phase, x.Row())
  {
  }

  lemma DecideDeleteIsPlan(c: Config, db: DB, phase: nat, x: Entity)
    requires WellFormed(c) && !IsCreatePhase(phase) && phase < PHASES
    requires x.Kind() == PhaseKind(phase) && Known(c, x)
    ensures Decide(db, c.target, phase, x) == PlanAt(c, phase, x.Row())
  {
    TargetFits(c, x);
    LookupByIdentifier(c.target, x);
    assert Decide(db, c.target, phase, x)
        == if x.Row() in c.target.ids then None else Some(Event(Delete, x, None));
  }

  // Post-processing a planned event whose row is untouched succeeds and
  // changes that row only, to the planned value.
  lemma PostCarriesOut(c: Config, db: DB, e: Event)
    requires WellFormed(c) && Mirrors(c, db) && Planned(c, e)
    requires Find(db.ids, e.Row()) == Find(c.current.ids, e.Row())
    ensures Post(db, e).Ok?
    ensures Mirrors(c, Post(db, e).value)
    ensures Find(Post(db, e).value.ids, e.Row()) == After(e)
    ensures forall r | r != e.Row() :: Find(Post(db, e).value.ids, r) == Find(db.ids, r)
  {
    EventForRow(c, e.Row());
    KnownFits(c, db, e.obj);
    PostEffect(c, db, e);
    OneRowChanged(c, db.ids, Post(db, e).value.ids, e);
  }

  lemma OneRowChanged(c: Config, m: map<Ref, Entity>, m': map<Ref, Entity>, e: Event)
    requires forall r | r in m :: Known(c, m[r])
    requires Known(c, e.obj)
    requires m' == if e.op.Delete? then m - {e.Row()} else m[e.Row() := e.obj]
    ensures forall r | r in m' :: Known(c, m'[r])
    ensures Find(m', e.Row()) == After(e)
    ensures forall r | r != e.Row() :: Find(m', r) == Find(m, r)
  {
  }

  lemma PostEffect(c: Config, db: DB, e: Event)
    requires WellFormed(c) && Planned(c, e)
    requires Coherent(db) && Fits(db, e.obj) && e.obj.HasId() && e.obj.Addressable()
    requires Find(db.ids, e.Row()) == Find(c.current.ids, e.Row())
    ensures Post(db, e).Ok?
    ensures Coherent(Post(db, e).value)
    ensures Post(db, e).value.ids
         == if e.op.Delete? then db.ids - {e.Row()} else db.ids[e.Row() := e.obj]
  {
    match e.op
    case Create => AddEffect(db, e.obj);
    case Delete => DeleteEffect(db, e.obj);
    case Update =>
      NoBindUpdate(c, e.Row());
      UpdateEffect(db, e.obj);
  }

  lemma RawCarriesOut(c: Config, remote: map<Ref, Entity>, e: Event)
    requires WellFormed(c) && Planned(c, e)
    ensures !RawResultIsNil(e)
    ensures Find(Raw(remote, e), e.Row()) == After(e)
    ensures forall r | r != e.Row() :: Find(Raw(remote, e), r) == Find(remote, r)
  {
    NoBindUpdate(c, e.Row());
  }

  // ---- Where the plan leads ---------------------------------------------------

  // Two stores hold the same rows, compared the way the differ compares them.
  ghost predicate Matches(have: map<Ref, Entity>, want: map<Ref, Entity>) {
    && have.Keys == want.Keys
    && forall r | r in want :: Same(have[r], want[r])
  }

  // By fields.
  lemma MatchesIffAgree(have: map<Ref, Entity>, want: map<Ref, Entity>)
    ensures Matches(have, want) <==>
              have.Keys == want.Keys && forall r | r in want :: r in have && FieldsAgree(have[r], want[r])
  {
    forall r | r in have && r in want
      ensures Same(have[r], want[r]) <==> FieldsAgree(have[r], want[r])
    {
      SameIffAgree(have[r], want[r]);
    }
  }

  // A row needs no event exactly when both states lack it or have it with the
  // same fields; otherwise it is created, updated or deleted as the states say.
  lemma EventByFields(c: Config, r: Ref)
    ensures EventFor(c, r).None? <==>
              && (r in c.current.ids <==> r in c.target.ids)
              && (r in c.current.ids && r in c.target.ids ==> FieldsAgree(c.current.ids[r], c.target.ids[r]))
    ensures
      EventFor(c, r).Some? ==>
        var e := EventFor(c, r).value;
        && (e.op.Create? <==> r !in c.current.ids) && (e.op.Delete? <==> r !in c.target.ids)
        && e.obj == (if r in c.target.ids then c.target.ids[r] else c.current.ids[r])
        && e.oldObj == (if r in c.target.ids then Find(c.current.ids, r) else None)
  {
    if r in c.current.ids && r in c.target.ids {
      SameIffAgree(c.current.ids[r], c.target.ids[r]);
    }
  }

  // The contents after the last phase match the target.
  lemma PlanReachesTarget(c: Config, m: map<Ref, Entity>)
    requires WellFormed(c)
    requires forall r :: Find(m, r) == Value(c, PHASES, r)
    ensures Matches(m, c.target.ids)
    ensures forall r | r in c.target.ids :: r in m && FieldsAgree(m[r], c.target.ids[r])
  {
    MatchesIffAgree(m, c.target.ids);
    forall r
      ensures r in m <==> r in c.target.ids
      ensures r in m ==> Same(m[r], c.target.ids[r])
    {
      assert Find(m, r) == Value(c, PHASES, r);
    }
  }
}
