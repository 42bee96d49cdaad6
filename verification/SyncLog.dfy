// Which events a run emits, whatever fails: only planned ones, once each, and
// in every phase the list a sequential differ would compute from the mirror
// as it was when the phase began.
module SyncLog {
  import opened Entities
  import opened Store
  import opened Sync
  import opened SyncControl
  import opened SyncPlan
  import opened SyncContent

  // The producer loop run to the end with nobody touching the mirror.
  function Decisions(db: DB, target: DB, phase: nat, rows: seq<Entity>): seq<Event> {
    if rows == [] then []
    else
      var rest := Decisions(db, target, phase, rows[..|rows| - 1]);
      match Decide(db, target, phase, rows[|rows| - 1])
      case None => rest
      case Some(e) => rest + [e]
  }

  // One worker applying a list of events one after another.
  function Replay(m: map<Ref, Entity>, log: seq<Event>): map<Ref, Entity> {
    if log == [] then m else Raw(Replay(m, log[..|log| - 1]), log[|log| - 1])
  }

  ghost predicate IssuedOnce(s: State) {
    forall i, j | 0 <= i < j < |s.issued| :: s.issued[i].Row() != s.issued[j].Row()
  }

  ghost predicate IssuedOnPlan(c: Config, s: State) {
    forall e | e in s.issued ::
      && Planned(c, e)
      && PhaseOf(e) < Reached(s)
      && (PhaseOf(e) == s.phase ==> Unlisted(s, e.Row()) == 0)
  }

  // A planned event of a phase already walked was issued, and one of the
  // current phase was issued or its row is still to come.
  ghost predicate NoneForgotten(c: Config, s: State) {
    forall r | EventFor(c, r).Some? && PhaseOf(EventFor(c, r).value) < Reached(s) ::
      EventFor(c, r).value in s.issued
      || (PhaseOf(EventFor(c, r).value) == s.phase && Unlisted(s, r) >= 1)
  }

  ghost predicate Frozen(c: Config, s: State) {
    InPhase(s) ==>
      && s.base <= |s.issued|
      && s.next <= |s.listing|
      && Mirrors(c, s.frozen)
      && (forall r :: Stands(c, s.failures, s.phase, r, Find(s.frozen.ids, r)))
      && s.issued[s.base..] == Decisions(s.frozen, c.target, s.phase, s.listing[..s.next])
  }

  ghost predicate Log(c: Config, s: State) {
    IssuedOnce(s) && IssuedOnPlan(c, s) && NoneForgotten(c, s) && Frozen(c, s)
  }

  // ---- Steps --------------------------------------------------------------------

  // Steps that touch none of the fields the log is about.
  lemma QuietLog(c: Config, s: State, s': State)
    requires Log(c, s)
    requires s'.issued == s.issued && s'.phase == s.phase && s'.listing == s.listing && s'.next == s.next
    requires s'.base == s.base && s'.frozen == s.frozen && s'.failures >= s.failures
    requires s'.producer.Starting? <==> s.producer.Starting?
    ensures Log(c, s')
  {
  }

  lemma ListLog(c: Config, s: State, rows: seq<Entity>)
    requires WellFormed(c) && Control(c, s) && Content(c, s) && Log(c, s)
    requires Enabled(c, s, ListPhase(rows))
    ensures Log(c, Apply(c, s, ListPhase(rows)))
  {
    var s' := Apply(c, s, ListPhase(rows));
    forall r
      ensures Stands(c, s.failures, s.phase, r, Find(s.mirror.ids, r))
    {
      assert RowHolds(c, s, r);
      IdleRow(c, s, r);
    }
    assert s'.issued[s'.base..] == [] && s'.listing[..s'.next] == [];
    forall r | EventFor(c, r).Some? && PhaseOf(EventFor(c, r).value) < Reached(s')
      ensures EventFor(c, r).value in s'.issued
           || (PhaseOf(EventFor(c, r).value) == s'.phase && Unlisted(s', r) >= 1)
    {
      if PhaseOf(EventFor(c, r).value) == s.phase {
        PlannedIsUnlisted(c, s, rows, r);
      }
    }
  }

  lemma PlannedIsUnlisted(c: Config, s: State, rows: seq<Entity>, r: Ref)
    requires WellFormed(c) && Enabled(c, s, ListPhase(rows)) && PlanAt(c, s.phase, r).Some?
    requires Stands(c, s.failures, s.phase, r, Find(s.mirror.ids, r))
    ensures Unlisted(Apply(c, s, ListPhase(rows)), r) >= 1
  {
    assert rows[0..] == rows;
    PlannedIsListed(c, s.phase, s.mirror, rows, r);
  }

  // Deciding against the live mirror and against the frozen one agree.
  lemma FrozenDecides(c: Config, s: State)
    requires WellFormed(c) && Content(c, s) && Frozen(c, s)
    requires s.producer.Deciding? && s.phase < PHASES && s.next < |s.listing|
    ensures Decide(s.mirror, c.target, s.phase, s.listing[s.next])
         == Decide(s.frozen, c.target, s.phase, s.listing[s.next])
         == PlanAt(c, s.phase, s.listing[s.next].Row())
  {
    DecidesPlan(c, s);
    var x := s.listing[s.next];
    assert Listed(c, s.phase, x);
    if IsCreatePhase(s.phase) {
      TargetRowUntouched(c, s.phase, x);
    }
    DecideIsPlan(c, s.frozen, s.phase, x);
  }

  lemma FrozenStep(c: Config, s: State, l: Label)
    requires Frozen(c, s) && Enabled(c, s, l) && (l.Skip? || l.Issue?) && s.phase < PHASES
    requires Decide(s.mirror, c.target, s.phase, s.listing[s.next])
          == Decide(s.frozen, c.target, s.phase, s.listing[s.next])
    ensures Frozen(c, Apply(c, s, l))
  {
    var s' := Apply(c, s, l);
    assert s'.listing[..s'.next] == s.listing[..s.next] + [s.listing[s.next]];
    assert s'.listing[..s'.next][..s.next] == s.listing[..s.next];
    if l.Issue? {
      assert s'.issued[s'.base..] == s.issued[s.base..] + [s'.issued[|s.issued|]];
    }
  }

  lemma IssueLog(c: Config, s: State, l: Label, planned: Option<Event>)
    requires Enabled(c, s, l) && (l.Skip? || l.Issue?) && s.phase < PHASES
    requires IssuedOnce(s) && IssuedOnPlan(c, s) && NoneForgotten(c, s)
    requires forall r :: Unlisted(s, r) <= 1
    requires planned == Decide(s.mirror, c.target, s.phase, s.listing[s.next])
    requires planned == PlanAt(c, s.phase, s.listing[s.next].Row())
    requires planned.Some? ==> planned.value.Row() == s.listing[s.next].Row()
    ensures IssuedOnce(Apply(c, s, l)) && IssuedOnPlan(c, Apply(c, s, l)) && NoneForgotten(c, Apply(c, s, l))
  {
    var s' := Apply(c, s, l);
    var x := s.listing[s.next];
    forall r
      ensures Unlisted(s, r) == Unlisted(s', r) + EntityAt(r)(x)
    {
      UnlistedNext(s, s', r);
    }
    if l.Issue? {
      assert Unlisted(s, x.Row()) == 1;
      forall e | e in s.issued
        ensures e.Row() != x.Row()
      {
        assert e.Row() == x.Row() ==> EventFor(c, x.Row()) == Some(e);
      }
    }
    forall r | EventFor(c, r).Some? && PhaseOf(EventFor(c, r).value) < Reached(s')
      ensures EventFor(c, r).value in s'.issued
           || (PhaseOf(EventFor(c, r).value) == s'.phase && Unlisted(s', r) >= 1)
    {
      assert Reached(s') == Reached(s);
    }
  }

  lemma DecideLog(c: Config, s: State, l: Label)
    requires WellFormed(c) && OnePhase(s) && Content(c, s) && Log(c, s)
    requires Enabled(c, s, l) && (l.Skip? || l.Issue?)
    ensures Log(c, Apply(c, s, l))
  {
    FrozenDecides(c, s);
    var r := s.listing[s.next].Row();
    if PlanAt(c, s.phase, r).Some? {
      EventForRow(c, r);
    }
    forall q
      ensures Unlisted(s, q) <= 1
    {
      assert RowHolds(c, s, q);
    }
    FrozenStep(c, s, l);
    IssueLog(c, s, l, PlanAt(c, s.phase, r));
  }

  lemma ProceedLog(c: Config, s: State)
    requires Control(c, s) && Log(c, s) && Enabled(c, s, Proceed)
    ensures Log(c, Apply(c, s, Proceed))
  {
    var s' := Apply(c, s, Proceed);
    forall r | EventFor(c, r).Some? && PhaseOf(EventFor(c, r).value) < Reached(s')
      ensures EventFor(c, r).value in s'.issued
    {
      IdleRow(c, s, r);
    }
  }

  lemma LogStep(c: Config, s: State, l: Label)
    requires WellFormed(c) && Control(c, s) && Content(c, s) && Log(c, s) && Enabled(c, s, l)
    ensures Log(c, Apply(c, s, l))
  {
    if l.ListPhase? {
      ListLog(c, s, l.rows);
    } else if l.Proceed? {
      ProceedLog(c, s);
    } else if l.Skip? || l.Issue? {
      DecideLog(c, s, l);
    } else {
      QuietStep(c, s, l);
      QuietLog(c, s, Apply(c, s, l));
    }
  }

  lemma QuietStep(c: Config, s: State, l: Label)
    requires Enabled(c, s, l) && !l.ListPhase? && !l.Proceed? && !l.Skip? && !l.Issue?
    ensures
      var s' := Apply(c, s, l);
      && s'.issued == s.issued && s'.phase == s.phase && s'.listing == s.listing && s'.next == s.next
      && s'.base == s.base && s'.frozen == s.frozen && s'.failures >= s.failures
      && (s'.producer.Starting? <==> s.producer.Starting?)
  {
  }

  lemma {:induction false} LogHolds(c: Config, run: seq<Label>)
    requires WellFormed(c)
    ensures Execute(c, run).Some? ==> Log(c, Execute(c, run).value)
  {
    if run != [] && Execute(c, run).Some? {
      var before := run[..|run| - 1];
      ControlHolds(c, before);
      ContentHolds(c, before);
      LogHolds(c, before);
      LogStep(c, Execute(c, before).value, run[|run| - 1]);
    }
  }
}
