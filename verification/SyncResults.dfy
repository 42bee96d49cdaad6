// What the sync engine guarantees: the sequential plan behind every
// interleaving, a minimal and idempotent set of events, and references that
// never dangle while a run goes on.
module SyncResults {
  import opened Entities
  import opened Store
  import opened Sync
  import opened SyncControl
  import opened SyncPlan
  import opened SyncContent
  import opened SyncLog

  // ---- Interleaving independence -------------------------------------------------

  // Although the producer reads the mirror while workers change it, what it
  // has emitted in the phase is what a lone differ would have emitted from the
  // mirror as it stood when the phase was listed.
  lemma PhasesIgnoreInterleaving(c: Config, run: seq<Label>)
    requires WellFormed(c) && Execute(c, run).Some? && InPhase(Execute(c, run).value)
    ensures
      var s := Execute(c, run).value;
      && s.base <= |s.issued| && s.next <= |s.listing|
      && s.issued[s.base..] == Decisions(s.frozen, c.target, s.phase, s.listing[..s.next])
      && forall r :: Stands(c, s.failures, s.phase, r, Find(s.frozen.ids, r))
  {
    LogHolds(c, run);
  }

  // Replaying planned events in any order sets the rows they name.
  lemma {:induction false} ReplayRow(c: Config, log: seq<Event>, r: Ref)
    requires WellFormed(c) && forall e | e in log :: Planned(c, e)
    ensures Find(Replay(c.current.ids, log), r)
         == if EventFor(c, r).Some? && EventFor(c, r).value in log then After(EventFor(c, r).value)
            else Find(c.current.ids, r)
  {
    if log != [] {
      var rest, e := log[..|log| - 1], log[|log| - 1];
      assert log == rest + [e];
      ReplayRow(c, rest, r);
      assert e in log;
      RawCarriesOut(c, Replay(c.current.ids, rest), e);
      if e.Row() != r && EventFor(c, r).Some? {
        EventForRow(c, r);
      }
    }
  }

  // Refinement: at every barrier of a failure-free run the gateway is as if
  // one worker had applied the emitted events one after another.
  lemma RefinesOneWorker(c: Config, run: seq<Label>)
    requires WellFormed(c) && Execute(c, run).Some? && Execute(c, run).value.failures == 0
    requires !InPhase(Execute(c, run).value)
    ensures Execute(c, run).value.remote == Replay(c.current.ids, Execute(c, run).value.issued)
  {
    var s := Execute(c, run).value;
    ControlHolds(c, run);
    ContentHolds(c, run);
    LogHolds(c, run);
    AtBarrier(c, s);
    forall r
      ensures Find(s.remote, r) == Find(Replay(c.current.ids, s.issued), r)
    {
      ReplayRow(c, s.issued, r);
      if EventFor(c, r).Some? {
        EventForRow(c, r);
      }
    }
    SameRows(s.remote, Replay(c.current.ids, s.issued));
  }

  // ---- Minimality and idempotence ---------------------------------------------------

  // In every run, whatever fails, no row gets a second event and no event is
  // superfluous: creates are the rows only the target has, updates the rows that
  // differ, deletes the rows only the current state has. A run that walks all
  // phases emits all of them.
  lemma MinimalPlan(c: Config, run: seq<Label>)
    requires WellFormed(c) && Execute(c, run).Some?
    ensures
      var s := Execute(c, run).value;
      && (forall i, j | 0 <= i < j < |s.issued| :: s.issued[i].Row() != s.issued[j].Row())
      && (forall e | e in s.issued :: EventFor(c, e.Row()) == Some(e) && Warranted(c, e))
      && (s.phase == PHASES ==> forall r | EventFor(c, r).Some? :: EventFor(c, r).value in s.issued)
  {
    LogHolds(c, run);
    forall e | e in Execute(c, run).value.issued
      ensures Warranted(c, e)
    {
      EventByFields(c, e.Row());
    }
    if Execute(c, run).value.phase == PHASES {
      NothingForgotten(c, Execute(c, run).value);
    }
  }

  // Why the row of an issued event needs it.
  predicate Warranted(c: Config, e: Event) {
    var r := e.Row();
    match e.op
    case Create => r !in c.current.ids && r in c.target.ids && e.obj == c.target.ids[r]
    case Update => r in c.current.ids && r in c.target.ids && e.obj == c.target.ids[r]
                   && !FieldsAgree(c.current.ids[r], c.target.ids[r]) && e.oldObj == Some(c.current.ids[r])
    case Delete => r in c.current.ids && r !in c.target.ids && e.obj == c.current.ids[r]
  }

  lemma NothingForgotten(c: Config, s: State)
    requires NoneForgotten(c, s) && s.phase == PHASES
    ensures forall r | EventFor(c, r).Some? :: EventFor(c, r).value in s.issued
  {
    forall r | EventFor(c, r).Some?
      ensures EventFor(c, r).value in s.issued
    {
      assert PhaseOf(EventFor(c, r).value) < Reached(s);
    }
  }

  // In every run, whatever fails, a row of either store is as it was at the
  // start or as its one event leaves it.
  lemma RowsAreOldOrNew(c: Config, run: seq<Label>, r: Ref)
    requires WellFormed(c) && Execute(c, run).Some?
    ensures
      var s := Execute(c, run).value;
      && OldOrNew(c, r, Find(s.remote, r)) && OldOrNew(c, r, Find(s.mirror.ids, r))
  {
    ContentHolds(c, run);
    assert RowHolds(c, Execute(c, run).value, r);
  }

  predicate OldOrNew(c: Config, r: Ref, have: Option<Entity>) {
    have == Find(c.current.ids, r) || (EventFor(c, r).Some? && have == After(EventFor(c, r).value))
  }

  lemma NothingToDo(c: Config)
    requires Matches(c.current.ids, c.target.ids)
    ensures forall r :: EventFor(c, r).None?
  {
  }

  // With nothing planned no worker ever holds an event, so none can fail.
  lemma NoEventNoFailure(c: Config, s: State, l: Label)
    requires forall r :: EventFor(c, r).None?
    requires OnPlan(c, s) && Enabled(c, s, l)
    ensures Apply(c, s, l).failures == s.failures
  {
  }

  lemma {:induction false} SilentRun(c: Config, run: seq<Label>)
    requires WellFormed(c) && Execute(c, run).Some?
    requires forall r :: EventFor(c, r).None?
    ensures Execute(c, run).value.failures == 0
  {
    if run != [] {
      var before := run[..|run| - 1];
      SilentRun(c, before);
      ContentHolds(c, before);
      NoEventNoFailure(c, Execute(c, before).value, run[|run| - 1]);
    }
  }

  lemma HasMember(log: seq<Event>)
    requires log != []
    ensures exists e :: e in log
  {
    assert log[0] in log;
  }

  // Running the differ on a current state that matches the target emits
  // nothing, fails nowhere and changes nothing.
  lemma SecondRunIsSilent(c: Config, run: seq<Label>)
    requires WellFormed(c) && Matches(c.current.ids, c.target.ids)
    requires Execute(c, run).Some?
    ensures Execute(c, run).value.failures == 0
    ensures Execute(c, run).value.issued == []
    ensures Execute(c, run).value.remote == c.current.ids
  {
    NothingToDo(c);
    SilentRun(c, run);
    LogHolds(c, run);
    ContentHolds(c, run);
    var s := Execute(c, run).value;
    if s.issued != [] {
      HasMember(s.issued);
    }
    forall r
      ensures Find(s.remote, r) == Find(c.current.ids, r)
    {
      assert RowHolds(c, s, r);
    }
    SameRows(s.remote, c.current.ids);
  }

  // In particular the run after a converged one, with the same target.
  lemma ResyncIsSilent(c: Config, run: seq<Label>, again: Config, rerun: seq<Label>)
    requires WellFormed(c) && Execute(c, run).Some?
    requires Execute(c, run).value.collector.Returned?
    requires Execute(c, run).value.errs == [] && !Execute(c, run).value.doneFired
    requires again.current == Execute(c, run).value.mirror && again.target == c.target
    requires Execute(again, rerun).Some?
    ensures WellFormed(again)
    ensures Execute(again, rerun).value.issued == []
  {
    Convergence(c, run);
    CleanReturn(c, run);
    ContentHolds(c, run);
    SecondRunIsSilent(again, rerun);
  }

  // ---- References -----------------------------------------------------------------------

  ghost predicate ReferencesHold(m: map<Ref, Entity>) {
    forall r, t | r in m && t in Targets(m[r]) :: t in m
  }

  lemma TargetsRankLower(x: Entity, t: Ref)
    requires t in Targets(x)
    ensures Rank(t.kind) < Rank(x.Kind())
  {
  }

  // If a row with its value at one of two neighbouring phases points at
  // another row, that row exists at either phase.
  lemma TargetStays(c: Config, phase: nat, p1: nat, p2: nat, r: Ref, t: Ref)
    requires WellFormed(c) && ReferencesHold(c.current.ids) && ReferencesHold(c.target.ids)
    requires phase <= p1 <= phase + 1 && phase <= p2 <= phase + 1
    requires Value(c, p1, r).Some? && t in Targets(Value(c, p1, r).value)
    ensures Value(c, p2, t).Some?
  {
    var x := Value(c, p1, r).value;
    ValueKnown(c, p1, r);
    TargetsRankLower(x, t);
    if r in c.current.ids && x == c.current.ids[r] {
      assert t in c.current.ids;
      if r in c.target.ids && Same(c.current.ids[r], c.target.ids[r]) {
        SameTargets(c.current.ids[r], c.target.ids[r]);
        assert t in c.target.ids;
      }
    }
    if r in c.target.ids && x == c.target.ids[r] {
      assert t in c.target.ids;
    }
    if EventFor(c, t).Some? {
      EventForRow(c, t);
    }
  }

  // Referential safety: if both states are closed under references, then so
  // is the gateway in every state of every run until an event fails.
  lemma ReferencesNeverDangle(c: Config, run: seq<Label>)
    requires WellFormed(c) && ReferencesHold(c.current.ids) && ReferencesHold(c.target.ids)
    requires Execute(c, run).Some? && Execute(c, run).value.failures == 0
    ensures ReferencesHold(Execute(c, run).value.remote)
  {
    var s := Execute(c, run).value;
    ContentHolds(c, run);
    forall r, t | r in s.remote && t in Targets(s.remote[r])
      ensures t in s.remote
    {
      assert RowHolds(c, s, r) && RowHolds(c, s, t);
      var p1 := if Ahead(s, r) == 1 then s.phase else Reached(s);
      var p2 := if Ahead(s, t) == 1 then s.phase else Reached(s);
      TargetStays(c, s.phase, p1, p2, r, t);
    }
  }
}
