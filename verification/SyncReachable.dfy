// Every well-formed pair of states has a run that converges: from any state
// without failures the engine's own steps lead to a clean return.
module SyncReachable {
  import opened Entities
  import opened Sync
  import opened SyncControl
  import opened SyncPlan
  import opened SyncContent
  import opened SyncLiveness
  import opened SyncDriver

  // When no call fails, nothing else does.
  lemma OwnStepSucceeds(c: Config, s: State, l: Label)
    requires WellFormed(c) && Control(c, s) && Content(c, s)
    requires Enabled(c, s, l) && Own(l)
    ensures Apply(c, s, l).failures == s.failures && Apply(c, s, l).doneFired == s.doneFired
  {
    if l.CallOk? {
      PlannedHasResult(c, s.workers[l.i].event);
    } else if l.PostStep? {
      var db := PostSucceeds(c, s, l.i);
    }
  }

  lemma PlannedHasResult(c: Config, e: Event)
    requires WellFormed(c) && Planned(c, e)
    ensures !RawResultIsNil(e)
  {
    NoBindUpdate(c, e.Row());
  }

  lemma OwnStepCloser(c: Config, s: State, l: Label)
    requires OnePhase(s) && Enabled(c, s, l) && Own(l)
    ensures s.phase <= PHASES && Apply(c, s, l).phase <= PHASES && Closer(Apply(c, s, l), s)
  {
    if OfWorker(l) {
      WorkerStepCloser(c, s, l);
    } else if OfCollector(l) {
      CollectorStepCloser(c, s, l);
    } else {
      ProducerStepCloser(c, s, l);
    }
  }

  ghost predicate Unharmed(c: Config, run: seq<Label>, s: State) {
    Execute(c, run) == Some(s) && s.failures == 0 && !s.doneFired && s.phase <= PHASES
  }

  lemma NextOwnStep(c: Config, run: seq<Label>, s: State) returns (longer: seq<Label>, s': State)
    requires WellFormed(c) && c.parallelism >= 1 && Unharmed(c, run, s) && !Final(s)
    ensures Unharmed(c, longer, s') && Closer(s', s)
  {
    ControlHolds(c, run);
    ContentHolds(c, run);
    if Stuck(s) {
      StuckNeedsFailures(c, s);
    }
    Progress(c, s);
    var l :| Enabled(c, s, l) && Own(l);
    OwnStepSucceeds(c, s, l);
    OwnStepCloser(c, s, l);
    longer, s' := Extend(c, run, s, l);
  }

  lemma {:induction false} FinishFrom(c: Config, run: seq<Label>, s: State) returns (longer: seq<Label>, s': State)
    requires WellFormed(c) && c.parallelism >= 1 && Unharmed(c, run, s)
    ensures Unharmed(c, longer, s') && Final(s')
    decreases Major(s), Minor(s), Rest(s)
  {
    if Final(s) {
      longer, s' := run, s;
    } else {
      longer, s' := NextOwnStep(c, run, s);
      longer, s' := FinishFrom(c, longer, s');
    }
  }

  // From every reachable state without failures, and not told to stop, the
  // target can still be reached without any.
  lemma CanStillConverge(c: Config, run: seq<Label>) returns (longer: seq<Label>, s: State)
    requires WellFormed(c) && c.parallelism >= 1 && Execute(c, run).Some?
    requires Execute(c, run).value.failures == 0 && !Execute(c, run).value.doneFired
    ensures Execute(c, longer) == Some(s) && Final(s) && s.errs == [] && !s.doneFired
    ensures Matches(s.remote, c.target.ids) && s.remote == s.mirror.ids
  {
    ControlHolds(c, run);
    longer, s := FinishFrom(c, run, Execute(c, run).value);
    ControlHolds(c, longer);
    Convergence(c, longer);
  }
}
