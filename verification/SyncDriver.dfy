// Steering a run: events are handled one at a time, and each is chosen to
// succeed, to fail or to be given up.
module SyncDriver {
  import opened Entities
  import opened Store
  import opened Sync
  import opened SyncControl
  import opened SyncPlan
  import opened SyncContent
  import opened SyncLog
  import opened SyncLiveness
  import opened Sums

  lemma Extend(c: Config, run: seq<Label>, s: State, l: Label) returns (longer: seq<Label>, s': State)
    requires Execute(c, run) == Some(s) && Enabled(c, s, l)
    ensures Execute(c, longer) == Some(s') && s' == Apply(c, s, l)
  {
    longer, s' := run + [l], Apply(c, s, l);
    assert longer[..|longer| - 1] == run;
  }

  // ---- The producer alone ---------------------------------------------------------

  // Nothing is on its way, and the producer is somewhere in its loops.
  predicate Calm(s: State) {
    && s.channel == [] && s.inFlight == 0 && s.dropped.None?
    && (s.producer.Starting? || s.producer.Deciding? || s.producer.Waiting? || s.producer.Closing?)
  }

  // Only the producer has moved.
  ghost predicate Walked(s: State, s': State) {
    s' == s.(producer := s'.producer, phase := s'.phase, listing := s'.listing, next := s'.next, issued := s'.issued,
             base := s'.base, frozen := s'.frozen)
  }

  predicate InLoops(l: Label) {
    l.ListPhase? || l.EndListing? || l.Skip? || l.Proceed? || l.Issue?
  }

  lemma LoopStep(c: Config, s: State, l: Label)
    requires Enabled(c, s, l) && Calm(s) && InLoops(l)
    ensures Walked(s, Apply(c, s, l))
    ensures
      var s' := Apply(c, s, l);
      if l.Issue? then s'.producer.Counting? && s'.issued == s.issued + [s'.producer.event]
      else Calm(s') && s'.issued == s.issued
  {
  }

  lemma ProducerStep(c: Config, run: seq<Label>, s: State, l: Label) returns (longer: seq<Label>, s': State)
    requires Execute(c, run) == Some(s) && Enabled(c, s, l) && Calm(s) && InLoops(l)
    ensures Execute(c, longer) == Some(s') && s' == Apply(c, s, l)
    ensures s.phase <= PHASES && s'.phase <= PHASES && Closer(s', s)
  {
    longer, s' := Extend(c, run, s, l);
    ControlHolds(c, run);
    ProducerStepCloser(c, s, l);
  }

  lemma NextStep(c: Config, run: seq<Label>, s: State) returns (l: Label)
    requires WellFormed(c) && Execute(c, run) == Some(s) && Calm(s) && !s.producer.Closing?
    ensures Enabled(c, s, l) && InLoops(l)
  {
    ControlHolds(c, run);
    ContentHolds(c, run);
    if s.producer.Starting? {
      var db := if IsCreatePhase(s.phase) then c.target else s.mirror;
      ListingExists(db, PhaseKind(s.phase));
      var rows :| Lists(rows, db, PhaseKind(s.phase));
      l := ListPhase(rows);
    } else if s.producer.Waiting? {
      l := Proceed;
    } else if s.next >= |s.listing| {
      l := EndListing;
    } else if Decide(s.mirror, c.target, s.phase, s.listing[s.next]).None? {
      l := Skip;
    } else {
      l := Issue;
    }
  }

  // The producer walks on to its next event, or to the end.
  lemma {:induction false} NextIssue(c: Config, run: seq<Label>, s: State) returns (longer: seq<Label>, s': State)
    requires WellFormed(c) && Execute(c, run) == Some(s) && Calm(s) && s.phase <= PHASES
    ensures Execute(c, longer) == Some(s') && Walked(s, s')
    ensures if s'.producer.Counting? then s'.issued == s.issued + [s'.producer.event]
            else s'.producer.Closing? && s'.issued == s.issued
    decreases Major(s), Minor(s), Rest(s)
  {
    if s.producer.Closing? {
      longer, s' := run, s;
    } else {
      var l := NextStep(c, run, s);
      LoopStep(c, s, l);
      longer, s' := ProducerStep(c, run, s, l);
      if !l.Issue? {
        longer, s' := NextIssue(c, longer, s');
      }
    }
  }

  lemma NothingLeft(c: Config, run: seq<Label>, s: State)
    requires WellFormed(c) && Execute(c, run) == Some(s) && s.producer.Deciding? && s.next < |s.listing|
    requires forall e :: Planned(c, e) ==> e in s.issued
    ensures Enabled(c, s, Skip)
  {
    ControlHolds(c, run);
    ContentHolds(c, run);
    LogHolds(c, run);
    DecidesPlan(c, s);
    var r := s.listing[s.next].Row();
    SumMember(s.listing[s.next..], 0, EntityAt(r));
    if PlanAt(c, s.phase, r).Some? {
      EventForRow(c, r);
    }
  }

  // With nothing left to issue, the producer goes on to wait.
  lemma {:induction false} EndPhase(c: Config, run: seq<Label>, s: State) returns (longer: seq<Label>, s': State)
    requires WellFormed(c) && Execute(c, run) == Some(s) && s.producer.Deciding?
    requires forall e :: Planned(c, e) ==> e in s.issued
    ensures Execute(c, longer) == Some(s') && s' == s.(producer := Waiting, next := s'.next)
    decreases |s.listing| - s.next
  {
    ControlHolds(c, run);
    if s.next >= |s.listing| {
      longer, s' := Extend(c, run, s, EndListing);
    } else {
      NothingLeft(c, run, s);
      longer, s' := Extend(c, run, s, Skip);
      longer, s' := EndPhase(c, longer, s');
    }
  }

  // ---- One event -------------------------------------------------------------------

  lemma SendNext(c: Config, run: seq<Label>, s: State) returns (longer: seq<Label>, s': State)
    requires Execute(c, run) == Some(s) && s.producer.Counting? && s.channel == [] && s.inFlight == 0
    ensures Execute(c, longer) == Some(s')
    ensures s' == s.(producer := Deciding, inFlight := 1, channel := [s.producer.event])
  {
    longer, s' := Extend(c, run, s, Count);
    longer, s' := Extend(c, longer, s', Send);
  }

  // An event has been sent, and worker f can take it.
  ghost predicate Ready(s: State, f: nat, e: Event) {
    && s.producer.Deciding? && s.channel == [e] && s.inFlight == 1
    && f < |s.workers| && s.workers[f].Idle?
  }

  lemma Succeed(c: Config, run: seq<Label>, s: State, f: nat, e: Event) returns (longer: seq<Label>, s': State)
    requires WellFormed(c) && Execute(c, run) == Some(s) && Ready(s, f, e)
    ensures Execute(c, longer) == Some(s')
    ensures s' == s.(channel := [], inFlight := 0, mirror := s'.mirror, remote := Raw(s.remote, e))
  {
    longer, s' := Called(c, run, s, f, e);
    longer, s' := Posted(c, longer, s', f, e);
    assert s'.workers == s.workers;
  }

  lemma PostIsFine(c: Config, run: seq<Label>, s: State, f: nat)
    requires WellFormed(c) && Execute(c, run) == Some(s) && f < |s.workers| && s.workers[f].Posting?
    ensures Post(s.mirror, s.workers[f].event).Ok?
  {
    ControlHolds(c, run);
    ContentHolds(c, run);
    var db := PostSucceeds(c, s, f);
  }

  lemma Posted(c: Config, run: seq<Label>, s: State, f: nat, e: Event) returns (longer: seq<Label>, s': State)
    requires WellFormed(c) && Execute(c, run) == Some(s) && f < |s.workers| && s.workers[f] == Posting(e)
    ensures Execute(c, longer) == Some(s')
    ensures s' == s.(workers := s.workers[f := Idle], inFlight := s.inFlight - 1, mirror := s'.mirror)
  {
    PostIsFine(c, run, s, f);
    longer, s' := Extend(c, run, s, PostStep(f));
    longer, s' := Extend(c, longer, s', Complete(f));
    assert s'.workers == s.workers[f := Idle];
  }

  lemma Called(c: Config, run: seq<Label>, s: State, f: nat, e: Event) returns (longer: seq<Label>, s': State)
    requires WellFormed(c) && Execute(c, run) == Some(s) && Ready(s, f, e)
    ensures Execute(c, longer) == Some(s')
    ensures s' == s.(channel := [], workers := s.workers[f := Posting(e)], remote := Raw(s.remote, e))
  {
    ContentHolds(c, run);
    assert Planned(c, e) by {
      assert e in s.channel;
    }
    NoBindUpdate(c, e.Row());
    longer, s' := Extend(c, run, s, Take(f));
    longer, s' := Extend(c, longer, s', CallOk(f));
  }

  // The call fails, the worker reports it and exits, and the collector goes on
  // to collect.
  lemma Fail(c: Config, run: seq<Label>, s: State, f: nat, e: Event, applied: bool)
    returns (longer: seq<Label>, s': State)
    requires Execute(c, run) == Some(s) && Ready(s, f, e) && Receiving(s.collector)
    ensures Execute(c, longer) == Some(s')
    ensures s' == s.(channel := [], inFlight := 0, workers := s.workers[f := Exited], failures := s.failures + 1,
                     errs := s.errs + [CallFailed], collector := Collecting, stopped := true,
                     remote := if applied then Raw(s.remote, e) else s.remote)
  {
    ControlHolds(c, run);
    longer, s' := Lose(c, run, s, f, e, applied);
    longer, s' := Extend(c, longer, s', Report(f));
    if s.collector.Selecting? {
      longer, s' := Extend(c, longer, s', Stop);
    }
    assert s'.workers == s.workers[f := Exited];
  }

  lemma Lose(c: Config, run: seq<Label>, s: State, f: nat, e: Event, applied: bool)
    returns (longer: seq<Label>, s': State)
    requires Execute(c, run) == Some(s) && Ready(s, f, e)
    ensures Execute(c, longer) == Some(s')
    ensures s' == s.(channel := [], inFlight := 0, workers := s.workers[f := Reporting(CallFailed)],
                     failures := s.failures + 1, remote := if applied then Raw(s.remote, e) else s.remote)
  {
    longer, s' := Extend(c, run, s, Take(f));
    longer, s' := Extend(c, longer, s', CallErr(f, applied));
    longer, s' := Extend(c, longer, s', Complete(f));
    assert s'.workers == s.workers[f := Reporting(CallFailed)];
  }

  // Once the producer is stopped it may give up its next send.
  lemma GiveUp(c: Config, run: seq<Label>, s: State) returns (longer: seq<Label>, s': State)
    requires Execute(c, run) == Some(s) && s.producer.Counting? && s.stopped && s.collector.Collecting?
    ensures Execute(c, longer) == Some(s')
    ensures s' == s.(producer := Closing, inFlight := s.inFlight + 1, dropped := Some(s.producer.event))
  {
    longer, s' := Extend(c, run, s, Count);
    longer, s' := Extend(c, longer, s', Abandon);
    longer, s' := Extend(c, longer, s', ReportAbandoned);
  }

  // ---- The end ----------------------------------------------------------------------

  ghost predicate Resting(s: State) {
    s.channel == [] && forall i | 0 <= i < |s.workers| :: s.workers[i].Idle? || s.workers[i].Exited?
  }

  lemma {:induction false} DrainAll(c: Config, run: seq<Label>, s: State, k: nat)
    returns (longer: seq<Label>, s': State)
    requires Execute(c, run) == Some(s) && s.producer.Ended? && Resting(s) && k <= |s.workers|
    requires forall i | 0 <= i < k :: s.workers[i].Exited?
    ensures Execute(c, longer) == Some(s') && AllExited(s') && s' == s.(workers := s'.workers)
    decreases |s.workers| - k
  {
    longer, s' := run, s;
    if k < |s.workers| {
      if s.workers[k].Idle? {
        longer, s' := Extend(c, run, s, Drained(k));
      }
      longer, s' := DrainAll(c, longer, s', k + 1);
    }
  }

  // From a producer about to close and workers at rest, Run returns.
  lemma WindUp(c: Config, run: seq<Label>, s: State) returns (longer: seq<Label>, s': State)
    requires Execute(c, run) == Some(s) && s.producer.Closing? && Resting(s) && Receiving(s.collector)
    ensures Execute(c, longer) == Some(s') && Final(s')
    ensures s'.errs == s.errs && s'.remote == s.remote && s'.mirror == s.mirror && s'.doneFired == s.doneFired
  {
    longer, s' := Shut(c, run, s);
    if s'.collector.Selecting? {
      longer, s' := Extend(c, longer, s', SeeClosed);
      longer, s' := Extend(c, longer, s', Stop);
    }
    longer, s' := Extend(c, longer, s', Finish);
  }

  lemma Shut(c: Config, run: seq<Label>, s: State) returns (longer: seq<Label>, s': State)
    requires Execute(c, run) == Some(s) && s.producer.Closing? && Resting(s)
    ensures Execute(c, longer) == Some(s') && s' == s.(producer := Ended, workers := s'.workers, errClosed := true)
  {
    ControlHolds(c, run);
    longer, s' := Extend(c, run, s, Close);
    longer, s' := DrainAll(c, longer, s', 0);
    longer, s' := Extend(c, longer, s', CloseErrors);
  }
}
