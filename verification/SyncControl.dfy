// What every run of the sync engine keeps, whatever fails: the in-flight
// counter, the barrier between phases, and the hand-over of errors.
module SyncControl {
  import opened Entities
  import opened Sums
  import opened Sync

  // ---- Counting --------------------------------------------------------------

  function BusyWeight(w: Worker): nat {
    if w.Calling? || w.Posting? || w.Completing? then 1 else 0
  }

  function ExitedWeight(w: Worker): nat {
    if w.Exited? then 1 else 0
  }

  // A failure on its way to the collector.
  function FailureWeight(w: Worker): nat {
    if w.Reporting? || (w.Completing? && w.failure.Some?) then 1 else 0
  }

  function PendingSend(s: State): nat {
    if s.producer.Sending? || s.dropped.Some? then 1 else 0
  }

  // InFlightOps is what sits in the channel, what workers hold, and the one
  // send that is pending (or was given up, and is never subtracted).
  ghost predicate Accounted(c: Config, s: State) {
    && |s.workers| == c.parallelism
    && |s.channel| <= CAPACITY
    && s.inFlight == |s.channel| + Sum(s.workers, BusyWeight) + PendingSend(s)
    && (s.dropped.Some? ==> s.producer.Failing? || s.producer.Closing? || s.producer.Ended?)
    && (s.producer.Starting? || s.phase >= PHASES ==> s.inFlight == 0 && s.dropped.None?)
  }

  lemma AccountedWorker(c: Config, s: State, l: Label)
    requires Accounted(c, s) && Enabled(c, s, l) && OfWorker(l)
    ensures Accounted(c, Apply(c, s, l))
  {
    var s' := Apply(c, s, l);
    SumUpdate(s.workers, l.i, s'.workers[l.i], BusyWeight);
    assert s'.workers == s.workers[l.i := s'.workers[l.i]];
  }

  lemma AccountedStep(c: Config, s: State, l: Label)
    requires Accounted(c, s) && OnePhase(s) && Enabled(c, s, l)
    ensures Accounted(c, Apply(c, s, l))
  {
    if OfWorker(l) {
      AccountedWorker(c, s, l);
    }
  }

  // ---- The barrier -----------------------------------------------------------

  ghost predicate HeldEvent(w: Worker, e: Event) {
    (w.Calling? || w.Posting? || w.Completing?) && w.event == e
  }

  // e has been decided on and is not yet counted as completed.
  ghost predicate InFlight(s: State, e: Event) {
    || e in s.channel
    || ((s.producer.Counting? || s.producer.Sending?) && s.producer.event == e)
    || exists i :: 0 <= i < |s.workers| && HeldEvent(s.workers[i], e)
  }

  ghost predicate OnePhase(s: State) {
    && s.phase <= PHASES
    && (s.phase == PHASES ==> s.producer.Closing? || s.producer.Ended?)
    && (s.producer.Closing? || s.producer.Ended? ==> s.dropped.Some? || s.phase == PHASES)
    && (s.producer.Failing? ==> s.dropped.Some?)
    && (s.producer.Waiting? ==> s.next >= |s.listing|)
    && (!s.producer.Starting? && s.phase < PHASES ==> forall x | x in s.listing :: x.Kind() == PhaseKind(s.phase))
    && (forall e | InFlight(s, e) :: PhaseOf(e) == s.phase)
  }

  lemma NothingInFlight(c: Config, s: State, e: Event)
    requires Accounted(c, s) && s.inFlight == 0 && s.producer.Waiting?
    ensures !InFlight(s, e)
  {
    forall i | 0 <= i < |s.workers|
      ensures !HeldEvent(s.workers[i], e)
    {
      SumMember(s.workers, i, BusyWeight);
    }
  }

  // Only Issue brings an event into flight.
  lemma InFlightByWorker(c: Config, s: State, l: Label, e: Event)
    requires Enabled(c, s, l) && OfWorker(l)
    requires InFlight(Apply(c, s, l), e)
    ensures InFlight(s, e)
  {
    var s' := Apply(c, s, l);
    if e in s'.channel {
      assert e in s.channel;
    } else if i :| 0 <= i < |s'.workers| && HeldEvent(s'.workers[i], e) {
      if i == l.i && l.Take? {
        assert e == s.channel[0];
      } else {
        assert HeldEvent(s.workers[i], e);
      }
    }
  }

  lemma InFlightByOthers(c: Config, s: State, l: Label, e: Event)
    requires Enabled(c, s, l) && !OfWorker(l)
    requires InFlight(Apply(c, s, l), e)
    ensures InFlight(s, e) || (l.Issue? && e.obj == s.listing[s.next] && PhaseFits(e, s.phase))
  {
  }

  ghost predicate PhaseFits(e: Event, phase: nat) {
    e.op.Delete? <==> !IsCreatePhase(phase)
  }

  lemma PhaseEventsStep(c: Config, s: State, l: Label, e: Event)
    requires Accounted(c, s) && OnePhase(s) && Enabled(c, s, l)
    requires InFlight(Apply(c, s, l), e)
    ensures PhaseOf(e) == Apply(c, s, l).phase
  {
    if OfWorker(l) {
      InFlightByWorker(c, s, l, e);
    } else {
      InFlightByOthers(c, s, l, e);
      if l.Proceed? {
        NothingInFlight(c, s, e);
      }
    }
  }

  lemma OnePhaseStep(c: Config, s: State, l: Label)
    requires Accounted(c, s) && OnePhase(s) && Enabled(c, s, l)
    ensures OnePhase(Apply(c, s, l))
  {
    forall e | InFlight(Apply(c, s, l), e)
      ensures PhaseOf(e) == Apply(c, s, l).phase
    {
      PhaseEventsStep(c, s, l, e);
    }
  }

  // ---- Stopping and errors ----------------------------------------------------

  ghost predicate AllExited(s: State) {
    forall i | 0 <= i < |s.workers| :: s.workers[i].Exited?
  }

  ghost predicate Controlled(s: State) {
    && (s.stopped <==> s.collector.Collecting? || s.collector.Returned?)
    && (s.dropped.Some? ==> s.stopped)
    && (s.errClosed ==> Closed(s) && AllExited(s))
    && s.failures == |s.errs| + Sum(s.workers, FailureWeight)
    && (if Closed(s) then |s.errs| <= Sum(s.workers, ExitedWeight)
        else |s.errs| == Sum(s.workers, ExitedWeight))
    && (s.collector.Selecting? ==> s.errs == [] && !s.doneFired)
    && (!s.collector.Selecting? && s.errs == [] && !s.doneFired ==> s.errClosed && s.dropped.None?)
    && (s.collector.Returned? ==> s.errClosed)
  }

  lemma WorkerWeights(c: Config, s: State, l: Label)
    requires Enabled(c, s, l) && OfWorker(l)
    ensures
      var s' := Apply(c, s, l);
      && s'.workers == s.workers[l.i := s'.workers[l.i]]
      && Sum(s'.workers, FailureWeight) + FailureWeight(s.workers[l.i])
         == Sum(s.workers, FailureWeight) + FailureWeight(s'.workers[l.i])
      && Sum(s'.workers, ExitedWeight) + ExitedWeight(s.workers[l.i])
         == Sum(s.workers, ExitedWeight) + ExitedWeight(s'.workers[l.i])
  {
    var s' := Apply(c, s, l);
    assert s'.workers == s.workers[l.i := s'.workers[l.i]];
    SumUpdate(s.workers, l.i, s'.workers[l.i], FailureWeight);
    SumUpdate(s.workers, l.i, s'.workers[l.i], ExitedWeight);
  }

  lemma ControlledReport(c: Config, s: State, i: nat)
    requires Controlled(s) && Enabled(c, s, Report(i))
    ensures Controlled(Apply(c, s, Report(i)))
  {
    WorkerWeights(c, s, Report(i));
  }

  // A worker step other than a report changes nothing but workers, contents and
  // the number of failures.
  predicate ByWorker(s: State, s': State) {
    s' == s.(workers := s'.workers, channel := s'.channel, inFlight := s'.inFlight, mirror := s'.mirror,
             remote := s'.remote, failures := s'.failures)
  }

  lemma WorkerChanges(c: Config, s: State, l: Label)
    requires Enabled(c, s, l) && OfWorker(l) && !l.Report?
    ensures ByWorker(s, Apply(c, s, l))
  {
  }

  lemma ControlledByWeights(s: State, s': State)
    requires Controlled(s) && !s.errClosed && ByWorker(s, s')
    requires s'.failures == |s.errs| + Sum(s'.workers, FailureWeight)
    requires Sum(s'.workers, ExitedWeight) >= Sum(s.workers, ExitedWeight)
    requires !Closed(s) ==> Sum(s'.workers, ExitedWeight) == Sum(s.workers, ExitedWeight)
    ensures Controlled(s')
  {
  }

  lemma ControlledWorker(c: Config, s: State, l: Label)
    requires Controlled(s) && Enabled(c, s, l) && OfWorker(l)
    ensures Controlled(Apply(c, s, l))
  {
    if l.Report? {
      ControlledReport(c, s, l.i);
    } else {
      WorkerWeights(c, s, l);
      WorkerChanges(c, s, l);
      ControlledByWeights(s, Apply(c, s, l));
    }
  }

  lemma ControlledStep(c: Config, s: State, l: Label)
    requires OnePhase(s) && Controlled(s) && Enabled(c, s, l)
    ensures Controlled(Apply(c, s, l))
  {
    if OfWorker(l) {
      ControlledWorker(c, s, l);
    }
  }

  // ---- All runs ---------------------------------------------------------------

  ghost predicate Control(c: Config, s: State) {
    Accounted(c, s) && OnePhase(s) && Controlled(s)
  }

  lemma NoWeight(ws: seq<Worker>, f: Worker -> nat)
    requires forall i | 0 <= i < |ws| :: f(ws[i]) == 0
    ensures Sum(ws, f) == 0
  {
    if Sum(ws, f) > 0 {
      var i := SumPositive(ws, f);
    }
  }

  lemma ControlInit(c: Config)
    ensures Control(c, Init(c))
  {
    var s := Init(c);
    NoWeight(s.workers, BusyWeight);
    NoWeight(s.workers, FailureWeight);
    NoWeight(s.workers, ExitedWeight);
  }

  lemma {:induction false} ControlHolds(c: Config, run: seq<Label>)
    ensures Execute(c, run).Some? ==> Control(c, Execute(c, run).value)
  {
    if run == [] {
      ControlInit(c);
    } else {
      var before := run[..|run| - 1];
      ControlHolds(c, before);
      if Execute(c, run).Some? {
        var s, l := Execute(c, before).value, run[|run| - 1];
        AccountedStep(c, s, l);
        OnePhaseStep(c, s, l);
        ControlledStep(c, s, l);
      }
    }
  }

  // In-flight accounting: the counter is exact until a send is given up, and
  // its range fits an int32 for every parallelism below 2^31 - 11.
  lemma CounterIsExact(c: Config, run: seq<Label>)
    requires Execute(c, run).Some?
    ensures
      var s := Execute(c, run).value;
      && (s.dropped.None? ==> s.inFlight == |s.channel| + Sum(s.workers, BusyWeight)
                                         + (if s.producer.Sending? then 1 else 0))
      && 0 <= s.inFlight <= c.parallelism + 11
  {
    ControlHolds(c, run);
    SumAtMostLength(Execute(c, run).value.workers, BusyWeight);
  }

  // The barrier: at any time all events in flight belong to the producer's
  // phase, so none starts while one of an earlier phase is incomplete.
  lemma Barrier(c: Config, run: seq<Label>, e: Event)
    requires Execute(c, run).Some? && InFlight(Execute(c, run).value, e)
    ensures PhaseOf(e) == Execute(c, run).value.phase
  {
    ControlHolds(c, run);
  }

  // A run that returns no error either was told to stop, or saw no event fail
  // and walked all ten phases.
  lemma CleanReturn(c: Config, run: seq<Label>)
    requires Execute(c, run).Some?
    ensures
      var s := Execute(c, run).value;
      s.collector.Returned? && s.errs == [] ==>
        s.failures == 0 && (s.doneFired || (s.phase == PHASES && s.dropped.None?))
  {
    ControlHolds(c, run);
    var s := Execute(c, run).value;
    if s.collector.Returned? && s.errs == [] {
      NoWeight(s.workers, FailureWeight);
    }
  }
}
