// Whether Run returns. It does in every fair behaviour in which fewer events
// fail than there are workers; with as many failures it may wait forever.
module SyncLiveness {
  import opened Entities
  import opened Sums
  import opened Store
  import opened Sync
  import opened SyncControl

  predicate Final(s: State) {
    s.collector.Returned?
  }

  // A step the engine takes by itself: no turn of the spin loop, no signal from
  // outside and no failing call.
  predicate Own(l: Label) {
    !l.Spin? && !l.DoneFires? && !l.CallErr?
  }

  ghost predicate Live(c: Config, s: State) {
    exists l :: Enabled(c, s, l) && Own(l)
  }

  // The producer spins on events nobody is left to take, the collector waits
  // for an errChan nobody will close.
  ghost predicate Stuck(s: State) {
    s.producer.Waiting? && s.channel != [] && AllExited(s) && s.collector.Collecting?
  }

  // ---- The mirror stays listable -----------------------------------------------

  lemma PostIndexed(db: DB, e: Event)
    requires Indexed(db)
    ensures Post(db, e).Ok? ==> Indexed(Post(db, e).value)
  {
    OperationsKeepIndexed(db, e.obj, e.obj.Kind(), e.obj.Identifier());
  }

  lemma IndexedStep(c: Config, s: State, l: Label)
    requires Indexed(s.mirror) && Enabled(c, s, l)
    ensures Indexed(Apply(c, s, l).mirror)
  {
    if l.PostStep? {
      PostIndexed(s.mirror, s.workers[l.i].event);
    } else {
      assert Apply(c, s, l).mirror == s.mirror;
    }
  }

  lemma {:induction false} Enumerate(xs: set<Entity>) returns (rows: seq<Entity>)
    ensures forall x :: x in rows <==> x in xs
    ensures forall i, j | 0 <= i < j < |rows| :: rows[i] != rows[j]
  {
    if xs == {} {
      rows := [];
    } else {
      var x :| x in xs;
      var rest := Enumerate(xs - {x});
      rows := [x] + rest;
    }
  }

  lemma ListingExists(db: DB, kind: Kind)
    requires Indexed(db)
    ensures exists rows :: Lists(rows, db, kind)
  {
    var rows := Enumerate(set r | r in db.ids && r.kind == kind :: db.ids[r]);
    forall i | 0 <= i < |rows|
      ensures rows[i].Kind() == kind && Find(db.ids, rows[i].Row()) == Some(rows[i])
    {
      assert rows[i] in rows;
    }
    assert Lists(rows, db, kind);
  }

  // ---- A step is possible, or the run is stuck ------------------------------------

  lemma ProducerCanMove(c: Config, s: State)
    requires Control(c, s) && Indexed(s.mirror) && Indexed(c.target)
    requires s.producer.Starting? || s.producer.Deciding? || s.producer.Counting? || s.producer.Closing?
             || (s.producer.Failing? && Receiving(s.collector))
    ensures Live(c, s)
  {
    match s.producer
    case Starting =>
      var db := if IsCreatePhase(s.phase) then c.target else s.mirror;
      ListingExists(db, PhaseKind(s.phase));
      var rows :| Lists(rows, db, PhaseKind(s.phase));
      assert Enabled(c, s, ListPhase(rows));
    case Deciding => assert Enabled(c, s, EndListing) || Enabled(c, s, Skip) || Enabled(c, s, Issue);
    case Counting(_) => assert Enabled(c, s, Count);
    case Closing => assert Enabled(c, s, Close);
    case Failing => assert Enabled(c, s, ReportAbandoned);
  }

  lemma WorkerCanMove(c: Config, s: State, i: nat)
    requires i < |s.workers| && Receiving(s.collector)
    requires !s.workers[i].Idle? && !s.workers[i].Exited?
    ensures Live(c, s)
  {
    match s.workers[i]
    case Calling(_) => assert Enabled(c, s, CallOk(i));
    case Posting(_) => assert Enabled(c, s, PostStep(i));
    case Completing(_, _) => assert Enabled(c, s, Complete(i));
    case Reporting(_) => assert Enabled(c, s, Report(i));
  }

  // Only sending, waiting or a finished producer remain, and resting workers.
  lemma IdleWorkerMoves(c: Config, s: State, i: nat)
    requires Control(c, s) && i < |s.workers| && s.workers[i].Idle?
    requires forall k | 0 <= k < |s.workers| :: s.workers[k].Idle? || s.workers[k].Exited?
    requires s.producer.Sending? || s.producer.Waiting? || s.producer.Ended?
    ensures Live(c, s)
  {
    if s.channel != [] {
      assert Enabled(c, s, Take(i));
    } else if s.producer.Sending? {
      assert Enabled(c, s, Send);
    } else if s.producer.Waiting? {
      NoWeight(s.workers, BusyWeight);
      assert Enabled(c, s, Proceed);
    } else {
      assert Enabled(c, s, Drained(i));
    }
  }

  lemma AllGone(c: Config, s: State)
    requires Control(c, s) && c.parallelism >= 1 && AllExited(s) && Receiving(s.collector)
    requires s.producer.Sending? || s.producer.Waiting? || s.producer.Ended?
    ensures Live(c, s) || Stuck(s)
  {
    SumFull(s.workers, ExitedWeight);
    NoWeight(s.workers, BusyWeight);
    if s.producer.Ended? {
      if !s.errClosed {
        assert Enabled(c, s, CloseErrors);
      } else if s.collector.Selecting? {
        assert Enabled(c, s, SeeClosed);
      } else {
        assert Enabled(c, s, Finish);
      }
    } else if s.producer.Sending? {
      assert Enabled(c, s, Abandon);
    } else if s.channel == [] {
      assert Enabled(c, s, Proceed);
    }
  }

  // A run that has not returned can go on by itself, unless it is stuck.
  lemma Progress(c: Config, s: State)
    requires c.parallelism >= 1 && Control(c, s) && Indexed(s.mirror) && Indexed(c.target)
    requires !Final(s)
    ensures Live(c, s) <==> !Stuck(s)
  {
    if Stuck(s) {
      forall l | Enabled(c, s, l)
        ensures l.Spin?
      {
        StuckOnlySpins(c, s, l);
      }
    } else if s.collector.Stopping? {
      assert Enabled(c, s, Stop);
    } else if s.producer.Sending? || s.producer.Waiting? || s.producer.Ended? {
      if i :| 0 <= i < |s.workers| && !s.workers[i].Idle? && !s.workers[i].Exited? {
        WorkerCanMove(c, s, i);
      } else if i :| 0 <= i < |s.workers| && s.workers[i].Idle? {
        IdleWorkerMoves(c, s, i);
      } else {
        AllGone(c, s);
      }
    } else {
      ProducerCanMove(c, s);
    }
  }

  // From a stuck state nothing ever changes again.
  lemma StuckOnlySpins(c: Config, s: State, l: Label)
    requires Control(c, s) && Stuck(s) && Enabled(c, s, l)
    ensures l.Spin? && Apply(c, s, l) == s
  {
  }

  // Getting stuck takes a failure for every worker.
  lemma StuckNeedsFailures(c: Config, s: State)
    requires Control(c, s) && Stuck(s)
    ensures s.failures >= c.parallelism
  {
    SumFull(s.workers, ExitedWeight);
  }

  // ---- A measure that every step but the spin decreases -----------------------------

  function Effort(w: Worker): nat {
    match w
    case Calling(_) => 5
    case Posting(_) => 4
    case Completing(_, _) => 3
    case Reporting(_) => 2
    case Idle => 1
    case Exited => 0
  }

  function CollectorRank(k: Collector): nat {
    match k
    case Selecting => 3
    case Stopping => 2
    case Collecting => 1
    case Returned => 0
  }

  // Phases left and the producer's place among them.
  function Major(s: State): nat
    requires s.phase <= PHASES
  {
    match s.producer
    case Starting => 2 * (PHASES - s.phase) + 4
    case Failing => 3
    case Closing => 2
    case Ended => 1
    case _ => 2 * (PHASES - s.phase) + 3
  }

  // Objects left in the phase and the place in handling one.
  function Minor(s: State): nat {
    var left := if s.next <= |s.listing| then 3 * (|s.listing| - s.next) else 0;
    match s.producer
    case Counting(_) => left + 3
    case Sending(_) => left + 2
    case Deciding => left + 1
    case _ => 0
  }

  // Work left for workers and collector.
  function Rest(s: State): nat {
    5 * |s.channel| + Sum(s.workers, Effort) + CollectorRank(s.collector) + if s.errClosed then 0 else 1
  }

  predicate Closer(s': State, s: State)
    requires s'.phase <= PHASES && s.phase <= PHASES
  {
    || Major(s') < Major(s)
    || (Major(s') == Major(s) && Minor(s') < Minor(s))
    || (Major(s') == Major(s) && Minor(s') == Minor(s) && Rest(s') < Rest(s))
  }

  lemma ProducerStepCloser(c: Config, s: State, l: Label)
    requires OnePhase(s) && Enabled(c, s, l) && !l.Spin? && !OfWorker(l) && !OfCollector(l)
    ensures Apply(c, s, l).phase <= PHASES && Closer(Apply(c, s, l), s)
  {
  }

  lemma CollectorStepCloser(c: Config, s: State, l: Label)
    requires OnePhase(s) && Enabled(c, s, l) && OfCollector(l)
    ensures Apply(c, s, l).phase <= PHASES && Closer(Apply(c, s, l), s)
  {
  }

  lemma WorkerEffort(c: Config, s: State, l: Label)
    requires Enabled(c, s, l) && OfWorker(l)
    ensures
      var s' := Apply(c, s, l);
      Sum(s'.workers, Effort) + Effort(s.workers[l.i]) == Sum(s.workers, Effort) + Effort(s'.workers[l.i])
  {
    var w := Apply(c, s, l).workers[l.i];
    SumUpdate(s.workers, l.i, w, Effort);
    assert Apply(c, s, l).workers == s.workers[l.i := w];
  }

  // A worker step leaves the producer alone and takes work off the rest.
  lemma WorkerRest(c: Config, s: State, l: Label)
    requires Enabled(c, s, l) && OfWorker(l)
    ensures Rest(Apply(c, s, l)) < Rest(s)
  {
    WorkerEffort(c, s, l);
  }

  lemma WorkerStepCloser(c: Config, s: State, l: Label)
    requires OnePhase(s) && Enabled(c, s, l) && OfWorker(l)
    ensures Apply(c, s, l).phase <= PHASES && Closer(Apply(c, s, l), s)
  {
    WorkerRest(c, s, l);
  }

  // ---- Behaviours ------------------------------------------------------------------

  // An infinite behaviour of the system, continued arbitrarily once Run returned.
  ghost predicate Behaviour(c: Config, states: nat -> State, labels: nat -> Label) {
    && states(0) == Init(c)
    && forall i: nat :: Final(states(i)) ||
         (Enabled(c, states(i), labels(i)) && states(i + 1) == Apply(c, states(i), labels(i)))
  }

  // The scheduler does not let the spin loop run forever while the engine can
  // take another step by itself.
  ghost predicate Fair(c: Config, states: nat -> State, labels: nat -> Label) {
    forall i: nat :: Live(c, states(i)) ==>
      exists j: nat :: i <= j && (Final(states(j)) || !labels(j).Spin?)
  }

  ghost predicate NotYetFinal(states: nat -> State, n: nat) {
    forall i: nat | i < n :: !Final(states(i))
  }

  lemma {:induction false} BehaviourControlled(c: Config, states: nat -> State, labels: nat -> Label, n: nat)
    requires Behaviour(c, states, labels) && Indexed(c.current) && NotYetFinal(states, n)
    ensures Control(c, states(n)) && Indexed(states(n).mirror)
  {
    if n == 0 {
      ControlInit(c);
    } else {
      BehaviourControlled(c, states, labels, n - 1);
      AccountedStep(c, states(n - 1), labels(n - 1));
      OnePhaseStep(c, states(n - 1), labels(n - 1));
      ControlledStep(c, states(n - 1), labels(n - 1));
      IndexedStep(c, states(n - 1), labels(n - 1));
    }
  }

  // Spinning leaves the state as it is, so the first step that is not a spin
  // starts from the same state.
  lemma {:induction false} SkipSpins(c: Config, states: nat -> State, labels: nat -> Label, i: nat, j: nat)
    returns (k: nat)
    requires Behaviour(c, states, labels) && NotYetFinal(states, i) && !Final(states(i)) && i <= j
    requires Final(states(j)) || !labels(j).Spin?
    ensures NotYetFinal(states, k + 1) && states(k) == states(i) && !labels(k).Spin?
    decreases j - i
  {
    if !labels(i).Spin? {
      k := i;
    } else {
      k := SkipSpins(c, states, labels, i + 1, j);
    }
  }

  // Some later state is closer to the end.
  lemma Advances(c: Config, states: nat -> State, labels: nat -> Label, i: nat) returns (k: nat)
    requires c.parallelism >= 1 && Indexed(c.current) && Indexed(c.target)
    requires Behaviour(c, states, labels) && Fair(c, states, labels)
    requires NotYetFinal(states, i + 1) && !Stuck(states(i))
    ensures NotYetFinal(states, k) && states(i).phase <= PHASES && states(k).phase <= PHASES
    ensures Closer(states(k), states(i))
  {
    BehaviourControlled(c, states, labels, i);
    Progress(c, states(i));
    var j: nat :| i <= j && (Final(states(j)) || !labels(j).Spin?);
    var m := SkipSpins(c, states, labels, i, j);
    if OfWorker(labels(m)) {
      WorkerStepCloser(c, states(m), labels(m));
    } else if OfCollector(labels(m)) {
      CollectorStepCloser(c, states(m), labels(m));
    } else {
      ProducerStepCloser(c, states(m), labels(m));
    }
    k := m + 1;
  }

  lemma {:induction false} ReturnsFrom(c: Config, states: nat -> State, labels: nat -> Label, i: nat)
    returns (n: nat)
    requires c.parallelism >= 1 && Indexed(c.current) && Indexed(c.target)
    requires Behaviour(c, states, labels) && Fair(c, states, labels)
    requires forall k: nat | NotYetFinal(states, k) :: !Stuck(states(k))
    requires NotYetFinal(states, i) && states(i).phase <= PHASES
    ensures Final(states(n))
    decreases Major(states(i)), Minor(states(i)), Rest(states(i))
  {
    if Final(states(i)) {
      n := i;
    } else {
      var k := Advances(c, states, labels, i);
      n := ReturnsFrom(c, states, labels, k);
    }
  }

  // Termination: in every fair behaviour that does not get stuck, and so in
  // every one in which fewer events fail than there are workers, Run returns.
  lemma RunReturns(c: Config, states: nat -> State, labels: nat -> Label) returns (n: nat)
    requires c.parallelism >= 1 && Indexed(c.current) && Indexed(c.target)
    requires Behaviour(c, states, labels) && Fair(c, states, labels)
    requires forall k: nat | NotYetFinal(states, k) :: states(k).failures < c.parallelism
    ensures Final(states(n))
  {
    forall k: nat | NotYetFinal(states, k)
      ensures !Stuck(states(k))
    {
      BehaviourControlled(c, states, labels, k);
      if Stuck(states(k)) {
        StuckNeedsFailures(c, states(k));
      }
    }
    n := ReturnsFrom(c, states, labels, 0);
  }
}
