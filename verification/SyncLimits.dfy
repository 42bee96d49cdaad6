// Where the engine's guarantees stop, exactly: when Run can wait forever, when
// it can be stopped without an error short of the target, and how it fails.
module SyncLimits {
  import opened Entities
  import opened Sums
  import opened Store
  import opened Sync
  import opened SyncControl
  import opened SyncPlan
  import opened SyncResults
  import opened SyncLiveness
  import opened SyncDriver

  // ---- How many events there are --------------------------------------------------

  // The rows that need an event.
  function PlannedRows(c: Config): set<Ref> {
    set r | r in c.current.ids.Keys + c.target.ids.Keys && EventFor(c, r).Some?
  }

  lemma MatchesIffNoPlan(c: Config)
    ensures Matches(c.current.ids, c.target.ids) <==> PlannedRows(c) == {}
  {
    if PlannedRows(c) == {} {
      forall r
        ensures r in c.current.ids <==> r in c.target.ids
        ensures r in c.target.ids ==> Same(c.current.ids[r], c.target.ids[r])
      {
        assert r !in PlannedRows(c);
      }
    } else {
      var r :| r in PlannedRows(c);
      assert EventFor(c, r).Some?;
    }
  }

  function RowsOf(log: seq<Event>): (rows: seq<Ref>)
    ensures |rows| == |log| && forall i | 0 <= i < |log| :: rows[i] == log[i].Row()
  {
    seq(|log|, i requires 0 <= i < |log| => log[i].Row())
  }

  lemma {:induction false} DistinctAtMost(rows: seq<Ref>, all: set<Ref>)
    requires forall i, j | 0 <= i < j < |rows| :: rows[i] != rows[j]
    requires forall i | 0 <= i < |rows| :: rows[i] in all
    ensures |rows| <= |all|
    ensures |rows| == |all| ==> forall r | r in all :: r in rows
  {
    if rows != [] {
      var init, last := rows[..|rows| - 1], rows[|rows| - 1];
      DistinctAtMost(init, all - {last});
      assert rows == init + [last];
    }
  }

  lemma {:induction false} CoverAtLeast(rows: seq<Ref>, all: set<Ref>)
    requires forall r | r in all :: r in rows
    ensures |all| <= |rows|
  {
    if rows != [] {
      var init, last := rows[..|rows| - 1], rows[|rows| - 1];
      assert rows == init + [last];
      CoverAtLeast(init, all - {last});
      assert all <= all - {last} + {last};
    }
  }

  // A run issues no more events than are planned, and when it has issued as
  // many, it has issued them all.
  lemma IssuedAtMost(c: Config, run: seq<Label>)
    requires WellFormed(c) && Execute(c, run).Some?
    ensures |Execute(c, run).value.issued| <= |PlannedRows(c)|
    ensures |Execute(c, run).value.issued| == |PlannedRows(c)| ==>
              forall e :: Planned(c, e) ==> e in Execute(c, run).value.issued
  {
    MinimalPlan(c, run);
    var issued := Execute(c, run).value.issued;
    forall i | 0 <= i < |issued|
      ensures RowsOf(issued)[i] in PlannedRows(c)
    {
      assert issued[i] in issued;
    }
    DistinctAtMost(RowsOf(issued), PlannedRows(c));
    if |issued| == |PlannedRows(c)| {
      forall e | Planned(c, e)
        ensures e in issued
      {
        assert e.Row() in PlannedRows(c);
        var i :| 0 <= i < |issued| && RowsOf(issued)[i] == e.Row();
        assert issued[i] in issued;
      }
    }
  }

  // A producer that closes without having given up has issued every event.
  lemma ClosedIssuedAll(c: Config, run: seq<Label>)
    requires WellFormed(c) && Execute(c, run).Some?
    requires Execute(c, run).value.producer.Closing? && Execute(c, run).value.dropped.None?
    ensures |Execute(c, run).value.issued| == |PlannedRows(c)|
  {
    var issued := Execute(c, run).value.issued;
    ControlHolds(c, run);
    MinimalPlan(c, run);
    IssuedAtMost(c, run);
    forall r | r in PlannedRows(c)
      ensures r in RowsOf(issued)
    {
      EventForRow(c, r);
      var i :| 0 <= i < |issued| && issued[i] == EventFor(c, r).value;
      assert RowsOf(issued)[i] == r;
    }
    CoverAtLeast(RowsOf(issued), PlannedRows(c));
  }

  // ---- Each failure costs an event ---------------------------------------------------

  function OpenWeight(w: Worker): nat {
    if w.Calling? || w.Posting? then 1 else 0
  }

  function InProducer(p: Producer): nat {
    if p.Counting? || p.Sending? then 1 else 0
  }

  // Failed events, buffered events and events still in hand were all issued.
  ghost predicate Spent(s: State) {
    s.failures + |s.channel| + Sum(s.workers, OpenWeight) + InProducer(s.producer) <= |s.issued|
  }

  lemma SpentWorker(c: Config, s: State, l: Label)
    requires Spent(s) && Enabled(c, s, l) && OfWorker(l)
    ensures Spent(Apply(c, s, l))
  {
    var w := Apply(c, s, l).workers[l.i];
    SumUpdate(s.workers, l.i, w, OpenWeight);
    assert Apply(c, s, l).workers == s.workers[l.i := w];
  }

  lemma {:induction false} SpentHolds(c: Config, run: seq<Label>)
    ensures Execute(c, run).Some? ==> Spent(Execute(c, run).value)
  {
    if run == [] {
      NoWeight(Init(c).workers, OpenWeight);
    } else if Execute(c, run).Some? {
      var before, l := run[..|run| - 1], run[|run| - 1];
      SpentHolds(c, before);
      if OfWorker(l) {
        SpentWorker(c, Execute(c, before).value, l);
      }
    }
  }

  lemma StuckNeedsEvents(c: Config, run: seq<Label>)
    requires WellFormed(c) && Execute(c, run).Some? && Stuck(Execute(c, run).value)
    ensures |PlannedRows(c)| > c.parallelism
  {
    ControlHolds(c, run);
    SpentHolds(c, run);
    StuckNeedsFailures(c, Execute(c, run).value);
    IssuedAtMost(c, run);
  }

  // ---- Getting stuck -------------------------------------------------------------------

  // k events handled, f of them failed, each at the cost of a worker.
  ghost predicate Steered(c: Config, run: seq<Label>, s: State, k: nat, f: nat) {
    && Execute(c, run) == Some(s) && Calm(s) && s.phase <= PHASES && !s.doneFired
    && |s.issued| == k && |s.errs| == f
    && |s.workers| == c.parallelism && f <= c.parallelism
    && (forall i | 0 <= i < f :: s.workers[i].Exited?)
    && (forall i | f <= i < c.parallelism :: s.workers[i].Idle?)
    && (if f == 0 then s.collector.Selecting? else s.collector.Collecting?)
  }

  lemma HandleNext(c: Config, run: seq<Label>, s: State, k: nat, f: nat, fail: bool)
    returns (longer: seq<Label>, s': State)
    requires WellFormed(c) && Steered(c, run, s, k, f) && k < |PlannedRows(c)| && f < c.parallelism
    ensures Steered(c, longer, s', k + 1, if fail then f + 1 else f)
  {
    longer, s' := SendAnother(c, run, s);
    if fail {
      longer, s' := Fail(c, longer, s', f, s'.channel[0], false);
    } else {
      longer, s' := Succeed(c, longer, s', f, s'.channel[0]);
    }
  }

  lemma SendAnother(c: Config, run: seq<Label>, s: State) returns (longer: seq<Label>, s': State)
    requires WellFormed(c) && Execute(c, run) == Some(s) && Calm(s) && s.phase <= PHASES
    requires |s.issued| < |PlannedRows(c)|
    ensures Execute(c, longer) == Some(s') && s'.phase <= PHASES
    ensures |s'.channel| == 1 && s'.issued == s.issued + s'.channel && Planned(c, s'.channel[0])
    ensures s' == s.(producer := Deciding, inFlight := 1, channel := s'.channel, issued := s'.issued,
                     phase := s'.phase, listing := s'.listing, next := s'.next, base := s'.base, frozen := s'.frozen)
  {
    longer, s' := NextIssue(c, run, s);
    if s'.producer.Closing? {
      ClosedIssuedAll(c, longer);
    } else {
      longer, s' := SendNext(c, longer, s');
      ControlHolds(c, longer);
      MinimalPlan(c, longer);
      assert s'.channel[0] in s'.issued;
    }
  }

  lemma {:induction false} HandleMany(c: Config, k: nat, f: nat) returns (run: seq<Label>, s: State)
    requires WellFormed(c) && k + f <= |PlannedRows(c)| && f <= c.parallelism && c.parallelism >= 1
    ensures Steered(c, run, s, k + f, f)
    decreases k + f
  {
    if f > 0 {
      run, s := HandleMany(c, k, f - 1);
      run, s := HandleNext(c, run, s, k + f - 1, f - 1, true);
    } else if k > 0 {
      run, s := HandleMany(c, k - 1, 0);
      run, s := HandleNext(c, run, s, k - 1, 0, false);
    } else {
      run, s := [], Init(c);
    }
  }

  // All but parallelism + 1 events succeed, the next ones fail and take every
  // worker with them, and the last is sent to nobody.
  lemma HangReachable(c: Config) returns (run: seq<Label>, s: State)
    requires WellFormed(c) && c.parallelism >= 1 && |PlannedRows(c)| > c.parallelism
    ensures Execute(c, run) == Some(s) && Stuck(s)
  {
    run, s := HandleMany(c, |PlannedRows(c)| - c.parallelism - 1, c.parallelism);
    run, s := SendAnother(c, run, s);
    IssuedAtMost(c, run);
    run, s := EndPhase(c, run, s);
  }

  // A state from which Run never returns is reachable exactly when more rows
  // need an event than there are workers.
  lemma HangsIff(c: Config)
    requires WellFormed(c) && c.parallelism >= 1
    ensures (exists run :: Execute(c, run).Some? && Stuck(Execute(c, run).value)) <==>
              |PlannedRows(c)| > c.parallelism
  {
    if |PlannedRows(c)| > c.parallelism {
      var run, s := HangReachable(c);
    }
    if run :| Execute(c, run).Some? && Stuck(Execute(c, run).value) {
      StuckNeedsEvents(c, run);
    }
  }

  // ---- Stopped short and failed midway ------------------------------------------------------

  // Told to stop before the first send, Run reports no error and leaves the
  // gateway as it was, which is not the target.
  lemma StoppedRunIsSilent(c: Config) returns (run: seq<Label>, s: State)
    requires WellFormed(c) && PlannedRows(c) != {}
    ensures Execute(c, run) == Some(s) && Final(s) && s.doneFired && s.errs == []
    ensures s.remote == c.current.ids && !Matches(s.remote, c.target.ids)
  {
    MatchesIffNoPlan(c);
    run, s := Extend(c, [], Init(c), DoneFires);
    run, s := Extend(c, run, s, Stop);
    run, s := EndStopped(c, run, s);
  }

  // Run can return without an error short of the target exactly when there was
  // something to do.
  lemma SilentShortfallIff(c: Config)
    requires WellFormed(c)
    ensures (exists run :: Execute(c, run).Some? && Final(Execute(c, run).value) && Execute(c, run).value.errs == []
                        && !Matches(Execute(c, run).value.remote, c.target.ids)) <==> PlannedRows(c) != {}
  {
    MatchesIffNoPlan(c);
    if PlannedRows(c) != {} {
      var run, s := StoppedRunIsSilent(c);
    } else if run :| Execute(c, run).Some? && !Matches(Execute(c, run).value.remote, c.target.ids) {
      SecondRunIsSilent(c, run);
    }
  }

  // The reply to the first call is lost after it took effect: the run returns
  // an error and leaves the gateway with that one row changed.
  lemma FailsMidway(c: Config) returns (run: seq<Label>, s: State, e: Event)
    requires WellFormed(c) && c.parallelism >= 1 && PlannedRows(c) != {}
    ensures Execute(c, run) == Some(s) && Final(s) && s.errs == [CallFailed] && !s.doneFired
    ensures Planned(c, e) && s.remote == Raw(c.current.ids, e)
  {
    run, s := SendAnother(c, [], Init(c));
    e := s.channel[0];
    run, s := Fail(c, run, s, 0, e, true);
    run, s := EndStopped(c, run, s);
  }

  // A stopped producer gives up its next send, if it has one, and Run returns.
  lemma EndStopped(c: Config, run: seq<Label>, s: State) returns (longer: seq<Label>, s': State)
    requires WellFormed(c) && Execute(c, run) == Some(s) && Calm(s) && s.phase <= PHASES
    requires s.stopped && s.collector.Collecting? && Resting(s)
    ensures Execute(c, longer) == Some(s') && Final(s')
    ensures s'.errs == s.errs && s'.remote == s.remote && s'.doneFired == s.doneFired
  {
    longer, s' := NextIssue(c, run, s);
    if s'.producer.Counting? {
      longer, s' := GiveUp(c, longer, s');
    }
    longer, s' := WindUp(c, longer, s');
  }

  // ---- One failure among many ----------------------------------------------------------------

  // The row of event d has its effect, unless d is the one that fails.
  function SparedRow(c: Config, issued: seq<Event>, e: Event, r: Ref): Option<Entity> {
    match EventFor(c, r)
    case Some(d) => if d in issued && d != e then After(d) else Find(c.current.ids, r)
    case None => Find(c.current.ids, r)
  }

  // The event e, once issued, cost the first worker; no other event cost any.
  ghost predicate Crew(c: Config, run: seq<Label>, s: State, e: Event) {
    && Execute(c, run) == Some(s) && Calm(s) && s.phase <= PHASES && !s.doneFired
    && |s.workers| == c.parallelism && c.parallelism >= 2
    && (forall i | 1 <= i < c.parallelism :: s.workers[i].Idle?)
    && (if e in s.issued then s.workers[0].Exited? && s.errs == [CallFailed] && s.collector.Collecting?
        else s.workers[0].Idle? && s.errs == [] && s.collector.Selecting?)
  }

  // Every event so far has succeeded but e.
  ghost predicate Sparing(c: Config, run: seq<Label>, s: State, e: Event) {
    Crew(c, run, s, e) && Spared(c, s.issued, e, s.remote)
  }

  ghost predicate Spared(c: Config, issued: seq<Event>, e: Event, remote: map<Ref, Entity>) {
    forall r :: Find(remote, r) == SparedRow(c, issued, e, r)
  }

  lemma SparedNext(c: Config, issued: seq<Event>, e: Event, d: Event, remote: map<Ref, Entity>)
    requires WellFormed(c) && Planned(c, d)
    requires Spared(c, issued, e, remote)
    ensures Spared(c, issued + [d], e, if d == e then remote else Raw(remote, d))
  {
    RawCarriesOut(c, remote, d);
    forall r
      ensures Find(if d == e then remote else Raw(remote, d), r) == SparedRow(c, issued + [d], e, r)
    {
      if EventFor(c, r).Some? {
        EventForRow(c, r);
      }
    }
  }

  lemma FreshEvent(c: Config, run: seq<Label>, issued: seq<Event>, d: Event)
    requires WellFormed(c) && Execute(c, run).Some? && Execute(c, run).value.issued == issued + [d]
    ensures d !in issued
  {
    MinimalPlan(c, run);
    var all := issued + [d];
    forall x | x in issued
      ensures x != d
    {
      var i :| 0 <= i < |issued| && issued[i] == x;
      assert all[i].Row() != all[|issued|].Row();
    }
  }

  lemma SpareNext(c: Config, run: seq<Label>, s: State, e: Event) returns (longer: seq<Label>, s': State)
    requires WellFormed(c) && Sparing(c, run, s, e) && |s.issued| < |PlannedRows(c)|
    ensures Sparing(c, longer, s', e) && |s'.issued| == |s.issued| + 1
  {
    longer, s' := SendAnother(c, run, s);
    var d := s'.channel[0];
    assert s'.channel == [d];
    FreshEvent(c, longer, s.issued, d);
    SparedNext(c, s.issued, e, d, s.remote);
    if d == e {
      longer, s' := SpareFails(c, longer, s', s.issued, e);
    } else {
      longer, s' := SpareSucceeds(c, longer, s', s.issued, e, d);
    }
  }

  // The event d has been sent and nothing has happened to it yet.
  ghost predicate SpareSent(c: Config, run: seq<Label>, s: State, issued: seq<Event>, e: Event, d: Event) {
    && Execute(c, run) == Some(s) && s.phase <= PHASES && !s.doneFired && s.dropped.None?
    && s.producer.Deciding? && s.channel == [d] && s.inFlight == 1 && s.issued == issued + [d] && d !in issued
    && |s.workers| == c.parallelism && c.parallelism >= 2
    && (forall i | 1 <= i < c.parallelism :: s.workers[i].Idle?)
    && (if e in issued then s.workers[0].Exited? && s.errs == [CallFailed] && s.collector.Collecting?
        else s.workers[0].Idle? && s.errs == [] && s.collector.Selecting?)
  }

  lemma SpareFails(c: Config, run: seq<Label>, s: State, issued: seq<Event>, e: Event)
    returns (longer: seq<Label>, s': State)
    requires SpareSent(c, run, s, issued, e, e) && Spared(c, issued + [e], e, s.remote)
    ensures Sparing(c, longer, s', e) && s'.issued == s.issued
  {
    longer, s' := Fail(c, run, s, 0, e, false);
  }

  lemma SpareSucceeds(c: Config, run: seq<Label>, s: State, issued: seq<Event>, e: Event, d: Event)
    returns (longer: seq<Label>, s': State)
    requires WellFormed(c) && SpareSent(c, run, s, issued, e, d) && d != e
    requires Spared(c, issued + [d], e, Raw(s.remote, d))
    ensures Sparing(c, longer, s', e) && s'.issued == s.issued
  {
    longer, s' := Succeed(c, run, s, 1, d);
  }

  lemma {:induction false} SpareAll(c: Config, run: seq<Label>, s: State, e: Event)
    returns (longer: seq<Label>, s': State)
    requires WellFormed(c) && Sparing(c, run, s, e) && |s.issued| <= |PlannedRows(c)|
    ensures Sparing(c, longer, s', e) && |s'.issued| == |PlannedRows(c)|
    decreases |PlannedRows(c)| - |s.issued|
  {
    longer, s' := run, s;
    if |s.issued| < |PlannedRows(c)| {
      longer, s' := SpareNext(c, run, s, e);
      longer, s' := SpareAll(c, longer, s', e);
    }
  }

  // With two workers or more any one event can fail, without effect, while all
  // others succeed.
  lemma FailsAlone(c: Config, e: Event) returns (run: seq<Label>, s: State)
    requires WellFormed(c) && c.parallelism >= 2 && Planned(c, e)
    ensures Execute(c, run) == Some(s) && Final(s) && s.errs == [CallFailed] && !s.doneFired
    ensures forall r :: Find(s.remote, r) == if r == e.Row() then Find(c.current.ids, r) else Value(c, PHASES, r)
  {
    StartSparing(c, e);
    run, s := SpareAll(c, [], Init(c), e);
    IssuedAtMost(c, run);
    AllSpared(c, s.issued, e, s.remote);
    run, s := EndSparing(c, run, s, e);
  }

  lemma StartSparing(c: Config, e: Event)
    requires c.parallelism >= 2
    ensures Sparing(c, [], Init(c), e)
  {
  }

  lemma EndSparing(c: Config, run: seq<Label>, s: State, e: Event) returns (longer: seq<Label>, s': State)
    requires WellFormed(c) && Crew(c, run, s, e) && e in s.issued && |s.issued| == |PlannedRows(c)|
    ensures Execute(c, longer) == Some(s') && Final(s') && s'.errs == [CallFailed] && !s'.doneFired
    ensures s'.remote == s.remote
  {
    CrewRests(c, run, s, e);
    longer, s' := EndIssued(c, run, s);
  }

  lemma CrewRests(c: Config, run: seq<Label>, s: State, e: Event)
    requires Crew(c, run, s, e)
    ensures Resting(s) && Receiving(s.collector)
  {
    forall i | 0 <= i < |s.workers|
      ensures s.workers[i].Idle? || s.workers[i].Exited?
    {
      assert i == 0 || 1 <= i;
    }
  }

  lemma EndIssued(c: Config, run: seq<Label>, s: State) returns (longer: seq<Label>, s': State)
    requires WellFormed(c) && Execute(c, run) == Some(s) && Calm(s) && s.phase <= PHASES
    requires |s.issued| == |PlannedRows(c)| && Receiving(s.collector) && Resting(s)
    ensures Execute(c, longer) == Some(s') && Final(s')
    ensures s'.errs == s.errs && s'.remote == s.remote && s'.doneFired == s.doneFired
  {
    longer, s' := WalkOut(c, run, s);
    longer, s' := WindUp(c, longer, s');
  }

  lemma AllSpared(c: Config, issued: seq<Event>, e: Event, remote: map<Ref, Entity>)
    requires WellFormed(c) && Planned(c, e) && forall d :: Planned(c, d) ==> d in issued
    requires Spared(c, issued, e, remote)
    ensures forall r :: Find(remote, r) == if r == e.Row() then Find(c.current.ids, r) else Value(c, PHASES, r)
  {
    forall r
      ensures Find(remote, r) == if r == e.Row() then Find(c.current.ids, r) else Value(c, PHASES, r)
    {
      if EventFor(c, r).Some? {
        EventForRow(c, r);
        assert Planned(c, EventFor(c, r).value);
      }
    }
  }

  // With everything issued the producer walks to the end.
  lemma WalkOut(c: Config, run: seq<Label>, s: State) returns (longer: seq<Label>, s': State)
    requires WellFormed(c) && Execute(c, run) == Some(s) && Calm(s) && s.phase <= PHASES
    requires |s.issued| == |PlannedRows(c)|
    ensures Execute(c, longer) == Some(s') && Walked(s, s') && s'.producer.Closing?
  {
    longer, s' := NextIssue(c, run, s);
    IssuedAtMost(c, longer);
  }

  // So a bind can be left behind without its cluster: the two are to be deleted
  // and the bind's call fails, or they are to be created and the cluster's does.
  lemma OrphanReachable(c: Config, b: Ref, k: Ref) returns (run: seq<Label>, s: State)
    requires WellFormed(c) && c.parallelism >= 2 && EventFor(c, b).Some? && EventFor(c, k).Some? && b != k
    requires EventFor(c, b).value.op == EventFor(c, k).value.op && !EventFor(c, b).value.op.Update?
    ensures Execute(c, run) == Some(s) && Final(s) && s.errs != [] && !s.doneFired
    ensures b in s.remote && k !in s.remote
  {
    EventForRow(c, b);
    EventForRow(c, k);
    if EventFor(c, b).value.op.Delete? {
      run, s := FailsAlone(c, EventFor(c, b).value);
    } else {
      run, s := FailsAlone(c, EventFor(c, k).value);
    }
    assert Find(s.remote, b).Some? && Find(s.remote, k).None?;
  }

  // ---- When Run returns -------------------------------------------------------------------------

  lemma {:induction false} BehaviourRuns(c: Config, states: nat -> State, labels: nat -> Label, n: nat)
    returns (run: seq<Label>)
    requires Behaviour(c, states, labels) && NotYetFinal(states, n)
    ensures Execute(c, run) == Some(states(n))
  {
    if n == 0 {
      run := [];
    } else {
      run := BehaviourRuns(c, states, labels, n - 1);
      var s: State;
      run, s := Extend(c, run, states(n - 1), labels(n - 1));
    }
  }

  // A finite run, continued by spinning.
  ghost function StatesOf(c: Config, run: seq<Label>, s: State): nat -> State {
    (n: nat) => if n <= |run| && Execute(c, run[..n]).Some? then Execute(c, run[..n]).value else s
  }

  function LabelsOf(run: seq<Label>): nat -> Label {
    (n: nat) => if n < |run| then run[n] else Spin
  }

  lemma {:induction false} PrefixRuns(c: Config, run: seq<Label>, n: nat)
    requires n <= |run| && Execute(c, run).Some?
    ensures Execute(c, run[..n]).Some?
    ensures n < |run| ==>
              && Enabled(c, Execute(c, run[..n]).value, run[n])
              && Execute(c, run[..n + 1]) == Some(Apply(c, Execute(c, run[..n]).value, run[n]))
    decreases |run|
  {
    if n == |run| {
      assert run[..n] == run;
    } else {
      var init := run[..|run| - 1];
      assert init[..n] == run[..n];
      PrefixRuns(c, init, n);
      if n == |init| {
        assert run[..n + 1] == run;
      } else {
        assert init[..n + 1] == run[..n + 1];
      }
    }
  }

  lemma {:induction false} ReturnedStays(c: Config, run: seq<Label>, n: nat)
    requires n <= |run| && Execute(c, run).Some? && Execute(c, run[..n]).Some?
    requires Final(Execute(c, run[..n]).value)
    ensures Final(Execute(c, run).value)
    decreases |run| - n
  {
    if n < |run| {
      PrefixRuns(c, run, n);
      ReturnedStays(c, run, n + 1);
    } else {
      assert run[..n] == run;
    }
  }

  // If nothing but spins follow, the state no longer changes.
  lemma {:induction false} OnlySpins(c: Config, run: seq<Label>, n: nat)
    requires n <= |run| && Execute(c, run).Some?
    requires forall k | n <= k < |run| :: run[k].Spin?
    ensures Execute(c, run[..n]) == Execute(c, run)
    decreases |run| - n
  {
    if n < |run| {
      PrefixRuns(c, run, n);
      OnlySpins(c, run, n + 1);
    } else {
      assert run[..n] == run;
    }
  }

  lemma StuckIsNotLive(c: Config, run: seq<Label>)
    requires Execute(c, run).Some? && Stuck(Execute(c, run).value)
    ensures !Live(c, Execute(c, run).value) && Enabled(c, Execute(c, run).value, Spin)
  {
    ControlHolds(c, run);
    var s := Execute(c, run).value;
    forall l | Enabled(c, s, l)
      ensures l.Spin?
    {
      StuckOnlySpins(c, s, l);
    }
  }

  lemma StuckBehaviour(c: Config, run: seq<Label>, s: State)
    requires Execute(c, run) == Some(s) && Stuck(s)
    ensures Behaviour(c, StatesOf(c, run, s), LabelsOf(run)) && Fair(c, StatesOf(c, run, s), LabelsOf(run))
    ensures forall n: nat :: !Final(StatesOf(c, run, s)(n))
  {
    var states, labels := StatesOf(c, run, s), LabelsOf(run);
    StuckIsNotLive(c, run);
    forall i: nat
      ensures Enabled(c, states(i), labels(i)) && states(i + 1) == Apply(c, states(i), labels(i))
      ensures !Final(states(i))
    {
      if i < |run| {
        PrefixRuns(c, run, i);
        if Final(states(i)) {
          ReturnedStays(c, run, i);
        }
      } else {
        assert run[..|run|] == run;
      }
    }
    forall i: nat | Live(c, states(i))
      ensures exists j: nat :: i <= j && (Final(states(j)) || !labels(j).Spin?)
    {
      SomeMoveFollows(c, run, s, i);
    }
  }

  lemma SomeMoveFollows(c: Config, run: seq<Label>, s: State, i: nat)
    requires Execute(c, run) == Some(s) && !Live(c, s) && Live(c, StatesOf(c, run, s)(i))
    ensures exists j: nat :: i <= j && !LabelsOf(run)(j).Spin?
  {
    assert run[..|run|] == run;
    if i < |run| {
      if forall k | i <= k < |run| :: run[k].Spin? {
        OnlySpins(c, run, i);
      } else {
        var k: nat :| i <= k < |run| && !run[k].Spin?;
        assert !LabelsOf(run)(k).Spin?;
      }
    }
  }

  // Run is sure to return, in every fair behaviour whatever fails, exactly when
  // no more rows need an event than there are workers.
  lemma RunReturnsIff(c: Config)
    requires WellFormed(c) && c.parallelism >= 1
    ensures (forall states: nat -> State, labels: nat -> Label |
               Behaviour(c, states, labels) && Fair(c, states, labels) :: exists n: nat :: Final(states(n))) <==>
              |PlannedRows(c)| <= c.parallelism
  {
    if |PlannedRows(c)| <= c.parallelism {
      forall states: nat -> State, labels: nat -> Label | Behaviour(c, states, labels) && Fair(c, states, labels)
        ensures exists n: nat :: Final(states(n))
      {
        var n := ReturnsWithFewEvents(c, states, labels);
      }
    } else {
      var run, s := HangReachable(c);
      StuckBehaviour(c, run, s);
    }
  }

  lemma ReturnsWithFewEvents(c: Config, states: nat -> State, labels: nat -> Label) returns (n: nat)
    requires WellFormed(c) && c.parallelism >= 1 && |PlannedRows(c)| <= c.parallelism
    requires Behaviour(c, states, labels) && Fair(c, states, labels)
    ensures Final(states(n))
  {
    forall k: nat | NotYetFinal(states, k)
      ensures !Stuck(states(k))
    {
      var run := BehaviourRuns(c, states, labels, k);
      if Stuck(states(k)) {
        StuckNeedsEvents(c, run);
      }
    }
    n := ReturnsFrom(c, states, labels, 0);
  }

  // ---- An ordinary instance ----------------------------------------------------------------------

  // Two new objects of the first kind that do not hide each other.
  lemma TwoNewServers(a: Entity, b: Entity) returns (c: Config)
    requires a.Server? && b.Server? && a.HasId() && b.HasId() && a.addr != "" && b.addr != ""
    requires a.Row() != b.Row() && a.NameRow() != b.NameRow()
    requires Apart(a, b)
    ensures WellFormed(c) && c.parallelism == 1 && PlannedRows(c) == {a.Row(), b.Row()}
  {
    var db := DB(map[a.Row() := a, b.Row() := b], map[a.NameRow() := a, b.NameRow() := b]);
    c := Config(EMPTY, db, 1);
    assert Coherent(db) by {
      assert forall r | r in db.ids :: db.ids[r] == a || db.ids[r] == b;
    }
    assert forall x | Known(c, x) :: x == a || x == b;
  }

  // It takes nothing unusual: two new servers and one worker will do.
  lemma OrdinaryConfigHangs() returns (c: Config, run: seq<Label>)
    ensures WellFormed(c) && c.parallelism == 1
    ensures Execute(c, run).Some? && Stuck(Execute(c, run).value)
  {
    var a, b := Server(1, "a:80", "", ""), Server(2, "b:80", "", "");
    assert a.Key() == "1" && b.Key() == "2" && a.addr[0] != b.addr[0];
    c := TwoNewServers(a, b);
    var s: State;
    run, s := HangReachable(c);
  }
}
