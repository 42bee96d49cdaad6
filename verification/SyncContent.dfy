// What the mirror and the gateway contain in every run: each row holds either
// the value it had when the phase began or the planned one, and which of the
// two depends only on where its event is. After a failure a row may also have
// been left as it was at the start.
module SyncContent {
  import opened Entities
  import opened Sums
  import opened Store
  import opened Sync
  import opened SyncControl
  import opened SyncPlan

  // ---- Where the event of a row is -------------------------------------------

  function EventAt(r: Ref): Event -> nat {
    (e: Event) => if e.Row() == r then 1 else 0
  }

  function EntityAt(r: Ref): Entity -> nat {
    (x: Entity) => if x.Row() == r then 1 else 0
  }

  function CallingAt(r: Ref): Worker -> nat {
    (w: Worker) => if w.Calling? && w.event.Row() == r then 1 else 0
  }

  function PostingAt(r: Ref): Worker -> nat {
    (w: Worker) => if w.Posting? && w.event.Row() == r then 1 else 0
  }

  function InHand(p: Producer, r: Ref): nat {
    if (p.Counting? || p.Sending?) && p.event.Row() == r then 1 else 0
  }

  function Dropped(d: Option<Event>, r: Ref): nat {
    if d.Some? && d.value.Row() == r then 1 else 0
  }

  // The listing of the current phase has been fetched.
  predicate InPhase(s: State) {
    !s.producer.Starting? && s.phase < PHASES
  }

  function Unlisted(s: State, r: Ref): nat {
    if InPhase(s) && s.next <= |s.listing| then Sum(s.listing[s.next..], EntityAt(r)) else 0
  }

  // How often row r is still to be decided on, sent, received or applied.
  function Ahead(s: State, r: Ref): nat {
    Unlisted(s, r) + InHand(s.producer, r) + Dropped(s.dropped, r)
    + Sum(s.channel, EventAt(r)) + Sum(s.workers, CallingAt(r))
  }

  // How often row r is applied at the gateway and not yet in the mirror.
  function Between(s: State, r: Ref): nat {
    Sum(s.workers, PostingAt(r))
  }

  function Reached(s: State): nat {
    if InPhase(s) then s.phase + 1 else s.phase
  }

  // ---- The invariant ------------------------------------------------------------

  // The contents of row r are as planned, or its event is among those that
  // failed.
  predicate Stands(c: Config, failures: nat, phase: nat, r: Ref, have: Option<Entity>) {
    have == Value(c, phase, r) || (failures > 0 && have == Find(c.current.ids, r))
  }

  ghost predicate RowHolds(c: Config, s: State, r: Ref) {
    && Ahead(s, r) + Between(s, r) <= 1
    && Stands(c, s.failures, if Ahead(s, r) == 1 then s.phase else Reached(s), r, Find(s.remote, r))
    && Stands(c, s.failures, if Ahead(s, r) + Between(s, r) == 1 then s.phase else Reached(s), r,
              Find(s.mirror.ids, r))
  }

  ghost predicate Listed(c: Config, phase: nat, x: Entity)
    requires phase < PHASES
  {
    && x.Kind() == PhaseKind(phase) && Known(c, x)
    && (IsCreatePhase(phase) ==> Find(c.target.ids, x.Row()) == Some(x))
  }

  // Every event that still has to reach the mirror is the planned one.
  ghost predicate OnPlan(c: Config, s: State) {
    && (forall e | e in s.channel :: Planned(c, e))
    && (s.producer.Counting? || s.producer.Sending? ==> Planned(c, s.producer.event))
    && (forall i | 0 <= i < |s.workers| && (s.workers[i].Calling? || s.workers[i].Posting?) ::
          Planned(c, s.workers[i].event))
  }

  ghost predicate ListingHolds(c: Config, s: State) {
    InPhase(s) ==>
      && s.next <= |s.listing|
      && forall i | 0 <= i < |s.listing| :: Listed(c, s.phase, s.listing[i])
  }

  ghost predicate Content(c: Config, s: State) {
    && Mirrors(c, s.mirror)
    && ListingHolds(c, s)
    && OnPlan(c, s)
    && forall r :: RowHolds(c, s, r)
  }

  // ---- Steps of the workers --------------------------------------------------------

  lemma TakeRow(c: Config, s: State, i: nat, r: Ref)
    requires Enabled(c, s, Take(i)) && RowHolds(c, s, r)
    ensures RowHolds(c, Apply(c, s, Take(i)), r)
  {
    SumUpdate(s.workers, i, Calling(s.channel[0]), CallingAt(r));
    SumUpdate(s.workers, i, Calling(s.channel[0]), PostingAt(r));
  }

  lemma CallRow(c: Config, s: State, i: nat, r: Ref)
    requires Enabled(c, s, CallOk(i)) && RowHolds(c, s, r)
    requires Planned(c, s.workers[i].event) && !RawResultIsNil(s.workers[i].event)
    requires InPhase(s) && PhaseOf(s.workers[i].event) == s.phase
    ensures RowHolds(c, s.(workers := s.workers[i := Posting(s.workers[i].event)],
                           remote := Raw(s.remote, s.workers[i].event)), r)
  {
    var e := s.workers[i].event;
    SumUpdate(s.workers, i, Posting(e), CallingAt(r));
    SumUpdate(s.workers, i, Posting(e), PostingAt(r));
  }

  // A call that fails may have changed the row at the gateway.
  lemma CallErrRow(c: Config, s: State, i: nat, applied: bool, r: Ref)
    requires Enabled(c, s, CallErr(i, applied)) && RowHolds(c, s, r)
    requires Planned(c, s.workers[i].event) && !RawResultIsNil(s.workers[i].event)
    requires InPhase(s) && PhaseOf(s.workers[i].event) == s.phase
    ensures RowHolds(c, Apply(c, s, CallErr(i, applied)), r)
  {
    var e := s.workers[i].event;
    SumUpdate(s.workers, i, Completing(e, Some(CallFailed)), CallingAt(r));
    SumUpdate(s.workers, i, Completing(e, Some(CallFailed)), PostingAt(r));
  }

  // A worker holds events only during a phase, and of that phase.
  lemma WorkerInPhase(c: Config, s: State, i: nat)
    requires Control(c, s) && i < |s.workers|
    requires s.workers[i].Calling? || s.workers[i].Posting?
    ensures InPhase(s) && PhaseOf(s.workers[i].event) == s.phase
  {
    SumMember(s.workers, i, BusyWeight);
    assert HeldEvent(s.workers[i], s.workers[i].event);
    assert InFlight(s, s.workers[i].event);
  }

  lemma PostRow(c: Config, s: State, i: nat, db: DB, r: Ref)
    requires Enabled(c, s, PostStep(i))
    requires InPhase(s) && PhaseOf(s.workers[i].event) == s.phase
    requires Find(db.ids, s.workers[i].event.Row()) == After(s.workers[i].event)
    requires r != s.workers[i].event.Row() ==> Find(db.ids, r) == Find(s.mirror.ids, r)
    requires RowHolds(c, s, r) && Planned(c, s.workers[i].event)
    ensures RowHolds(c, s.(workers := s.workers[i := Completing(s.workers[i].event, None)], mirror := db), r)
  {
    var e := s.workers[i].event;
    SumUpdate(s.workers, i, Completing(e, None), CallingAt(r));
    SumUpdate(s.workers, i, Completing(e, None), PostingAt(r));
  }

  // While a worker is posting an event its row in the mirror is untouched.
  lemma PostSucceeds(c: Config, s: State, i: nat) returns (db: DB)
    requires WellFormed(c) && Control(c, s) && Content(c, s) && Enabled(c, s, PostStep(i))
    ensures Post(s.mirror, s.workers[i].event) == Ok(db)
    ensures Mirrors(c, db)
    ensures Find(db.ids, s.workers[i].event.Row()) == After(s.workers[i].event)
    ensures forall r | r != s.workers[i].event.Row() :: Find(db.ids, r) == Find(s.mirror.ids, r)
  {
    var e := s.workers[i].event;
    WorkerInPhase(c, s, i);
    SumMember(s.workers, i, PostingAt(e.Row()));
    assert RowHolds(c, s, e.Row());
    PostCarriesOut(c, s.mirror, e);
    db := Post(s.mirror, e).value;
  }

  // Replacing a worker that holds no event by another such worker.
  lemma QuietWorkerRow(c: Config, s: State, i: nat, w: Worker, r: Ref)
    requires i < |s.workers| && RowHolds(c, s, r)
    requires !s.workers[i].Calling? && !s.workers[i].Posting? && !w.Calling? && !w.Posting?
    ensures RowHolds(c, s.(workers := s.workers[i := w]), r)
  {
    SumUpdate(s.workers, i, w, CallingAt(r));
    SumUpdate(s.workers, i, w, PostingAt(r));
  }

  // Only the phase, the two counts and the contents of the row matter.
  lemma SameCounts(c: Config, s: State, s': State, r: Ref)
    requires RowHolds(c, s, r)
    requires Ahead(s', r) == Ahead(s, r) && Between(s', r) == Between(s, r)
    requires s'.phase == s.phase && Reached(s') == Reached(s) && s'.failures == s.failures
    requires s'.mirror == s.mirror && s'.remote == s.remote
    ensures RowHolds(c, s', r)
  {
  }

  lemma DoneWorkerRow(c: Config, s: State, l: Label, r: Ref)
    requires l.Drained? || l.Complete? || l.Report?
    requires Enabled(c, s, l) && RowHolds(c, s, r)
    ensures RowHolds(c, Apply(c, s, l), r)
  {
    var w := Apply(c, s, l).workers[l.i];
    QuietWorkerRow(c, s, l.i, w, r);
    SameCounts(c, s.(workers := s.workers[l.i := w]), Apply(c, s, l), r);
  }

  // ---- Steps of the producer ---------------------------------------------------------

  // Fetching the objects of a phase lists every row the phase has an event for.
  lemma PlannedIsListed(c: Config, phase: nat, db: DB, rows: seq<Entity>, r: Ref)
    requires WellFormed(c) && phase < PHASES && PlanAt(c, phase, r).Some?
    requires Lists(rows, if IsCreatePhase(phase) then c.target else db, PhaseKind(phase))
    requires Find(db.ids, r) == Find(c.current.ids, r)
    ensures Sum(rows, EntityAt(r)) >= 1
  {
    var e := PlanAt(c, phase, r).value;
    EventForRow(c, r);
    var x := if IsCreatePhase(phase) then c.target.ids[r] else db.ids[r];
    assert x in rows;
    var k :| 0 <= k < |rows| && rows[k] == x;
    SumMember(rows, k, EntityAt(r));
  }

  lemma ListRow(c: Config, s: State, rows: seq<Entity>, r: Ref)
    requires WellFormed(c) && Accounted(c, s) && RowHolds(c, s, r) && Enabled(c, s, ListPhase(rows))
    ensures RowHolds(c, Apply(c, s, ListPhase(rows)), r)
  {
    IdleRow(c, s, r);
    assert rows[0..] == rows;
    SumAtMostOne(rows, EntityAt(r));
    if PlanAt(c, s.phase, r).Some? {
      PlannedIsListed(c, s.phase, s.mirror, rows, r);
    }
  }

  // Between phases nothing is on its way.
  lemma IdleRow(c: Config, s: State, r: Ref)
    requires Accounted(c, s) && s.inFlight == 0 && s.dropped.None?
    requires s.producer.Starting? || s.phase >= PHASES || (s.producer.Waiting? && s.next >= |s.listing|)
    requires !s.producer.Counting? && !s.producer.Sending?
    ensures Ahead(s, r) == Between(s, r) == 0
  {
    forall i | 0 <= i < |s.workers|
      ensures BusyWeight(s.workers[i]) == 0
    {
      SumMember(s.workers, i, BusyWeight);
    }
    NoWeight(s.workers, CallingAt(r));
    NoWeight(s.workers, PostingAt(r));
    if InPhase(s) && s.next <= |s.listing| {
      assert s.listing[s.next..] == [];
    }
  }

  lemma ListingFollows(c: Config, s: State, rows: seq<Entity>)
    requires Mirrors(c, s.mirror) && Enabled(c, s, ListPhase(rows))
    ensures ListingHolds(c, Apply(c, s, ListPhase(rows)))
  {
  }

  // Before its create phase has begun a target row is as it was at the start.
  lemma TargetRowUntouched(c: Config, phase: nat, x: Entity)
    requires phase < PHASES && IsCreatePhase(phase) && x.Kind() == PhaseKind(phase)
    requires Find(c.target.ids, x.Row()) == Some(x)
    ensures Value(c, phase, x.Row()) == Find(c.current.ids, x.Row())
  {
  }

  lemma UndecidedStands(c: Config, s: State)
    requires s.producer.Deciding? && s.phase < PHASES && s.next < |s.listing|
    requires RowHolds(c, s, s.listing[s.next].Row())
    ensures Stands(c, s.failures, s.phase, s.listing[s.next].Row(), Find(s.mirror.ids, s.listing[s.next].Row()))
  {
    SumMember(s.listing[s.next..], 0, EntityAt(s.listing[s.next].Row()));
  }

  // The producer decides on a row while the mirror still has its old value.
  lemma DecidesPlan(c: Config, s: State)
    requires WellFormed(c) && Content(c, s)
    requires s.producer.Deciding? && s.phase < PHASES && s.next < |s.listing|
    ensures Decide(s.mirror, c.target, s.phase, s.listing[s.next])
         == PlanAt(c, s.phase, s.listing[s.next].Row())
  {
    var x := s.listing[s.next];
    assert Listed(c, s.phase, x) && RowHolds(c, s, x.Row());
    UndecidedStands(c, s);
    if IsCreatePhase(s.phase) {
      TargetRowUntouched(c, s.phase, x);
    }
    DecideIsPlan(c, s.mirror, s.phase, x);
  }

  lemma UnlistedNext(s: State, s': State, r: Ref)
    requires InPhase(s) && InPhase(s') && s.next < |s.listing|
    requires s'.listing == s.listing && s'.next == s.next + 1
    ensures Unlisted(s, r) == Unlisted(s', r) + EntityAt(r)(s.listing[s.next])
  {
    assert s.listing[s.next..][1..] == s.listing[s.next + 1..];
  }

  lemma DecideRow(c: Config, s: State, l: Label, r: Ref)
    requires Enabled(c, s, l) && (l.Skip? || l.Issue?)
    requires s.phase < PHASES && s.dropped.None? && RowHolds(c, s, r)
    requires Decide(s.mirror, c.target, s.phase, s.listing[s.next])
          == PlanAt(c, s.phase, s.listing[s.next].Row())
    requires l.Issue? ==> PlanAt(c, s.phase, s.listing[s.next].Row()).value.Row() == s.listing[s.next].Row()
    ensures RowHolds(c, Apply(c, s, l), r)
  {
    UnlistedNext(s, Apply(c, s, l), r);
    if l.Issue? {
      SameCounts(c, s, Apply(c, s, l), r);
    } else {
      SkippedRow(c, s, r);
    }
  }

  lemma SkippedRow(c: Config, s: State, r: Ref)
    requires Enabled(c, s, Skip) && s.phase < PHASES && RowHolds(c, s, r)
    requires PlanAt(c, s.phase, s.listing[s.next].Row()).None?
    requires Unlisted(s, r) == Unlisted(Apply(c, s, Skip), r) + EntityAt(r)(s.listing[s.next])
    ensures RowHolds(c, Apply(c, s, Skip), r)
  {
    if s.listing[s.next].Row() != r {
      SameCounts(c, s, Apply(c, s, Skip), r);
    }
  }

  lemma SendRow(c: Config, s: State, r: Ref)
    requires Enabled(c, s, Send) && RowHolds(c, s, r)
    ensures RowHolds(c, Apply(c, s, Send), r)
  {
    SumAppend(s.channel, s.producer.event, EventAt(r));
    SameCounts(c, s, Apply(c, s, Send), r);
  }

  lemma ProceedRow(c: Config, s: State, r: Ref)
    requires Accounted(c, s) && OnePhase(s) && Enabled(c, s, Proceed) && RowHolds(c, s, r)
    ensures RowHolds(c, Apply(c, s, Proceed), r)
  {
    AccountedStep(c, s, Proceed);
    IdleRow(c, s, r);
    IdleRow(c, Apply(c, s, Proceed), r);
  }

  lemma QuietProducerRow(c: Config, s: State, l: Label, r: Ref)
    requires Accounted(c, s) && Enabled(c, s, l) && RowHolds(c, s, r)
    requires l.EndListing? || l.Count? || l.Abandon? || l.Spin? || l.ReportAbandoned? || l.Close?
    ensures RowHolds(c, Apply(c, s, l), r)
  {
    SameCounts(c, s, Apply(c, s, l), r);
  }

  lemma QuietCollectorRow(c: Config, s: State, l: Label, r: Ref)
    requires Enabled(c, s, l) && RowHolds(c, s, r) && OfCollector(l)
    ensures RowHolds(c, Apply(c, s, l), r)
  {
    SameCounts(c, s, Apply(c, s, l), r);
  }

  // ---- All runs -----------------------------------------------------------------

  lemma WorkerRow(c: Config, s: State, l: Label, db: DB, r: Ref)
    requires Enabled(c, s, l) && OfWorker(l)
    requires RowHolds(c, s, r)
    requires l.CallOk? || l.CallErr? || l.PostStep? ==>
               && Planned(c, s.workers[l.i].event) && !RawResultIsNil(s.workers[l.i].event)
               && InPhase(s) && PhaseOf(s.workers[l.i].event) == s.phase
    requires l.PostStep? ==>
               && Post(s.mirror, s.workers[l.i].event) == Ok(db)
               && Find(db.ids, s.workers[l.i].event.Row()) == After(s.workers[l.i].event)
               && (r != s.workers[l.i].event.Row() ==> Find(db.ids, r) == Find(s.mirror.ids, r))
    ensures RowHolds(c, Apply(c, s, l), r)
  {
    if l.Take? {
      TakeRow(c, s, l.i, r);
    } else if l.CallOk? {
      CallRow(c, s, l.i, r);
    } else if l.CallErr? {
      CallErrRow(c, s, l.i, l.applied, r);
    } else if l.PostStep? {
      PostRow(c, s, l.i, db, r);
    } else {
      DoneWorkerRow(c, s, l, r);
    }
  }

  lemma WorkerContent(c: Config, s: State, l: Label)
    requires WellFormed(c) && Control(c, s) && Content(c, s) && Enabled(c, s, l) && OfWorker(l)
    ensures Content(c, Apply(c, s, l))
  {
    var db := s.mirror;
    if l.PostStep? {
      db := PostSucceeds(c, s, l.i);
    }
    if l.PostStep? || l.CallOk? || l.CallErr? {
      NoBindUpdate(c, s.workers[l.i].event.Row());
      WorkerInPhase(c, s, l.i);
    }
    WorkerOnPlan(c, s, l);
    forall r
      ensures RowHolds(c, Apply(c, s, l), r)
    {
      assert RowHolds(c, s, r);
      WorkerRow(c, s, l, db, r);
    }
  }

  lemma WorkerOnPlan(c: Config, s: State, l: Label)
    requires OnPlan(c, s) && Enabled(c, s, l) && OfWorker(l)
    ensures OnPlan(c, Apply(c, s, l))
  {
  }

  lemma ProducerRow(c: Config, s: State, l: Label, r: Ref)
    requires WellFormed(c) && Accounted(c, s) && OnePhase(s) && RowHolds(c, s, r)
    requires Enabled(c, s, l) && !OfWorker(l)
    requires l.Skip? || l.Issue? ==>
               Decide(s.mirror, c.target, s.phase, s.listing[s.next])
               == PlanAt(c, s.phase, s.listing[s.next].Row())
    ensures RowHolds(c, Apply(c, s, l), r)
  {
    if l.Issue? {
      EventForRow(c, s.listing[s.next].Row());
    }
    if l.ListPhase? {
      ListRow(c, s, l.rows, r);
    } else if l.Skip? || l.Issue? {
      DecideRow(c, s, l, r);
    } else if l.Send? {
      SendRow(c, s, r);
    } else if l.Proceed? {
      ProceedRow(c, s, r);
    } else if OfCollector(l) {
      QuietCollectorRow(c, s, l, r);
    } else {
      QuietProducerRow(c, s, l, r);
    }
  }

  lemma ProducerOnPlan(c: Config, s: State, l: Label)
    requires WellFormed(c) && OnPlan(c, s) && Enabled(c, s, l) && !OfWorker(l)
    requires l.Issue? ==>
               Decide(s.mirror, c.target, s.phase, s.listing[s.next])
               == PlanAt(c, s.phase, s.listing[s.next].Row())
    ensures OnPlan(c, Apply(c, s, l))
  {
  }

  lemma ProducerContent(c: Config, s: State, l: Label)
    requires WellFormed(c) && Control(c, s) && Content(c, s) && Enabled(c, s, l) && !OfWorker(l)
    ensures Content(c, Apply(c, s, l))
  {
    if l.ListPhase? {
      ListingFollows(c, s, l.rows);
    } else if l.Skip? || l.Issue? {
      DecidesPlan(c, s);
    }
    ProducerOnPlan(c, s, l);
    forall r
      ensures RowHolds(c, Apply(c, s, l), r)
    {
      assert RowHolds(c, s, r);
      ProducerRow(c, s, l, r);
    }
  }

  lemma ContentInit(c: Config)
    requires WellFormed(c)
    ensures Content(c, Init(c))
  {
    var s := Init(c);
    ControlInit(c);
    forall r | r in c.current.ids
      ensures Known(c, c.current.ids[r])
    {
    }
    forall r
      ensures RowHolds(c, s, r)
    {
      IdleRow(c, s, r);
    }
  }

  lemma {:induction false} ContentHolds(c: Config, run: seq<Label>)
    requires WellFormed(c)
    ensures Execute(c, run).Some? ==> Content(c, Execute(c, run).value)
  {
    if run == [] {
      ContentInit(c);
    } else if Execute(c, run).Some? {
      var before := run[..|run| - 1];
      var s, l := Execute(c, before).value, run[|run| - 1];
      ControlHolds(c, before);
      ContentHolds(c, before);
      if OfWorker(l) {
        WorkerContent(c, s, l);
      } else {
        ProducerContent(c, s, l);
      }
    }
  }

  lemma SameRows(m: map<Ref, Entity>, m': map<Ref, Entity>)
    requires forall r :: Find(m, r) == Find(m', r)
    ensures m == m'
  {
    forall r
      ensures r in m <==> r in m'
      ensures r in m ==> m[r] == m'[r]
    {
      assert Find(m, r) == Find(m', r);
    }
  }

  // At a barrier of a failure-free run every row of both stores has its planned
  // value.
  lemma AtBarrier(c: Config, s: State)
    requires Control(c, s) && Content(c, s) && s.failures == 0
    requires s.producer.Starting? || s.phase >= PHASES
    ensures forall r :: Find(s.remote, r) == Value(c, s.phase, r)
    ensures forall r :: Find(s.mirror.ids, r) == Value(c, s.phase, r)
    ensures s.remote == s.mirror.ids
  {
    forall r
      ensures Find(s.remote, r) == Value(c, s.phase, r) && Find(s.mirror.ids, r) == Value(c, s.phase, r)
    {
      assert RowHolds(c, s, r);
      IdleRow(c, s, r);
    }
    SameRows(s.remote, s.mirror.ids);
  }

  // Convergence: whatever the interleaving, a run that returns no error and
  // was not told to stop leaves the gateway equal to the mirror and both
  // matching the target.
  lemma Convergence(c: Config, run: seq<Label>)
    requires WellFormed(c) && Execute(c, run).Some?
    requires Execute(c, run).value.collector.Returned?
    requires Execute(c, run).value.errs == [] && !Execute(c, run).value.doneFired
    ensures Execute(c, run).value.remote == Execute(c, run).value.mirror.ids
    ensures Matches(Execute(c, run).value.remote, c.target.ids)
    ensures
      var remote := Execute(c, run).value.remote;
      remote.Keys == c.target.ids.Keys && forall r | r in c.target.ids :: FieldsAgree(remote[r], c.target.ids[r])
    ensures Coherent(Execute(c, run).value.mirror)
  {
    var s := Execute(c, run).value;
    CleanReturn(c, run);
    ControlHolds(c, run);
    ContentHolds(c, run);
    AtBarrier(c, s);
    PlanReachesTarget(c, s.remote);
  }
}
