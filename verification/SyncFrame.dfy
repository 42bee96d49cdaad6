// A gateway that holds more than the engine was told: no step reads the gateway,
// so a run does to the rows it knows what it would do without the others, and
// leaves the others alone.
module SyncFrame {
  import opened Entities
  import opened Store
  import opened Sync
  import opened SyncControl
  import opened SyncPlan
  import opened SyncContent
  import opened SyncResults
  import opened SyncLimits

  // The run of labels with the gateway as it is, and the mirror as listed.
  ghost function ExecuteFrom(c: Config, gateway: map<Ref, Entity>, run: seq<Label>): Option<State> {
    if run == [] then Some(Init(c).(remote := gateway))
    else match ExecuteFrom(c, gateway, run[..|run| - 1])
         case None => None
         case Some(s) =>
           var l := run[|run| - 1];
           if Enabled(c, s, l) then Some(Apply(c, s, l)) else None
  }

  // When the listing is complete this is the run the other modules speak of.
  lemma {:induction false} WholeListing(c: Config, run: seq<Label>)
    ensures ExecuteFrom(c, c.current.ids, run) == Execute(c, run)
  {
    if run != [] {
      WholeListing(c, run[..|run| - 1]);
    }
  }

  // What the two runs have of one row: what its event leaves, or, as long as that
  // has not reached the gateway, what each started with.
  ghost predicate RowFramed(c: Config, gateway: map<Ref, Entity>, r: Ref, listed: Option<Entity>,
                            whole: Option<Entity>) {
    || (EventFor(c, r).Some? && whole == listed == After(EventFor(c, r).value))
    || (listed == Find(c.current.ids, r) && whole == Find(gateway, r))
  }

  ghost predicate Framed(c: Config, gateway: map<Ref, Entity>, s: State, s': State) {
    && SameButRemote(s, s')
    && forall r :: RowFramed(c, gateway, r, Find(s.remote, r), Find(s'.remote, r))
  }

  // Only a call touches the gateway.
  lemma RemoteStep(c: Config, s: State, l: Label)
    requires Enabled(c, s, l)
    ensures if l.CallOk? || (l.CallErr? && l.applied) then Apply(c, s, l).remote == Raw(s.remote, s.workers[l.i].event)
            else Apply(c, s, l).remote == s.remote
  {
  }

  // No step looks at the gateway.
  lemma SameEnabled(c: Config, s: State, gateway: map<Ref, Entity>, l: Label)
    ensures Enabled(c, s, l) <==> Enabled(c, s.(remote := gateway), l)
  {
  }

  predicate SameButRemote(s: State, s': State) {
    s' == s.(remote := s'.remote)
  }

  lemma SameCall(c: Config, s: State, gateway: map<Ref, Entity>, l: Label)
    requires Enabled(c, s, l) && Enabled(c, s.(remote := gateway), l) && (l.CallOk? || l.CallErr?)
    ensures SameButRemote(Apply(c, s, l), Apply(c, s.(remote := gateway), l))
  {
  }

  lemma SamePost(c: Config, s: State, gateway: map<Ref, Entity>, l: Label)
    requires Enabled(c, s, l) && Enabled(c, s.(remote := gateway), l) && l.PostStep?
    ensures SameButRemote(Apply(c, s, l), Apply(c, s.(remote := gateway), l))
  {
  }

  lemma SameQuietWorker(c: Config, s: State, gateway: map<Ref, Entity>, l: Label)
    requires Enabled(c, s, l) && Enabled(c, s.(remote := gateway), l)
    requires l.Take? || l.Drained? || l.Complete? || l.Report?
    ensures SameButRemote(Apply(c, s, l), Apply(c, s.(remote := gateway), l))
  {
  }

  lemma SameCollector(c: Config, s: State, gateway: map<Ref, Entity>, l: Label)
    requires Enabled(c, s, l) && Enabled(c, s.(remote := gateway), l) && OfCollector(l)
    ensures SameButRemote(Apply(c, s, l), Apply(c, s.(remote := gateway), l))
  {
  }

  predicate OfListing(l: Label) {
    l.ListPhase? || l.EndListing? || l.Skip? || l.Issue?
  }

  lemma SameListing(c: Config, s: State, gateway: map<Ref, Entity>, l: Label)
    requires Enabled(c, s, l) && Enabled(c, s.(remote := gateway), l) && OfListing(l)
    ensures SameButRemote(Apply(c, s, l), Apply(c, s.(remote := gateway), l))
  {
  }

  lemma SameSending(c: Config, s: State, gateway: map<Ref, Entity>, l: Label)
    requires Enabled(c, s, l) && Enabled(c, s.(remote := gateway), l)
    requires !OfListing(l) && !OfWorker(l) && !OfCollector(l)
    ensures SameButRemote(Apply(c, s, l), Apply(c, s.(remote := gateway), l))
  {
  }

  lemma SameStep(c: Config, s: State, gateway: map<Ref, Entity>, l: Label)
    requires Enabled(c, s, l) && Enabled(c, s.(remote := gateway), l)
    ensures SameButRemote(Apply(c, s, l), Apply(c, s.(remote := gateway), l))
  {
    if l.CallOk? || l.CallErr? {
      SameCall(c, s, gateway, l);
    } else if l.PostStep? {
      SamePost(c, s, gateway, l);
    } else if OfWorker(l) {
      SameQuietWorker(c, s, gateway, l);
    } else if OfCollector(l) {
      SameCollector(c, s, gateway, l);
    } else if OfListing(l) {
      SameListing(c, s, gateway, l);
    } else {
      SameSending(c, s, gateway, l);
    }
  }

  lemma RawFramed(c: Config, gateway: map<Ref, Entity>, e: Event, m: map<Ref, Entity>, m': map<Ref, Entity>, r: Ref)
    requires WellFormed(c) && Planned(c, e) && RowFramed(c, gateway, r, Find(m, r), Find(m', r))
    ensures RowFramed(c, gateway, r, Find(Raw(m, e), r), Find(Raw(m', e), r))
  {
    RawCarriesOut(c, m, e);
    RawCarriesOut(c, m', e);
  }

  lemma FramedStep(c: Config, gateway: map<Ref, Entity>, s: State, s': State, l: Label)
    requires WellFormed(c) && OnPlan(c, s) && Framed(c, gateway, s, s') && Enabled(c, s, l)
    ensures Enabled(c, s', l) && Framed(c, gateway, Apply(c, s, l), Apply(c, s', l))
  {
    SameEnabled(c, s, s'.remote, l);
    SameStep(c, s, s'.remote, l);
    RemoteStep(c, s, l);
    RemoteStep(c, s', l);
    if l.CallOk? || (l.CallErr? && l.applied) {
      forall r
        ensures RowFramed(c, gateway, r, Find(Raw(s.remote, s.workers[l.i].event), r),
                          Find(Raw(s'.remote, s.workers[l.i].event), r))
      {
        RawFramed(c, gateway, s.workers[l.i].event, s.remote, s'.remote, r);
      }
    }
  }

  // The runs go together and differ in nothing but those rows.
  lemma {:induction false} FrameHolds(c: Config, gateway: map<Ref, Entity>, run: seq<Label>)
    requires WellFormed(c)
    ensures Execute(c, run).Some? <==> ExecuteFrom(c, gateway, run).Some?
    ensures Execute(c, run).Some? ==> Framed(c, gateway, Execute(c, run).value, ExecuteFrom(c, gateway, run).value)
  {
    if run != [] {
      var before, l := run[..|run| - 1], run[|run| - 1];
      FrameHolds(c, gateway, before);
      if Execute(c, before).Some? {
        var s, s' := Execute(c, before).value, ExecuteFrom(c, gateway, before).value;
        SameEnabled(c, s, s'.remote, l);
        if Enabled(c, s, l) {
          ContentHolds(c, before);
          FramedStep(c, gateway, s, s', l);
        }
      }
    }
  }

  // ---- What this means for a gateway that shows its current state ----------------------

  // The current state is the part of the gateway that was listed.
  ghost predicate Shows(gateway: map<Ref, Entity>, current: map<Ref, Entity>) {
    forall r | r in current :: Find(gateway, r) == Some(current[r])
  }

  // Rows that neither state has stay as they are, in every run.
  lemma OthersStay(c: Config, gateway: map<Ref, Entity>, run: seq<Label>, r: Ref)
    requires WellFormed(c) && ExecuteFrom(c, gateway, run).Some? && EventFor(c, r).None?
    ensures Find(ExecuteFrom(c, gateway, run).value.remote, r) == Find(gateway, r)
  {
    FrameHolds(c, gateway, run);
    var s, s' := Execute(c, run).value, ExecuteFrom(c, gateway, run).value;
    assert RowFramed(c, gateway, r, Find(s.remote, r), Find(s'.remote, r));
  }

  // Every row is as it was in the gateway or as its one event leaves it.
  lemma GatewayRows(c: Config, gateway: map<Ref, Entity>, run: seq<Label>, r: Ref)
    requires WellFormed(c) && ExecuteFrom(c, gateway, run).Some?
    ensures
      var have := Find(ExecuteFrom(c, gateway, run).value.remote, r);
      have == Find(gateway, r) || (EventFor(c, r).Some? && have == After(EventFor(c, r).value))
  {
    FrameHolds(c, gateway, run);
    var s, s' := Execute(c, run).value, ExecuteFrom(c, gateway, run).value;
    assert RowFramed(c, gateway, r, Find(s.remote, r), Find(s'.remote, r));
  }

  // ---- Clean runs ------------------------------------------------------------------------

  lemma EventShows(c: Config, r: Ref)
    requires EventFor(c, r).Some?
    ensures After(EventFor(c, r).value) != Find(c.current.ids, r)
  {
  }

  // After a clean run every row that needed an event is as the event leaves it,
  // and every other row as it was in the gateway.
  lemma CleanRows(c: Config, gateway: map<Ref, Entity>, run: seq<Label>, r: Ref)
    requires WellFormed(c) && ExecuteFrom(c, gateway, run).Some?
    requires Clean(ExecuteFrom(c, gateway, run).value)
    ensures Find(ExecuteFrom(c, gateway, run).value.remote, r)
         == if EventFor(c, r).Some? then After(EventFor(c, r).value) else Find(gateway, r)
  {
    FrameHolds(c, gateway, run);
    var s, s' := Execute(c, run).value, ExecuteFrom(c, gateway, run).value;
    assert RowFramed(c, gateway, r, Find(s.remote, r), Find(s'.remote, r));
    if EventFor(c, r).Some? {
      EventShows(c, r);
      CleanRunPlanned(c, run, r);
    }
  }

  lemma CleanRunPlanned(c: Config, run: seq<Label>, r: Ref)
    requires WellFormed(c) && Execute(c, run).Some? && Clean(Execute(c, run).value)
    ensures Find(Execute(c, run).value.remote, r) == Value(c, PHASES, r)
  {
    CleanReturn(c, run);
    ControlHolds(c, run);
    ContentHolds(c, run);
    AtBarrier(c, Execute(c, run).value);
  }

  // The gateway matches the target in every row of either state.
  lemma CleanRowMatches(c: Config, gateway: map<Ref, Entity>, run: seq<Label>, r: Ref)
    requires WellFormed(c) && Shows(gateway, c.current.ids) && ExecuteFrom(c, gateway, run).Some?
    requires Clean(ExecuteFrom(c, gateway, run).value) && (r in c.current.ids || r in c.target.ids)
    ensures
      var have := ExecuteFrom(c, gateway, run).value.remote;
      (r in have <==> r in c.target.ids) && (r in have ==> Same(have[r], c.target.ids[r]))
  {
    CleanRows(c, gateway, run, r);
  }

  // A clean run brings the gateway to the target exactly when everything the
  // gateway held was listed, or is what the target asks for anyway.
  lemma CleanMatchesIff(c: Config, gateway: map<Ref, Entity>, run: seq<Label>)
    requires WellFormed(c) && Shows(gateway, c.current.ids) && ExecuteFrom(c, gateway, run).Some?
    requires Clean(ExecuteFrom(c, gateway, run).value)
    ensures Matches(ExecuteFrom(c, gateway, run).value.remote, c.target.ids) <==>
              forall r | r in gateway :: r in c.current.ids || r in c.target.ids
  {
    var have := ExecuteFrom(c, gateway, run).value.remote;
    forall r
      ensures r in c.current.ids || r in c.target.ids ==>
                (r in have <==> r in c.target.ids) && (r in have ==> Same(have[r], c.target.ids[r]))
      ensures !(r in c.current.ids || r in c.target.ids) ==> Find(have, r) == Find(gateway, r)
    {
      if r in c.current.ids || r in c.target.ids {
        CleanRowMatches(c, gateway, run, r);
      } else {
        OthersStay(c, gateway, run, r);
      }
    }
    MatchesByRows(c, gateway, have);
  }

  lemma MatchesByRows(c: Config, gateway: map<Ref, Entity>, have: map<Ref, Entity>)
    requires forall r | r in c.current.ids || r in c.target.ids ::
               (r in have <==> r in c.target.ids) && (r in have ==> Same(have[r], c.target.ids[r]))
    requires forall r | !(r in c.current.ids || r in c.target.ids) :: Find(have, r) == Find(gateway, r)
    ensures Matches(have, c.target.ids) <==> forall r | r in gateway :: r in c.current.ids || r in c.target.ids
  {
    if Matches(have, c.target.ids) {
      forall r | r in gateway
        ensures r in c.current.ids || r in c.target.ids
      {
        assert Find(have, r) == Find(gateway, r) || r in c.current.ids || r in c.target.ids;
        assert r in have ==> r in have.Keys;
      }
    }
  }

  // In a gateway that shows more, an event still shows.
  lemma FailsMidwayFrom(c: Config, gateway: map<Ref, Entity>) returns (run: seq<Label>, s: State)
    requires WellFormed(c) && c.parallelism >= 1 && PlannedRows(c) != {} && Shows(gateway, c.current.ids)
    requires forall r | r in gateway && r in c.target.ids :: r in c.current.ids
    ensures ExecuteFrom(c, gateway, run) == Some(s) && s.collector.Returned? && s.errs != [] && !s.doneFired
    ensures !Matches(s.remote, gateway)
  {
    var s0, e;
    run, s0, e := FailsMidway(c);
    FrameHolds(c, gateway, run);
    s := ExecuteFrom(c, gateway, run).value;
    var r := e.Row();
    RawCarriesOut(c, c.current.ids, e);
    assert RowFramed(c, gateway, r, Find(s0.remote, r), Find(s.remote, r));
    EventShows(c, r);
  }

  // Of two rows that are to be deleted, one can be left when the other is gone.
  lemma LeavesOne(c: Config, gateway: map<Ref, Entity>, b: Ref, k: Ref) returns (run: seq<Label>, s: State)
    requires WellFormed(c) && c.parallelism >= 2 && Shows(gateway, c.current.ids) && b != k
    requires b in c.current.ids && k in c.current.ids && b !in c.target.ids && k !in c.target.ids
    ensures ExecuteFrom(c, gateway, run) == Some(s) && s.collector.Returned? && s.errs != [] && !s.doneFired
    ensures Find(s.remote, b) == Some(c.current.ids[b]) && k !in s.remote
  {
    var s0;
    run, s0 := OrphanReachable(c, b, k);
    FrameHolds(c, gateway, run);
    s := ExecuteFrom(c, gateway, run).value;
    assert RowFramed(c, gateway, b, Find(s0.remote, b), Find(s.remote, b));
    assert RowFramed(c, gateway, k, Find(s0.remote, k), Find(s.remote, k));
  }
}
