// A failed sync that the hash gate hides: A is synced, B fails midway, and A is
// skipped although the gateway no longer holds it.
module GateLimits {
  import opened Entities
  import opened Store
  import opened Stable
  import opened Target
  import opened TargetLaws
  import opened TargetBuilds
  import opened TargetRetry
  import opened Controller
  import Sync
  import SyncFrame
  import SyncPlan
  import SyncReachable
  import SyncLimits

  // Whenever A is the last target synced and B, of any kind and for any number
  // of workers, asks for a change of the gateway A left, the engine can fail on B
  // so that A is skipped next with the gateway off its target.
  lemma FailureHidden(hash: RawState -> nat, start: Gateway, attempts: seq<Attempt>, valid: Entity -> bool, b: RawState)
    returns (outcome: Outcome, after: seq<Attempt>)
    requires Legal(hash, start, attempts, valid) && attempts != []
    requires Succeeded(hash, start, attempts, |attempts| - 1)
    requires hash(b) != hash(attempts[|attempts| - 1].target)
    requires Upsets(History(hash, start, attempts).gateway, b, valid)
    ensures outcome.Synced? && outcome.Err() && after == attempts + [Attempt(b, outcome)]
    ensures
      var a := attempts[|attempts| - 1];
      && Legal(hash, start, after, valid)
      && History(hash, start, after).hash == hash(a.target)
      && !SyncPlan.Matches(History(hash, start, after).gateway, a.outcome.c.target.ids)
  {
    var n := |attempts| - 1;
    var left := LastLeft(hash, start, attempts, valid);
    outcome := UpsetCanFail(left, b, valid);
    after := attempts + [Attempt(b, outcome)];
    AppendAttempt(hash, start, attempts, valid, Attempt(b, outcome));
    StaysOffTarget(History(hash, start, attempts[..n]).gateway, attempts[n], valid, b, outcome);
  }

  // The last attempt, having succeeded, was possible and left the gateway as it is.
  lemma LastLeft(hash: RawState -> nat, start: Gateway, attempts: seq<Attempt>, valid: Entity -> bool)
    returns (left: Gateway)
    requires Legal(hash, start, attempts, valid) && attempts != []
    requires Succeeded(hash, start, attempts, |attempts| - 1)
    ensures
      var n := |attempts| - 1;
      && attempts[n].outcome.Synced? && !attempts[n].outcome.Err()
      && Possible(History(hash, start, attempts[..n]).gateway, attempts[n].target, valid, attempts[n].outcome)
      && left == attempts[n].outcome.end.remote == History(hash, start, attempts).gateway
      && History(hash, start, attempts).hash == hash(attempts[n].target)
  {
    var n := |attempts| - 1;
    LeftBy(hash, start, attempts, n);
    assert attempts[..n + 1] == attempts;
    LegalAt(hash, start, attempts, valid, n);
    left := attempts[n].outcome.end.remote;
  }

  // Changed from what A left, the gateway is off A's target: because it was on it,
  // or because of an orphan, which stays.
  lemma StaysOffTarget(gateway: Gateway, a: Attempt, valid: Entity -> bool, b: RawState, outcome: Outcome)
    requires Possible(gateway, a.target, valid, a.outcome) && !a.outcome.Err()
    requires Possible(a.outcome.end.remote, b, valid, outcome) && outcome.Synced?
    requires !SyncPlan.Matches(outcome.end.remote, a.outcome.end.remote)
    ensures !SyncPlan.Matches(outcome.end.remote, a.outcome.c.target.ids)
  {
    SuccessMatchesIff(gateway, a.target, valid, a.outcome);
    if NoOrphans(gateway) {
      OffTarget(outcome.end.remote, a.outcome.end.remote, a.outcome.c.target.ids);
    } else {
      var r :| Orphan(gateway, r);
      OrphanOutlives(gateway, a.target, valid, a.outcome, r);
      OrphanOutlives(a.outcome.end.remote, b, valid, outcome, r);
      OrphanIsOffTarget(gateway, a.target, valid, a.outcome, r, outcome.end.remote);
    }
  }

  lemma OffTarget(x: Gateway, left: Gateway, want: Gateway)
    requires SyncPlan.Matches(left, want) && !SyncPlan.Matches(x, left)
    ensures !SyncPlan.Matches(x, want)
  {
    if SyncPlan.Matches(x, want) {
      MatchesJoin(x, left, want);
    }
  }

  lemma AppendAttempt(hash: RawState -> nat, start: Gateway, attempts: seq<Attempt>, valid: Entity -> bool, a: Attempt)
    requires Legal(hash, start, attempts, valid)
    requires Possible(History(hash, start, attempts).gateway, a.target, valid, a.outcome)
    ensures Legal(hash, start, attempts + [a], valid)
    ensures History(hash, start, attempts + [a]) == Step(hash, History(hash, start, attempts), a)
  {
    var after := attempts + [a];
    assert after[..|attempts|] == attempts;
    forall i: nat | i < |after| && Ran(hash, start, after, i)
      ensures Possible(History(hash, start, after[..i]).gateway, after[i].target, valid, after[i].outcome)
    {
      if i < |attempts| {
        assert after[..i] == attempts[..i];
      }
    }
  }

  // ---- An instance -----------------------------------------------------------------

  const NOTHING: RawState := RawState([], [], [], [], [])

  function TwoServers(x: string, y: string): RawState {
    RawState([], [Server(0, x, "", ""), Server(0, y, "", "")], [], [], [])
  }

  function Everything(): Entity -> bool { (e: Entity) => true }

  function Counter(): nat -> Id { (i: nat) => if i < 1000 then i + 1 else 0 }

  lemma EmptyIsOrdinary(n: nat)
    requires n <= 1000
    ensures Ordinary(EMPTY) && Fresh(EMPTY, Counter(), n)
  {
  }

  // With nothing in the gateway, a target without binds always builds.
  lemma BuildsOnEmpty(raw: RawState)
    requires Presentable(raw) && raw.binds == [] && Draws(raw) <= 1000
    ensures Builds(EMPTY, Counter(), raw, Everything())
  {
    EmptyIsOrdinary(Draws(raw));
    TargetBuildsIff(EMPTY, Counter(), raw, Everything(), 1);
    NoBindsNoPairs(EMPTY, Counter(), raw, Everything());
  }

  lemma EmptyIsListed(n: nat)
    ensures Habitable(map[]) && TargetRetry.Listed(map[]) == map[] && FreshFor(map[], Counter(), n)
  {
  }

  lemma AttemptOnEmpty(raw: RawState)
    requires Presentable(raw) && Draws(raw) <= 1000 && Builds(EMPTY, Counter(), raw, Everything())
    ensures Attemptable(map[], raw, Everything(), TargetConfig(EMPTY, Counter(), raw, Everything(), 1), Counter())
  {
    EmptyIsOrdinary(Draws(raw));
    EmptyIsListed(Draws(raw));
  }

  lemma NoBindsNoPairs(db: DB, snow: nat -> Id, raw: RawState, valid: Entity -> bool)
    requires raw.binds == [] && Prepared(db, snow, raw, valid).Ok?
    ensures Prepared(db, snow, raw, valid).value.binds == []
  {
    assert SetIDs(db, snow, raw).value.binds == [];
  }

  // Any update that can be attempted can succeed.
  lemma AttemptCanSucceed(gateway: Gateway, target: RawState, valid: Entity -> bool, c: Sync.Config, snow: nat -> Id)
    returns (outcome: Outcome)
    requires Attemptable(gateway, target, valid, c, snow)
    ensures Possible(gateway, target, valid, outcome) && outcome.Synced? && !outcome.Err() && outcome.c == c
  {
    UpdateIsWellFormed(gateway, target, valid, c, snow);
    var run, s := SyncReachable.CanStillConverge(c, []);
    SyncFrame.FrameHolds(c, gateway, run);
    outcome := Synced(c, SyncFrame.ExecuteFrom(c, gateway, run).value);
    assert Ends(c, gateway, outcome.end, run);
  }

  lemma TwoServersPresentable(x: string, y: string)
    requires Textual(x) && Textual(y) && x != y
    ensures Presentable(TwoServers(x, y)) && TwoServers(x, y).binds == [] && Draws(TwoServers(x, y)) == 2
  {
  }

  lemma {:induction false} FilterEverything(xs: seq<Entity>)
    ensures Filter(xs, Everything()) == xs
  {
    if xs != [] {
      var init, x := xs[..|xs| - 1], xs[|xs| - 1];
      FilterEverything(init);
      assert Everything()(x);
      assert xs == init + [x];
    }
  }

  // Servers ask for as many rows as there are.
  lemma ServersAreRows(raw: RawState, c: Sync.Config)
    requires Presentable(raw) && raw.servers != [] && Builds(EMPTY, Counter(), raw, Everything())
    requires raw.binds == [] && Draws(raw) <= 1000
    requires c == TargetConfig(EMPTY, Counter(), raw, Everything(), 1)
    ensures c.target.ids != map[]
  {
    EmptyIsOrdinary(Draws(raw));
    TargetBuildsIff(EMPTY, Counter(), raw, Everything(), 1);
    var out := Prepared(EMPTY, Counter(), raw, Everything()).value;
    FilterEverything(SetIDs(EMPTY, Counter(), raw).value.servers);
    assert out.servers[0] in TargetRows(out);
    assert Find(c.target.ids, out.servers[0].Row()).Some?;
  }

  lemma TwoServersUpset(x: string, y: string)
    requires Textual(x) && Textual(y) && x != y
    ensures Upsets(map[], TwoServers(x, y), Everything())
  {
    var b := TwoServers(x, y);
    TwoServersPresentable(x, y);
    BuildsOnEmpty(b);
    AttemptOnEmpty(b);
    var c := TargetConfig(EMPTY, Counter(), b, Everything(), 1);
    ServersAreRows(b, c);
    SyncLimits.MatchesIffNoPlan(c);
    assert Attemptable(map[], b, Everything(), c, Counter()) && SyncLimits.PlannedRows(c) != {};
  }

  lemma NothingIsPresentable()
    ensures Presentable(NOTHING) && NOTHING.binds == [] && Draws(NOTHING) == 0
  {
  }

  // Nothing to prepare makes an empty target.
  lemma NothingIsEmpty()
    ensures Builds(EMPTY, Counter(), NOTHING, Everything())
    ensures TargetConfig(EMPTY, Counter(), NOTHING, Everything(), 1).target.ids == map[]
  {
    NothingIsPresentable();
    BuildsOnEmpty(NOTHING);
    EmptyIsOrdinary(0);
    TargetBuildsIff(EMPTY, Counter(), NOTHING, Everything(), 1);
    var out := Prepared(EMPTY, Counter(), NOTHING, Everything()).value;
    NoBindsNoPairs(EMPTY, Counter(), NOTHING, Everything());
    assert TargetRows(out) == [];
  }

  // The empty configuration succeeds, one with two servers fails midway, and
  // the empty configuration is then skipped with a server left in the gateway.
  lemma GateHidesFailure(hash: RawState -> nat, x: string, y: string)
    returns (first: Outcome, second: Outcome, attempts: seq<Attempt>)
    requires Collisionless(hash) && Textual(x) && Textual(y) && x != y
    ensures first.Synced? && !first.Err() && second.Synced? && second.Err() && first.c.target.ids == map[]
    ensures attempts == [Attempt(NOTHING, first), Attempt(TwoServers(x, y), second)]
    ensures Legal(hash, map[], attempts, Everything())
    ensures History(hash, map[], attempts).hash == hash(NOTHING)
    ensures !SyncPlan.Matches(History(hash, map[], attempts).gateway, map[])
  {
    first := SyncNothing();
    attempts := StartLegal(hash, Attempt(NOTHING, first));
    TwoServersUpset(x, y);
    DifferentHashes(hash, TwoServers(x, y), NOTHING);
    second, attempts := FailureHidden(hash, map[], attempts, Everything(), TwoServers(x, y));
  }

  lemma DifferentHashes(hash: RawState -> nat, a: RawState, b: RawState)
    requires Collisionless(hash) && a.servers != b.servers
    ensures hash(a) != hash(b)
  {
  }

  lemma SyncNothing() returns (outcome: Outcome)
    ensures Possible(map[], NOTHING, Everything(), outcome) && outcome.Synced? && !outcome.Err()
    ensures outcome.end.remote == map[] && outcome.c.target.ids == map[]
  {
    NothingIsPresentable();
    BuildsOnEmpty(NOTHING);
    AttemptOnEmpty(NOTHING);
    outcome := AttemptCanSucceed(map[], NOTHING, Everything(),
                                 TargetConfig(EMPTY, Counter(), NOTHING, Everything(), 1), Counter());
    NothingIsEmpty();
    SuccessMatchesIff(map[], NOTHING, Everything(), outcome);
  }

  lemma StartLegal(hash: RawState -> nat, a: Attempt) returns (attempts: seq<Attempt>)
    requires Collisionless(hash) && Possible(map[], a.target, Everything(), a.outcome)
    requires a.outcome.Synced? && !a.outcome.Err()
    ensures attempts == [a] && Legal(hash, map[], attempts, Everything()) && Succeeded(hash, map[], attempts, 0)
    ensures History(hash, map[], attempts).gateway == a.outcome.end.remote
  {
    attempts := [];
    AppendAttempt(hash, map[], attempts, Everything(), a);
    attempts := attempts + [a];
    assert attempts[..0] == [];
  }
}
