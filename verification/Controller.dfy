// The hash gate of the controller: an update whose target hashes like the last
// one that was synced is skipped.
module Controller {
  import opened Entities
  import opened Stable
  import opened TargetLaws
  import opened TargetBuilds
  import opened TargetRetry
  import Sync
  import SyncControl
  import SyncPlan
  import SyncResults
  import SyncFrame
  import SyncLimits

  // ---- The gate ---------------------------------------------------------------------

  // What a call of onUpdate did: it failed before the engine ran, or the engine
  // ran on some configuration to its end.
  datatype Outcome = Refused | Synced(c: Sync.Config, end: Sync.State) {
    predicate Err() {
      Refused? || end.errs != []
    }

    function After(gateway: Gateway): Gateway {
      if Refused? then gateway else end.remote
    }
  }

  datatype Attempt = Attempt(target: RawState, outcome: Outcome)

  // The hash field starts out as all zeroes.
  datatype System = System(hash: nat, gateway: Gateway)

  // What is assumed of sha256 over the JSON form.
  ghost predicate Collisionless(hash: RawState -> nat) {
    && (forall t, u :: hash(t) == hash(u) ==> t == u)
    && (forall t :: hash(t) != 0)
  }

  function Step(hash: RawState -> nat, s: System, a: Attempt): System {
    if s.hash == hash(a.target) then s
    else System(if a.outcome.Err() then s.hash else hash(a.target), a.outcome.After(s.gateway))
  }

  function History(hash: RawState -> nat, start: Gateway, attempts: seq<Attempt>): System {
    if attempts == [] then System(0, start)
    else Step(hash, History(hash, start, attempts[..|attempts| - 1]), attempts[|attempts| - 1])
  }

  class ManbaController {
    var runningConfigHash: nat
    // Reached through the client.
    var gateway: Gateway

    constructor (start: Gateway)
      ensures runningConfigHash == 0 && gateway == start
    {
      runningConfigHash, gateway := 0, start;
    }

    method Sync(outcome: Outcome) returns (err: bool)
      modifies this`gateway
      ensures gateway == outcome.After(old(gateway)) && err == outcome.Err()
    {
      if outcome.Refused? {
        return true;
      }
      gateway := outcome.end.remote;
      err := |outcome.end.errs| != 0;
    }

    // `outcome` is what onUpdate does in case it is called.
    method OnUpdate(hash: RawState -> nat, target: RawState, outcome: Outcome) returns (err: bool)
      modifies this
      ensures System(runningConfigHash, gateway)
           == Step(hash, System(old(runningConfigHash), old(gateway)), Attempt(target, outcome))
      ensures err <==> outcome.Err() && old(runningConfigHash) != hash(target)
    {
      var shaSum := hash(target);
      if runningConfigHash == shaSum {
        return false;
      }
      err := Sync(outcome);
      if !err {
        runningConfigHash := shaSum;
      }
    }
  }

  // ---- What the stored hash means -------------------------------------------------------

  // Attempt i was not skipped.
  predicate Ran(hash: RawState -> nat, start: Gateway, attempts: seq<Attempt>, i: nat)
    requires i < |attempts|
  {
    History(hash, start, attempts[..i]).hash != hash(attempts[i].target)
  }

  predicate Succeeded(hash: RawState -> nat, start: Gateway, attempts: seq<Attempt>, i: nat)
    requires i < |attempts|
  {
    Ran(hash, start, attempts, i) && !attempts[i].outcome.Err()
  }

  predicate Failed(hash: RawState -> nat, start: Gateway, attempts: seq<Attempt>, i: nat)
    requires i < |attempts|
  {
    Ran(hash, start, attempts, i) && attempts[i].outcome.Err()
  }

  ghost predicate LastSuccess(hash: RawState -> nat, start: Gateway, attempts: seq<Attempt>, i: nat) {
    && i < |attempts| && Succeeded(hash, start, attempts, i)
    && forall j: nat | i < j < |attempts| :: !Succeeded(hash, start, attempts, j)
  }

  // The attempts of a prefix ran as they do in the whole history.
  lemma RanInPrefix(hash: RawState -> nat, start: Gateway, attempts: seq<Attempt>, n: nat, i: nat)
    requires i < n <= |attempts|
    ensures Ran(hash, start, attempts[..n], i) == Ran(hash, start, attempts, i)
  {
    assert attempts[..n][..i] == attempts[..i];
  }

  // Once something was synced, the stored hash is that of the target last
  // synced.
  lemma {:induction false} StoredHash(hash: RawState -> nat, start: Gateway, attempts: seq<Attempt>) returns (i: nat)
    requires History(hash, start, attempts).hash != 0
    ensures LastSuccess(hash, start, attempts, i)
    ensures History(hash, start, attempts).hash == hash(attempts[i].target)
  {
    var n := |attempts| - 1;
    if Succeeded(hash, start, attempts, n) {
      i := n;
    } else {
      i := StoredHash(hash, start, attempts[..n]);
      forall j: nat | i <= j < n
        ensures Succeeded(hash, start, attempts[..n], j) == Succeeded(hash, start, attempts, j)
      {
        RanInPrefix(hash, start, attempts, n, j);
      }
    }
  }

  lemma HistoryNext(hash: RawState -> nat, start: Gateway, attempts: seq<Attempt>, k: nat)
    requires k < |attempts|
    ensures History(hash, start, attempts[..k + 1]) == Step(hash, History(hash, start, attempts[..k]), attempts[k])
  {
    assert attempts[..k + 1][..k] == attempts[..k];
  }

  // ---- What onUpdate can do ---------------------------------------------------------------

  // A configuration onUpdate can hand to the engine for this target when the
  // gateway is as given.
  ghost predicate Attemptable(gateway: Gateway, target: RawState, valid: Entity -> bool, c: Sync.Config,
                              snow: nat -> Id) {
    c.parallelism >= 1 && Updates(gateway, target, valid, c, snow)
  }

  // The controller passes a nil done channel, so it never fires.
  ghost predicate Ends(c: Sync.Config, gateway: Gateway, end: Sync.State, run: seq<Sync.Label>) {
    SyncFrame.ExecuteFrom(c, gateway, run) == Some(end) && end.collector.Returned? && !end.doneFired
  }

  ghost predicate Possible(gateway: Gateway, target: RawState, valid: Entity -> bool, outcome: Outcome) {
    outcome.Refused? ||
    ((exists snow :: Attemptable(gateway, target, valid, outcome.c, snow))
     && exists run :: Ends(outcome.c, gateway, outcome.end, run))
  }

  // Every outcome is one the engine could have had at that point.
  ghost predicate Legal(hash: RawState -> nat, start: Gateway, attempts: seq<Attempt>, valid: Entity -> bool) {
    forall i: nat | i < |attempts| && Ran(hash, start, attempts, i) ::
      Possible(History(hash, start, attempts[..i]).gateway, attempts[i].target, valid, attempts[i].outcome)
  }

  // After a sync that succeeded the gateway matches its target exactly when no
  // bind of the gateway it started from names a missing cluster.
  lemma SuccessMatchesIff(gateway: Gateway, target: RawState, valid: Entity -> bool, outcome: Outcome)
    requires Possible(gateway, target, valid, outcome) && !outcome.Err()
    ensures SyncPlan.Matches(outcome.end.remote, outcome.c.target.ids) <==> NoOrphans(gateway)
  {
    var snow :| Attemptable(gateway, target, valid, outcome.c, snow);
    var run :| Ends(outcome.c, gateway, outcome.end, run);
    UpdateMatchesIff(gateway, target, valid, outcome.c, snow, run);
  }

  // A target that asks for no change of the gateway cannot fail in the engine.
  lemma NoPlanNoError(gateway: Gateway, target: RawState, valid: Entity -> bool, outcome: Outcome)
    requires Possible(gateway, target, valid, outcome) && outcome.Err() && !Upsets(gateway, target, valid)
    ensures outcome.Refused?
  {
    if outcome.Synced? {
      var snow :| Attemptable(gateway, target, valid, outcome.c, snow);
      var run :| Ends(outcome.c, gateway, outcome.end, run);
      UpdateIsWellFormed(gateway, target, valid, outcome.c, snow);
      SilentRunHasNoError(outcome.c, gateway, run);
    }
  }

  lemma SilentRunHasNoError(c: Sync.Config, gateway: Gateway, run: seq<Sync.Label>)
    requires SyncPlan.WellFormed(c) && SyncLimits.PlannedRows(c) == {} && SyncFrame.ExecuteFrom(c, gateway, run).Some?
    ensures SyncFrame.ExecuteFrom(c, gateway, run).value.errs == []
  {
    SyncFrame.FrameHolds(c, gateway, run);
    SyncLimits.MatchesIffNoPlan(c);
    SyncResults.SecondRunIsSilent(c, run);
    SyncControl.ControlHolds(c, run);
  }

  // For this target the engine would have something to change.
  ghost predicate Upsets(gateway: Gateway, target: RawState, valid: Entity -> bool) {
    exists c, snow :: Attemptable(gateway, target, valid, c, snow) && SyncLimits.PlannedRows(c) != {}
  }

  // Then the engine can fail and leave the gateway changed.
  lemma UpsetCanFail(gateway: Gateway, target: RawState, valid: Entity -> bool) returns (outcome: Outcome)
    requires Upsets(gateway, target, valid)
    ensures Possible(gateway, target, valid, outcome) && outcome.Synced? && outcome.Err()
    ensures !SyncPlan.Matches(outcome.end.remote, gateway)
  {
    var c, snow :| Attemptable(gateway, target, valid, c, snow) && SyncLimits.PlannedRows(c) != {};
    UpdateIsWellFormed(gateway, target, valid, c, snow);
    WantedIsListed(gateway, target, valid, c, snow);
    var run, s := SyncFrame.FailsMidwayFrom(c, gateway);
    outcome := Synced(c, s);
    assert Ends(c, gateway, s, run);
  }

  lemma WantedIsListed(gateway: Gateway, target: RawState, valid: Entity -> bool, c: Sync.Config, snow: nat -> Id)
    requires Attemptable(gateway, target, valid, c, snow)
    ensures forall r | r in gateway && r in c.target.ids :: r in c.current.ids
  {
    forall r | r in gateway && r in c.target.ids
      ensures r in c.current.ids
    {
      if Orphan(gateway, r) {
        TargetAvoidsOrphan(gateway, target, valid, c, snow, r);
      }
    }
  }

  // ---- The gateway over a history -------------------------------------------------------------

  // The gateway stays as it is while attempts are skipped or refused.
  lemma {:induction false} RefusedKeep(hash: RawState -> nat, start: Gateway, attempts: seq<Attempt>, lo: nat, hi: nat)
    requires lo <= hi <= |attempts|
    requires forall k: nat | lo <= k < hi && Ran(hash, start, attempts, k) :: attempts[k].outcome.Refused?
    ensures History(hash, start, attempts[..hi]).gateway == History(hash, start, attempts[..lo]).gateway
  {
    if lo < hi {
      RefusedKeep(hash, start, attempts, lo, hi - 1);
      HistoryNext(hash, start, attempts, hi - 1);
    }
  }

  // What attempt i left.
  lemma LeftBy(hash: RawState -> nat, start: Gateway, attempts: seq<Attempt>, i: nat)
    requires i < |attempts| && Ran(hash, start, attempts, i) && attempts[i].outcome.Synced?
    ensures History(hash, start, attempts[..i + 1]).gateway == attempts[i].outcome.end.remote
  {
    HistoryNext(hash, start, attempts, i);
  }

  lemma LegalAt(hash: RawState -> nat, start: Gateway, attempts: seq<Attempt>, valid: Entity -> bool, k: nat)
    requires Legal(hash, start, attempts, valid) && k < |attempts| && Ran(hash, start, attempts, k)
    ensures Possible(History(hash, start, attempts[..k]).gateway, attempts[k].target, valid, attempts[k].outcome)
  {
  }

  lemma OutcomeHabitable(gateway: Gateway, target: RawState, valid: Entity -> bool, outcome: Outcome)
    requires Possible(gateway, target, valid, outcome) && outcome.Synced?
    ensures Habitable(outcome.end.remote)
  {
    var snow :| Attemptable(gateway, target, valid, outcome.c, snow);
    var run :| Ends(outcome.c, gateway, outcome.end, run);
    UpdateIsWellFormed(gateway, target, valid, outcome.c, snow);
    RunLeavesHabitable(outcome.c, gateway, run);
  }

  // Whatever succeeds or fails, an update can always start from a listing of
  // the gateway.
  lemma {:induction false} GatewayStaysHabitable(hash: RawState -> nat, start: Gateway, attempts: seq<Attempt>,
                                                 valid: Entity -> bool, n: nat)
    requires Habitable(start) && Legal(hash, start, attempts, valid) && n <= |attempts|
    ensures Habitable(History(hash, start, attempts[..n]).gateway)
  {
    if n > 0 {
      var k := n - 1;
      GatewayStaysHabitable(hash, start, attempts, valid, k);
      HabitableStep(hash, start, attempts, valid, k);
    }
  }

  lemma HabitableStep(hash: RawState -> nat, start: Gateway, attempts: seq<Attempt>, valid: Entity -> bool, k: nat)
    requires k < |attempts| && Habitable(History(hash, start, attempts[..k]).gateway)
    requires Legal(hash, start, attempts, valid)
    ensures Habitable(History(hash, start, attempts[..k + 1]).gateway)
  {
    HistoryNext(hash, start, attempts, k);
    if Ran(hash, start, attempts, k) && attempts[k].outcome.Synced? {
      LegalAt(hash, start, attempts, valid, k);
      OutcomeHabitable(History(hash, start, attempts[..k]).gateway, attempts[k].target, valid, attempts[k].outcome);
    }
  }

  // ---- When skipping is sound -----------------------------------------------------------------

  // No failed attempt since i asked for a change of the gateway as i left it.
  ghost predicate Undisturbed(hash: RawState -> nat, start: Gateway, attempts: seq<Attempt>, valid: Entity -> bool,
                              i: nat)
    requires i < |attempts| && attempts[i].outcome.Synced?
  {
    forall j: nat | i < j < |attempts| && Failed(hash, start, attempts, j) ::
      !Upsets(attempts[i].outcome.end.remote, attempts[j].target, valid)
  }

  // Attempt k cannot change a gateway that is as `left`.
  ghost predicate Tame(hash: RawState -> nat, start: Gateway, attempts: seq<Attempt>, valid: Entity -> bool,
                       left: Gateway, k: nat)
    requires k < |attempts|
  {
    Ran(hash, start, attempts, k) ==>
      && attempts[k].outcome.Err() && !Upsets(left, attempts[k].target, valid)
      && Possible(History(hash, start, attempts[..k]).gateway, attempts[k].target, valid, attempts[k].outcome)
  }

  lemma TameStep(hash: RawState -> nat, start: Gateway, attempts: seq<Attempt>, valid: Entity -> bool, k: nat,
                 left: Gateway)
    requires k < |attempts| && History(hash, start, attempts[..k]).gateway == left
    requires Tame(hash, start, attempts, valid, left, k)
    ensures History(hash, start, attempts[..k + 1]).gateway == left
  {
    HistoryNext(hash, start, attempts, k);
    if Ran(hash, start, attempts, k) {
      NoPlanNoError(left, attempts[k].target, valid, attempts[k].outcome);
    }
  }

  lemma {:induction false} TameKeep(hash: RawState -> nat, start: Gateway, attempts: seq<Attempt>,
                                    valid: Entity -> bool, lo: nat, hi: nat, left: Gateway)
    requires lo <= hi <= |attempts| && History(hash, start, attempts[..lo]).gateway == left
    requires forall k: nat | lo <= k < hi :: Tame(hash, start, attempts, valid, left, k)
    ensures History(hash, start, attempts[..hi]).gateway == left
  {
    if lo < hi {
      TameKeep(hash, start, attempts, valid, lo, hi - 1, left);
      TameStep(hash, start, attempts, valid, hi - 1, left);
    }
  }

  lemma UndisturbedIsTame(hash: RawState -> nat, start: Gateway, attempts: seq<Attempt>, valid: Entity -> bool, i: nat,
                          k: nat)
    requires Legal(hash, start, attempts, valid) && LastSuccess(hash, start, attempts, i)
    requires Undisturbed(hash, start, attempts, valid, i) && i < k < |attempts|
    ensures Tame(hash, start, attempts, valid, attempts[i].outcome.end.remote, k)
  {
    if Ran(hash, start, attempts, k) {
      assert !Succeeded(hash, start, attempts, k);
      assert Failed(hash, start, attempts, k);
      LegalAt(hash, start, attempts, valid, k);
    }
  }

  lemma UndisturbedStays(hash: RawState -> nat, start: Gateway, attempts: seq<Attempt>, valid: Entity -> bool, i: nat)
    requires Legal(hash, start, attempts, valid) && LastSuccess(hash, start, attempts, i)
    requires Undisturbed(hash, start, attempts, valid, i)
    ensures History(hash, start, attempts).gateway == attempts[i].outcome.end.remote
  {
    LeftBy(hash, start, attempts, i);
    UndisturbedAreTame(hash, start, attempts, valid, i, attempts[i].outcome.end.remote);
    TameKeep(hash, start, attempts, valid, i + 1, |attempts|, attempts[i].outcome.end.remote);
    assert attempts[..|attempts|] == attempts;
  }

  lemma UndisturbedAreTame(hash: RawState -> nat, start: Gateway, attempts: seq<Attempt>, valid: Entity -> bool,
                           i: nat, left: Gateway)
    requires Legal(hash, start, attempts, valid) && LastSuccess(hash, start, attempts, i)
    requires Undisturbed(hash, start, attempts, valid, i) && left == attempts[i].outcome.end.remote
    ensures forall k: nat | i + 1 <= k < |attempts| :: Tame(hash, start, attempts, valid, left, k)
  {
    forall k: nat | i + 1 <= k < |attempts|
      ensures Tame(hash, start, attempts, valid, left, k)
    {
      UndisturbedIsTame(hash, start, attempts, valid, i, k);
    }
  }

  // Then the gateway still matches the target synced last, if it did at all:
  // skipping is sound.
  lemma SkipIsSound(hash: RawState -> nat, start: Gateway, attempts: seq<Attempt>, valid: Entity -> bool, i: nat)
    requires Legal(hash, start, attempts, valid) && LastSuccess(hash, start, attempts, i)
    requires NoOrphans(History(hash, start, attempts[..i]).gateway) && Undisturbed(hash, start, attempts, valid, i)
    ensures SyncPlan.Matches(History(hash, start, attempts).gateway, attempts[i].outcome.c.target.ids)
  {
    UndisturbedStays(hash, start, attempts, valid, i);
    LegalAt(hash, start, attempts, valid, i);
    SuccessMatchesIff(History(hash, start, attempts[..i]).gateway, attempts[i].target, valid, attempts[i].outcome);
  }

  // The same targets with the same returns; only what the failed syncs did may
  // differ.
  ghost predicate SameCourse(attempts: seq<Attempt>, others: seq<Attempt>) {
    && |attempts| == |others|
    && forall i | 0 <= i < |attempts| ::
         && others[i].target == attempts[i].target
         && others[i].outcome.Err() == attempts[i].outcome.Err()
         && (!attempts[i].outcome.Err() ==> others[i].outcome == attempts[i].outcome)
  }

  lemma {:induction false} SameCourseSameHash(hash: RawState -> nat, start: Gateway, attempts: seq<Attempt>,
                                              others: seq<Attempt>)
    requires SameCourse(attempts, others)
    ensures History(hash, start, attempts).hash == History(hash, start, others).hash
    ensures forall i: nat | i < |attempts| :: Ran(hash, start, attempts, i) == Ran(hash, start, others, i)
  {
    if attempts != [] {
      var n := |attempts| - 1;
      SameCourseSameHash(hash, start, attempts[..n], others[..n]);
      forall i: nat | i < n
        ensures Ran(hash, start, attempts, i) == Ran(hash, start, others, i)
      {
        RanInPrefix(hash, start, attempts, n, i);
        RanInPrefix(hash, start, others, n, i);
      }
    }
  }

  lemma SameCourseUndisturbed(hash: RawState -> nat, start: Gateway, attempts: seq<Attempt>, others: seq<Attempt>,
                              valid: Entity -> bool, i: nat)
    requires SameCourse(attempts, others) && LastSuccess(hash, start, attempts, i)
    requires Undisturbed(hash, start, attempts, valid, i)
    ensures LastSuccess(hash, start, others, i) && others[i].outcome == attempts[i].outcome
    ensures Undisturbed(hash, start, others, valid, i)
  {
    SameCourseSameHash(hash, start, attempts, others);
    assert Succeeded(hash, start, others, i);
    forall j: nat | i < j < |others|
      ensures !Succeeded(hash, start, others, j)
      ensures Failed(hash, start, others, j) ==> !Upsets(others[i].outcome.end.remote, others[j].target, valid)
    {
      assert !Succeeded(hash, start, attempts, j);
      assert Failed(hash, start, others, j) ==> Failed(hash, start, attempts, j);
    }
  }

  // ---- When it is not --------------------------------------------------------------------------

  // The same history, but of the failures after i only that of j reached the
  // engine.
  function Respun(attempts: seq<Attempt>, i: nat, j: nat, outcome: Outcome): (others: seq<Attempt>)
    ensures |others| == |attempts|
  {
    seq(|attempts|, k requires 0 <= k < |attempts| =>
      if k <= i || !attempts[k].outcome.Err() then attempts[k]
      else if k == j then attempts[k].(outcome := outcome)
      else attempts[k].(outcome := Refused))
  }

  lemma RespunBefore(attempts: seq<Attempt>, i: nat, j: nat, outcome: Outcome, n: nat)
    requires n <= i + 1 <= |attempts|
    ensures Respun(attempts, i, j, outcome)[..n] == attempts[..n]
  {
  }

  lemma RespunGateway(hash: RawState -> nat, start: Gateway, attempts: seq<Attempt>, i: nat, j: nat, outcome: Outcome)
    requires LastSuccess(hash, start, attempts, i) && i < j < |attempts| && Failed(hash, start, attempts, j)
    requires outcome.Synced? && outcome.Err()
    ensures
      var others := Respun(attempts, i, j, outcome);
      && SameCourse(attempts, others)
      && History(hash, start, others[..j]).gateway == attempts[i].outcome.end.remote
      && History(hash, start, others).gateway == outcome.end.remote
  {
    var others := Respun(attempts, i, j, outcome);
    SameCourseSameHash(hash, start, attempts, others);
    forall k: nat | i < k < |others| && k != j && Ran(hash, start, others, k)
      ensures others[k].outcome.Refused?
    {
      assert !Succeeded(hash, start, attempts, k);
    }
    LeftBy(hash, start, others, i);
    RefusedKeep(hash, start, others, i + 1, j);
    LeftBy(hash, start, others, j);
    RefusedKeep(hash, start, others, j + 1, |others|);
    assert others[..|others|] == others;
  }

  lemma RespunLegal(hash: RawState -> nat, start: Gateway, attempts: seq<Attempt>, valid: Entity -> bool, i: nat,
                    j: nat, outcome: Outcome)
    requires Legal(hash, start, attempts, valid)
    requires LastSuccess(hash, start, attempts, i) && i < j < |attempts| && Failed(hash, start, attempts, j)
    requires Possible(attempts[i].outcome.end.remote, attempts[j].target, valid, outcome)
    requires outcome.Synced? && outcome.Err()
    ensures Legal(hash, start, Respun(attempts, i, j, outcome), valid)
  {
    forall k: nat | k < |attempts| && Ran(hash, start, Respun(attempts, i, j, outcome), k)
      ensures
        var others := Respun(attempts, i, j, outcome);
        Possible(History(hash, start, others[..k]).gateway, others[k].target, valid, others[k].outcome)
    {
      RespunPossible(hash, start, attempts, valid, i, j, outcome, k);
    }
  }

  lemma RespunPossible(hash: RawState -> nat, start: Gateway, attempts: seq<Attempt>, valid: Entity -> bool, i: nat,
                       j: nat, outcome: Outcome, k: nat)
    requires LastSuccess(hash, start, attempts, i) && i < j < |attempts| && Failed(hash, start, attempts, j)
    requires Possible(attempts[i].outcome.end.remote, attempts[j].target, valid, outcome)
    requires outcome.Synced? && outcome.Err() && k < |attempts|
    requires Ran(hash, start, Respun(attempts, i, j, outcome), k)
    requires Ran(hash, start, attempts, k) ==>
               Possible(History(hash, start, attempts[..k]).gateway, attempts[k].target, valid, attempts[k].outcome)
    ensures
      var others := Respun(attempts, i, j, outcome);
      Possible(History(hash, start, others[..k]).gateway, others[k].target, valid, others[k].outcome)
  {
    var others := Respun(attempts, i, j, outcome);
    RespunGateway(hash, start, attempts, i, j, outcome);
    SameCourseSameHash(hash, start, attempts, others);
    if k <= i {
      RespunBefore(attempts, i, j, outcome, k);
    } else if k != j {
      assert !Succeeded(hash, start, attempts, k);
    }
  }

  lemma MatchesJoin(x: Gateway, y: Gateway, t: Gateway)
    requires SyncPlan.Matches(x, t) && SyncPlan.Matches(y, t)
    ensures SyncPlan.Matches(x, y)
  {
  }

  // A failed attempt that asked for a change may have left the gateway off the
  // target synced last.
  lemma DisturbedCanSpoil(hash: RawState -> nat, start: Gateway, attempts: seq<Attempt>, valid: Entity -> bool, i: nat)
    returns (others: seq<Attempt>)
    requires Legal(hash, start, attempts, valid) && LastSuccess(hash, start, attempts, i)
    requires SyncPlan.Matches(attempts[i].outcome.end.remote, attempts[i].outcome.c.target.ids)
    requires !Undisturbed(hash, start, attempts, valid, i)
    ensures SameCourse(attempts, others) && Legal(hash, start, others, valid)
    ensures !SyncPlan.Matches(History(hash, start, others).gateway, attempts[i].outcome.c.target.ids)
  {
    var left := attempts[i].outcome.end.remote;
    var j: nat :| i < j < |attempts| && Failed(hash, start, attempts, j) && Upsets(left, attempts[j].target, valid);
    var outcome := UpsetCanFail(left, attempts[j].target, valid);
    others := Respun(attempts, i, j, outcome);
    RespunGateway(hash, start, attempts, i, j, outcome);
    RespunLegal(hash, start, attempts, valid, i, j, outcome);
    if SyncPlan.Matches(outcome.end.remote, attempts[i].outcome.c.target.ids) {
      MatchesJoin(outcome.end.remote, left, attempts[i].outcome.c.target.ids);
    }
  }

  // If the failures after i had all come before the engine, the gateway would be
  // as i left it.
  lemma RefusedCourse(hash: RawState -> nat, start: Gateway, attempts: seq<Attempt>, valid: Entity -> bool, i: nat)
    returns (others: seq<Attempt>)
    requires Legal(hash, start, attempts, valid) && LastSuccess(hash, start, attempts, i)
    ensures SameCourse(attempts, others) && Legal(hash, start, others, valid)
    ensures History(hash, start, others).gateway == attempts[i].outcome.end.remote
  {
    others := Respun(attempts, i, i, Refused);
    RefusedGateway(hash, start, attempts, others, i);
    RefusedLegal(hash, start, attempts, others, valid, i);
  }

  lemma RefusedGateway(hash: RawState -> nat, start: Gateway, attempts: seq<Attempt>, others: seq<Attempt>, i: nat)
    requires LastSuccess(hash, start, attempts, i) && others == Respun(attempts, i, i, Refused)
    ensures SameCourse(attempts, others)
    ensures forall k: nat | i < k < |others| && Ran(hash, start, others, k) :: others[k].outcome.Refused?
    ensures History(hash, start, others).gateway == attempts[i].outcome.end.remote
  {
    SameCourseSameHash(hash, start, attempts, others);
    forall k: nat | i < k < |others| && Ran(hash, start, others, k)
      ensures others[k].outcome.Refused?
    {
      assert !Succeeded(hash, start, attempts, k);
    }
    LeftBy(hash, start, others, i);
    RefusedKeep(hash, start, others, i + 1, |others|);
    assert others[..|others|] == others;
  }

  lemma RefusedLegal(hash: RawState -> nat, start: Gateway, attempts: seq<Attempt>, others: seq<Attempt>,
                     valid: Entity -> bool, i: nat)
    requires Legal(hash, start, attempts, valid) && i < |attempts| && others == Respun(attempts, i, i, Refused)
    requires forall k: nat | i < k < |others| && Ran(hash, start, others, k) :: others[k].outcome.Refused?
    ensures Legal(hash, start, others, valid)
  {
    forall k: nat | k < |others| && Ran(hash, start, others, k)
      ensures Possible(History(hash, start, others[..k]).gateway, others[k].target, valid, others[k].outcome)
    {
      if k <= i {
        RespunBefore(attempts, i, i, Refused, k);
        LegalAt(hash, start, attempts, valid, k);
      }
    }
  }

  // A skipped update is sure to find its target in the gateway, whatever the
  // engine did in the attempts that failed, exactly when the last success did not
  // start from a gateway with a bind of a missing cluster and no failed attempt
  // since asked for a change of what it had left.
  lemma SkipIsSoundIff(hash: RawState -> nat, start: Gateway, attempts: seq<Attempt>, valid: Entity -> bool,
                       target: RawState) returns (i: nat)
    requires Collisionless(hash) && Legal(hash, start, attempts, valid)
    requires History(hash, start, attempts).hash == hash(target)
    ensures LastSuccess(hash, start, attempts, i) && attempts[i].target == target
    ensures
      NoOrphans(History(hash, start, attempts[..i]).gateway) && Undisturbed(hash, start, attempts, valid, i) <==>
      forall others | SameCourse(attempts, others) && Legal(hash, start, others, valid) ::
        SyncPlan.Matches(History(hash, start, others).gateway, attempts[i].outcome.c.target.ids)
  {
    i := StoredHash(hash, start, attempts);
    LegalAt(hash, start, attempts, valid, i);
    SuccessMatchesIff(History(hash, start, attempts[..i]).gateway, attempts[i].target, valid, attempts[i].outcome);
    if !NoOrphans(History(hash, start, attempts[..i]).gateway) {
      var others := RefusedCourse(hash, start, attempts, valid, i);
    } else if Undisturbed(hash, start, attempts, valid, i) {
      forall others | SameCourse(attempts, others) && Legal(hash, start, others, valid)
        ensures SyncPlan.Matches(History(hash, start, others).gateway, attempts[i].outcome.c.target.ids)
      {
        SameCourseUndisturbed(hash, start, attempts, others, valid, i);
        UndisturbedStays(hash, start, others, valid, i);
      }
    } else {
      var others := DisturbedCanSpoil(hash, start, attempts, valid, i);
    }
  }

  // ---- Orphans over a history -----------------------------------------------------------------------

  lemma OrphanOutlives(gateway: Gateway, target: RawState, valid: Entity -> bool, outcome: Outcome, r: Ref)
    requires Possible(gateway, target, valid, outcome) && Orphan(gateway, r)
    ensures Orphan(outcome.After(gateway), r)
  {
    if outcome.Synced? {
      var snow :| Attemptable(gateway, target, valid, outcome.c, snow);
      var run :| Ends(outcome.c, gateway, outcome.end, run);
      OrphanStays(gateway, target, valid, outcome.c, snow, run, r);
    }
  }

  // The gateway after the first k attempts has this orphan.
  ghost predicate OrphanAt(hash: RawState -> nat, start: Gateway, attempts: seq<Attempt>, k: nat, r: Ref)
    requires k <= |attempts|
  {
    Orphan(History(hash, start, attempts[..k]).gateway, r)
  }

  // An orphan once in the gateway is never removed by any later update.
  lemma {:induction false} OrphanForever(hash: RawState -> nat, start: Gateway, attempts: seq<Attempt>,
                                         valid: Entity -> bool, m: nat, n: nat, r: Ref)
    requires Legal(hash, start, attempts, valid) && m <= n <= |attempts|
    requires OrphanAt(hash, start, attempts, m, r)
    ensures OrphanAt(hash, start, attempts, n, r)
  {
    if m < n {
      var k := n - 1;
      OrphanForever(hash, start, attempts, valid, m, k, r);
      OrphanStep(hash, start, attempts, valid, k, r);
    }
  }

  lemma OrphanStep(hash: RawState -> nat, start: Gateway, attempts: seq<Attempt>, valid: Entity -> bool, k: nat, r: Ref)
    requires Legal(hash, start, attempts, valid) && k < |attempts| && OrphanAt(hash, start, attempts, k, r)
    ensures OrphanAt(hash, start, attempts, k + 1, r)
  {
    HistoryNext(hash, start, attempts, k);
    if Ran(hash, start, attempts, k) {
      LegalAt(hash, start, attempts, valid, k);
      OrphanOutlives(History(hash, start, attempts[..k]).gateway, attempts[k].target, valid, attempts[k].outcome, r);
    }
  }

  // So no update after it, though it may return no error, reaches its target.
  lemma NoSuccessMatchesAfterwards(hash: RawState -> nat, start: Gateway, attempts: seq<Attempt>,
                                   valid: Entity -> bool, m: nat, i: nat, r: Ref)
    requires Legal(hash, start, attempts, valid) && m <= i < |attempts| && Succeeded(hash, start, attempts, i)
    requires OrphanAt(hash, start, attempts, m, r)
    ensures !SyncPlan.Matches(attempts[i].outcome.end.remote, attempts[i].outcome.c.target.ids)
  {
    OrphanForever(hash, start, attempts, valid, m, i, r);
    LegalAt(hash, start, attempts, valid, i);
    SuccessMatchesIff(History(hash, start, attempts[..i]).gateway, attempts[i].target, valid, attempts[i].outcome);
  }

  // With two workers, an update that is to delete a bind and its cluster can
  // leave such an orphan: the call for the bind fails, the one for the cluster
  // does not.
  lemma FailureOrphans(gateway: Gateway, target: RawState, valid: Entity -> bool, c: Sync.Config, snow: nat -> Id,
                       b: Ref)
    returns (outcome: Outcome)
    requires Attemptable(gateway, target, valid, c, snow) && c.parallelism >= 2
    requires b in c.current.ids && c.current.ids[b].Bind? && b !in c.target.ids
    requires ClusterOfBind(c.current.ids[b]) !in c.target.ids
    ensures Possible(gateway, target, valid, outcome) && outcome.Synced? && outcome.Err()
    ensures Orphan(outcome.end.remote, b)
  {
    var k := ClusterOfBind(c.current.ids[b]);
    UpdateIsWellFormed(gateway, target, valid, c, snow);
    ListedWithCluster(gateway, b);
    var run, s := SyncFrame.LeavesOne(c, gateway, b, k);
    outcome := Ended(gateway, target, valid, c, snow, run, s);
  }

  lemma Ended(gateway: Gateway, target: RawState, valid: Entity -> bool, c: Sync.Config, snow: nat -> Id,
              run: seq<Sync.Label>, s: Sync.State) returns (outcome: Outcome)
    requires Attemptable(gateway, target, valid, c, snow) && Ends(c, gateway, s, run)
    ensures outcome == Synced(c, s) && Possible(gateway, target, valid, outcome)
  {
    outcome := Synced(c, s);
  }

  // An orphan is in no target, so a gateway that has it is off every target.
  lemma OrphanIsOffTarget(gateway: Gateway, target: RawState, valid: Entity -> bool, outcome: Outcome, r: Ref,
                          x: Gateway)
    requires Possible(gateway, target, valid, outcome) && outcome.Synced? && Orphan(gateway, r) && r in x
    ensures !SyncPlan.Matches(x, outcome.c.target.ids)
  {
    var snow :| Attemptable(gateway, target, valid, outcome.c, snow);
    TargetAvoidsOrphan(gateway, target, valid, outcome.c, snow, r);
  }
}
