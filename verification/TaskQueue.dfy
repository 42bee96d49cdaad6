// The task queue: concurrent Enqueue calls, one worker that skips elements
// older than the last successful sync, and the rate-limited workqueue below
// them, as a labelled transition system.
module TaskQueue {
  import opened Entities

  datatype Element = Element(key: string, timestamp: nat)

  datatype Worker =
    | Ready                                          // about to call Get
    | Got(item: Element)                             // before reading the clock
    | Judging(item: Element, ts: nat, began: nat)    // before comparing with lastSync
    | Syncing(item: Element, ts: nat, began: nat)    // in the sync function
    | Requeuing(item: Element, ts: nat, began: nat)  // the sync failed
    | Finishing(item: Element)                       // before Done

  // An accepted Enqueue call: when, by the clock and by the step count, its
  // element was stamped.
  datatype Request = Request(key: string, time: nat, step: nat)

  // A sync that returned nil, and when it began.
  datatype Success = Success(time: nat, step: nat)

  // `steps`, `requests` and `successes` are history: no step depends on them.
  datatype State = State(
    clock: nat,
    entering: multiset<Element>,  // stamped, not yet handed to Add
    queue: seq<Element>,
    dirty: set<Element>,
    processing: set<Element>,
    delayed: set<Element>,        // waiting for the rate limiter
    worker: Worker,
    lastSync: nat,
    down: bool,
    workerDone: bool,
    steps: nat,
    requests: seq<Request>,
    successes: seq<Success>)

  const INIT := State(0, multiset{}, [], {}, {}, {}, Ready, 0, false, false, 0, [], [])

  // ---- The workqueue -----------------------------------------------------------------

  // Add drops everything after ShutDown; an element that waits already is not
  // queued twice, and one that is being processed is queued when it is done.
  function Add(s: State, e: Element): State {
    if s.down || e in s.dirty then s
    else s.(dirty := s.dirty + {e}, queue := if e in s.processing then s.queue else s.queue + [e])
  }

  function AddRateLimited(s: State, e: Element): State {
    if s.down then s else s.(delayed := s.delayed + {e})
  }

  function Take(s: State): State
    requires s.queue != []
  {
    s.(queue := s.queue[1..], dirty := s.dirty - {s.queue[0]}, processing := s.processing + {s.queue[0]})
  }

  function Done(s: State, e: Element): State {
    s.(processing := s.processing - {e}, queue := if e in s.dirty then s.queue + [e] else s.queue)
  }

  // ---- Steps -----------------------------------------------------------------------------

  datatype Label =
    | Tick(to: nat)        // the clock moves on
    | Stamp(key: string)   // Enqueue reads the clock
    | Enter(e: Element)    // Enqueue calls Add
    | Mature(e: Element)   // the rate limiter lets go of an element
    | Get | Quit | ReadClock | Skip | Sync | SyncOk | SyncErr | Requeue | Finish
    | ShutDown

  predicate Enabled(s: State, l: Label) {
    match l
    case Tick(to) => to >= s.clock
    case Stamp(_) => !s.down
    case Enter(e) => e in s.entering
    case Mature(e) => e in s.delayed
    case Get => s.worker.Ready? && s.queue != []
    case Quit => s.worker.Ready? && s.queue == [] && s.down
    case ReadClock => s.worker.Got?
    case Skip => s.worker.Judging? && s.lastSync > s.worker.item.timestamp
    case Sync => s.worker.Judging? && s.lastSync <= s.worker.item.timestamp
    case SyncOk => s.worker.Syncing?
    case SyncErr => s.worker.Syncing?
    case Requeue => s.worker.Requeuing?
    case Finish => s.worker.Finishing?
    case ShutDown => true
  }

  function Effect(s: State, l: Label): State
    requires Enabled(s, l)
  {
    match l
    case Tick(to) => s.(clock := to)
    case Stamp(key) =>
      s.(entering := s.entering + multiset{Element(key, s.clock)},
         requests := s.requests + [Request(key, s.clock, s.steps)])
    case Enter(e) => Add(s.(entering := s.entering - multiset{e}), e)
    case Mature(e) => Add(s.(delayed := s.delayed - {e}), e)
    case Get => Take(s).(worker := Got(s.queue[0]))
    case Quit => s.(workerDone := true)
    case ReadClock => s.(worker := Judging(s.worker.item, s.clock, s.steps))
    case Skip => s.(worker := Finishing(s.worker.item))
    case Sync => s.(worker := Syncing(s.worker.item, s.worker.ts, s.worker.began))
    case SyncOk =>
      s.(worker := Finishing(s.worker.item), lastSync := s.worker.ts,
         successes := s.successes + [Success(s.worker.ts, s.worker.began)])
    case SyncErr => s.(worker := Requeuing(s.worker.item, s.worker.ts, s.worker.began))
    case Requeue =>
      AddRateLimited(s.(worker := Finishing(s.worker.item)), Element(s.worker.item.key, s.clock))
    case Finish => Done(s.(worker := Ready), s.worker.item)
    case ShutDown => s.(down := true)
  }

  function Apply(s: State, l: Label): State
    requires Enabled(s, l)
  {
    Effect(s, l).(steps := s.steps + 1)
  }

  // A run is a sequence of labels; it yields a state when each was enabled.
  function Execute(run: seq<Label>): Option<State> {
    if run == [] then Some(INIT)
    else match Execute(run[..|run| - 1])
         case None => None
         case Some(s) => if Enabled(s, run[|run| - 1]) then Some(Apply(s, run[|run| - 1])) else None
  }

  // ---- The workqueue's bookkeeping -----------------------------------------------------------

  function Held(w: Worker): set<Element> {
    if w.Ready? then {} else {w.item}
  }

  // What waits is exactly what is dirty and not being processed, once each;
  // what is being processed is what the worker holds.
  ghost predicate Bookkeeping(s: State) {
    && (forall e :: e in s.queue <==> e in s.dirty && e !in s.processing)
    && (forall i, j | 0 <= i < j < |s.queue| :: s.queue[i] != s.queue[j])
    && s.processing == Held(s.worker)
    && (s.workerDone ==> s.down && s.queue == [] && s.worker.Ready?)
  }

  lemma AddBookkeeping(s: State, e: Element)
    requires Bookkeeping(s)
    ensures Bookkeeping(Add(s, e))
  {
  }

  lemma TakeBookkeeping(s: State)
    requires Bookkeeping(s) && s.worker.Ready? && s.queue != [] && !s.workerDone
    ensures Bookkeeping(Take(s).(worker := Got(s.queue[0])))
  {
    assert s.queue == [s.queue[0]] + s.queue[1..];
  }

  lemma DoneBookkeeping(s: State)
    requires Bookkeeping(s) && s.worker.Finishing?
    ensures Bookkeeping(Done(s.(worker := Ready), s.worker.item))
  {
  }

  // The steps of the workqueue move elements; no other step touches them.
  predicate MovesElements(l: Label) {
    l.Enter? || l.Mature? || l.Get? || l.Finish?
  }

  lemma BookkeepingElsewhere(s: State, l: Label)
    requires Bookkeeping(s) && Enabled(s, l) && !MovesElements(l)
    ensures Bookkeeping(Apply(s, l))
  {
  }

  lemma BookkeepingStep(s: State, l: Label)
    requires Bookkeeping(s) && Enabled(s, l)
    ensures Bookkeeping(Apply(s, l))
  {
    if l.Enter? {
      AddBookkeeping(s.(entering := s.entering - multiset{l.e}), l.e);
    } else if l.Mature? {
      AddBookkeeping(s.(delayed := s.delayed - {l.e}), l.e);
    } else if l.Get? {
      TakeBookkeeping(s);
    } else if l.Finish? {
      DoneBookkeeping(s);
    } else {
      BookkeepingElsewhere(s, l);
    }
  }

  lemma {:induction false} BookkeepingHolds(run: seq<Label>)
    requires Execute(run).Some?
    ensures Bookkeeping(Execute(run).value)
  {
    if run != [] {
      BookkeepingHolds(run[..|run| - 1]);
      BookkeepingStep(Execute(run[..|run| - 1]).value, run[|run| - 1]);
    }
  }

  // Once Shutdown has been acknowledged, nothing waits and nothing is worked on.
  lemma ShutdownDrains(run: seq<Label>)
    requires Execute(run).Some? && Execute(run).value.workerDone
    ensures
      var s := Execute(run).value;
      s.down && s.queue == [] && s.dirty == {} && s.processing == {}
  {
    var s := Execute(run).value;
    BookkeepingHolds(run);
    forall e
      ensures e !in s.dirty
    {
      assert e !in s.queue;
    }
  }

  // ---- Times -----------------------------------------------------------------------------------

  predicate Timed(w: Worker) {
    w.Judging? || w.Syncing? || w.Requeuing?
  }

  predicate InQueue(s: State, e: Element) {
    e in s.entering || e in s.dirty || e in s.delayed
  }

  ghost predicate ElementTimes(s: State) {
    && (forall e | InQueue(s, e) || e in Held(s.worker) :: e.timestamp <= s.clock)
    && (Timed(s.worker) ==> s.worker.item.timestamp <= s.worker.ts <= s.clock && s.worker.began < s.steps)
  }

  ghost predicate HistoryTimes(s: State) {
    && (forall i | 0 <= i < |s.requests| :: s.requests[i].time <= s.clock && s.requests[i].step < s.steps)
    && (forall k | 0 <= k < |s.successes| :: s.successes[k].time <= s.clock && s.successes[k].step < s.steps)
    && s.lastSync == LastTime(s.successes)
    && (forall k | 0 <= k < |s.successes| :: s.successes[k].time <= s.lastSync)
    && (Timed(s.worker) ==> s.lastSync <= s.worker.ts)
  }

  // When the last sync that returned nil began, or 0 when there was none.
  function LastTime(successes: seq<Success>): nat {
    if successes == [] then 0 else successes[|successes| - 1].time
  }

  ghost predicate Times(s: State) {
    ElementTimes(s) && HistoryTimes(s)
  }

  // The clock order of a request and the beginning of a sync agrees with their
  // step order.
  ghost predicate Ordered(r: Request, time: nat, step: nat) {
    (time > r.time ==> step > r.step) && (step > r.step ==> time >= r.time)
  }

  ghost predicate Sequenced(s: State) {
    && (forall i, k | 0 <= i < |s.requests| && 0 <= k < |s.successes| ::
          Ordered(s.requests[i], s.successes[k].time, s.successes[k].step))
    && (Timed(s.worker) ==> forall i | 0 <= i < |s.requests| ::
          Ordered(s.requests[i], s.worker.ts, s.worker.began))
  }

  lemma ElementTimesStep(s: State, l: Label)
    requires ElementTimes(s) && Bookkeeping(s) && Enabled(s, l)
    ensures ElementTimes(Apply(s, l))
  {
    var s' := Apply(s, l);
    forall e | InQueue(s', e) || e in Held(s'.worker)
      ensures e.timestamp <= s'.clock
    {
      ElementStamped(s, l, e);
    }
  }

  // An element that is there after a step was there before, or is stamped with
  // the time of the step.
  lemma ElementStamped(s: State, l: Label, e: Element)
    requires Bookkeeping(s) && Enabled(s, l)
    requires InQueue(Apply(s, l), e) || e in Held(Apply(s, l).worker)
    ensures InQueue(s, e) || e in Held(s.worker) || e.timestamp == s.clock
  {
    if l.Get? {
      assert s.queue[0] in s.queue;
    }
  }

  lemma HistoryTimesStep(s: State, l: Label)
    requires Times(s) && Enabled(s, l)
    ensures HistoryTimes(Apply(s, l))
  {
    var s' := Apply(s, l);
    if l.SyncOk? {
      assert s'.successes == s.successes + [Success(s.worker.ts, s.worker.began)];
    } else {
      assert s'.successes == s.successes && s'.lastSync == s.lastSync;
    }
  }

  lemma SequencedStep(s: State, l: Label)
    requires Times(s) && Sequenced(s) && Enabled(s, l)
    ensures Sequenced(Apply(s, l))
  {
    var s' := Apply(s, l);
    if l.Stamp? {
      assert s'.successes == s.successes && s'.worker == s.worker;
    } else if l.SyncOk? {
      assert s'.requests == s.requests;
    } else {
      assert s'.requests == s.requests && s'.successes == s.successes;
    }
  }

  // ---- No update is lost -------------------------------------------------------------------------

  // A sync that returned nil began after the request.
  ghost predicate Covered(s: State, r: Request) {
    exists k :: 0 <= k < |s.successes| && s.successes[k].step > r.step && s.successes[k].time >= r.time
  }

  predicate Stands(e: Element, r: Request) {
    e.key == r.key && e.timestamp >= r.time
  }

  ghost predicate Waiting(s: State, r: Request) {
    exists e :: InQueue(s, e) && Stands(e, r)
  }

  // The worker holds an element that stands for the request, and has not yet
  // begun or began after it.
  predicate InHand(s: State, r: Request) {
    match s.worker
    case Got(item) => Stands(item, r)
    case Judging(item, _, began) => Stands(item, r) && began > r.step
    case Syncing(item, _, began) => Stands(item, r) && began > r.step
    case Requeuing(item, _, began) => Stands(item, r) && began > r.step
    case _ => false
  }

  ghost predicate Kept(s: State, r: Request) {
    Covered(s, r) || Waiting(s, r) || InHand(s, r)
  }

  ghost predicate NothingLost(s: State) {
    forall i | 0 <= i < |s.requests| :: Kept(s, s.requests[i])
  }

  lemma KeptStep(s: State, l: Label, i: nat)
    requires Times(s) && Sequenced(s) && Bookkeeping(s) && Enabled(s, l) && !Apply(s, l).down
    requires i < |s.requests| && Kept(s, s.requests[i])
    ensures Kept(Apply(s, l), s.requests[i])
  {
    var s', r := Apply(s, l), s.requests[i];
    if Covered(s, r) {
      CoveredStays(s, l, r);
    } else if Waiting(s, r) {
      WaitingStep(s, l, r);
    } else {
      InHandStep(s, l, i);
    }
  }

  lemma CoveredStays(s: State, l: Label, r: Request)
    requires Enabled(s, l) && Covered(s, r)
    ensures Covered(Apply(s, l), r)
  {
  }

  // Only Get takes a waiting element away, and the worker then has it.
  lemma WaitingStep(s: State, l: Label, r: Request)
    requires Enabled(s, l) && !Apply(s, l).down && Waiting(s, r)
    ensures Waiting(Apply(s, l), r) || InHand(Apply(s, l), r)
  {
  }

  // What the worker holds is skipped only in favour of a later sync, and comes
  // back with a newer stamp when its sync fails.
  lemma InHandStep(s: State, l: Label, i: nat)
    requires Times(s) && Sequenced(s) && Enabled(s, l) && !Apply(s, l).down
    requires i < |s.requests| && InHand(s, s.requests[i])
    ensures Kept(Apply(s, l), s.requests[i])
  {
    var s', r := Apply(s, l), s.requests[i];
    if l.Skip? {
      var k := |s.successes| - 1;
      assert Ordered(r, s.successes[k].time, s.successes[k].step);
      assert s'.successes[k].step > r.step;
    } else if l.SyncOk? {
      assert Ordered(r, s.worker.ts, s.worker.began);
      assert s'.successes[|s.successes|].step > r.step;
    } else if l.Requeue? {
      assert InQueue(s', Element(s.worker.item.key, s.clock));
    }
  }

  lemma NothingLostStep(s: State, l: Label)
    requires Times(s) && Sequenced(s) && Bookkeeping(s) && NothingLost(s) && Enabled(s, l) && !Apply(s, l).down
    ensures NothingLost(Apply(s, l))
  {
    var s' := Apply(s, l);
    forall i | 0 <= i < |s'.requests|
      ensures Kept(s', s'.requests[i])
    {
      if i < |s.requests| {
        KeptStep(s, l, i);
      } else {
        assert InQueue(s', Element(l.key, s.clock));
      }
    }
  }

  lemma {:induction false} InvariantsHold(run: seq<Label>)
    requires Execute(run).Some?
    ensures
      var s := Execute(run).value;
      Bookkeeping(s) && Times(s) && Sequenced(s) && (!s.down ==> NothingLost(s))
  {
    BookkeepingHolds(run);
    if run != [] {
      var l, before := run[|run| - 1], Execute(run[..|run| - 1]).value;
      InvariantsHold(run[..|run| - 1]);
      ElementTimesStep(before, l);
      HistoryTimesStep(before, l);
      SequencedStep(before, l);
      if !Execute(run).value.down {
        NothingLostStep(before, l);
      }
    }
  }

  // In every state of every run before shutdown, each accepted request either
  // precedes the beginning of a sync that returned nil, at or after its own
  // time, or is stood for by an element of its key, no older, that waits or is
  // in the hands of a worker that has not begun or began after the request.
  lemma NoLostUpdate(run: seq<Label>, i: nat)
    requires Execute(run).Some? && !Execute(run).value.down && i < |Execute(run).value.requests|
    ensures Kept(Execute(run).value, Execute(run).value.requests[i])
    ensures
      var s := Execute(run).value;
      var r := s.requests[i];
      || (exists k :: 0 <= k < |s.successes| && s.successes[k].step > r.step && s.successes[k].time >= r.time)
      || (exists e :: (e in s.entering || e in s.queue || e in s.delayed || e in Held(s.worker))
                   && e.key == r.key && e.timestamp >= r.time)
  {
    InvariantsHold(run);
    var s := Execute(run).value;
    var r := s.requests[i];
    assert Kept(s, r);
    if !Covered(s, r) {
      var e := StandIn(s, r);
    }
  }

  lemma StandIn(s: State, r: Request) returns (e: Element)
    requires Bookkeeping(s) && (Waiting(s, r) || InHand(s, r))
    ensures e in s.entering || e in s.queue || e in s.delayed || e in Held(s.worker)
    ensures e.key == r.key && e.timestamp >= r.time
  {
    if InHand(s, r) {
      e := s.worker.item;
    } else {
      e :| InQueue(s, e) && Stands(e, r);
      assert e in s.dirty && e !in s.processing ==> e in s.queue;
    }
  }

  // So when the queue has come to rest, every request has been synced.
  lemma QuietMeansSynced(run: seq<Label>, i: nat)
    requires Execute(run).Some? && !Execute(run).value.down && i < |Execute(run).value.requests|
    requires Quiet(Execute(run).value)
    ensures
      var s := Execute(run).value;
      exists k :: 0 <= k < |s.successes| && s.successes[k].step > s.requests[i].step
  {
    InvariantsHold(run);
    var s := Execute(run).value;
    assert Kept(s, s.requests[i]);
    if !Covered(s, s.requests[i]) {
      var e := StandIn(s, s.requests[i]);
    }
  }

  // ---- What is skipped ------------------------------------------------------------------------------

  // A sync that returned nil began later than this.
  ghost predicate Outdated(s: State, time: nat) {
    exists k :: 0 <= k < |s.successes| && s.successes[k].time > time
  }

  // In every run lastSync is when the last sync that returned nil began, none
  // began later, and the worker skips an element exactly when some sync that
  // returned nil began after it was stamped. So no sync starts on such an element.
  lemma SkippedIff(run: seq<Label>)
    requires Execute(run).Some?
    ensures
      var s := Execute(run).value;
      && s.lastSync == LastTime(s.successes)
      && (forall time: nat :: s.lastSync > time <==> Outdated(s, time))
      && (s.worker.Judging? ==>
            && (Enabled(s, Skip) <==> Outdated(s, s.worker.item.timestamp))
            && (Enabled(s, Sync) <==> !Outdated(s, s.worker.item.timestamp)))
      && (s.worker.Syncing? ==> !Outdated(s, s.worker.item.timestamp))
  {
    InvariantsHold(run);
    var s := Execute(run).value;
    if s.worker.Syncing? {
      SyncingIsCurrent(run);
    }
    forall time: nat
      ensures s.lastSync > time <==> Outdated(s, time)
    {
      OutdatedIff(s, time);
    }
  }

  lemma OutdatedIff(s: State, time: nat)
    requires HistoryTimes(s)
    ensures s.lastSync > time <==> Outdated(s, time)
  {
    if s.lastSync > time {
      assert s.successes[|s.successes| - 1].time > time;
    }
  }

  // There is one worker, so nothing succeeds while it syncs.
  lemma {:induction false} SyncingIsCurrent(run: seq<Label>)
    requires Execute(run).Some? && Execute(run).value.worker.Syncing?
    ensures Execute(run).value.lastSync <= Execute(run).value.worker.item.timestamp
  {
    var before := Execute(run[..|run| - 1]).value;
    if before.worker.Syncing? {
      SyncingIsCurrent(run[..|run| - 1]);
    }
  }

  // A sync that fails puts its key back with the time of the failure: no earlier
  // than the sync began, and than any sync that returned nil, so only one that
  // begins later still can make it be skipped.
  lemma FailureComesBack(run: seq<Label>)
    requires Execute(run).Some? && Execute(run).value.worker.Requeuing? && !Execute(run).value.down
    ensures
      var s := Execute(run).value;
      var e := Element(s.worker.item.key, s.clock);
      && Enabled(s, Requeue) && e in Apply(s, Requeue).delayed
      && s.worker.item.timestamp <= s.worker.ts <= e.timestamp && !Outdated(Apply(s, Requeue), e.timestamp)
  {
    InvariantsHold(run);
  }

  predicate Quiet(s: State) {
    s.worker.Ready? && s.queue == [] && s.entering == multiset{} && s.delayed == {}
  }
}
