// The concurrent sync engine (diff.Syncer) as a labelled transition system:
// one producer walking ten phases, `parallelism` workers, the collector in
// Run, the goroutine that closes errChan, and the channels between them.
// Every label is one atomic step of one of them.
module Sync {
  import opened Entities
  import opened Store

  // ---- Events and phases ---------------------------------------------------

  datatype Op = Create | Update | Delete

  datatype Event = Event(op: Op, obj: Entity, oldObj: Option<Entity>) {
    function Row(): Ref { obj.Row() }
  }

  // Position of a kind in the create order; deletes run in the opposite order.
  function Rank(k: Kind): nat {
    match k
    case ServerKind => 0
    case ClusterKind => 1
    case BindKind => 2
    case APIKind => 3
    case RoutingKind => 4
  }

  const PHASES: nat := 10

  predicate IsCreatePhase(phase: nat) {
    phase < 5
  }

  // createUpdateList followed by deleteList.
  function PhaseKind(phase: nat): Kind
    requires phase < PHASES
  {
    match phase
    case 0 => ServerKind
    case 1 => ClusterKind
    case 2 => BindKind
    case 3 => APIKind
    case 4 => RoutingKind
    case 5 => RoutingKind
    case 6 => APIKind
    case 7 => BindKind
    case 8 => ClusterKind
    case _ => ServerKind
  }

  // The phase an event belongs to.
  function PhaseOf(e: Event): nat {
    if e.op.Delete? then 9 - Rank(e.obj.Kind()) else Rank(e.obj.Kind())
  }

  // ---- Decisions and actions -------------------------------------------------

  // createUpdateX and deleteX: what to do about one listed object.
  function Decide(mirror: DB, target: DB, phase: nat, x: Entity): Option<Event> {
    if IsCreatePhase(phase) then
      match Get(mirror, x.Kind(), x.Identifier())
      case Ok(current) => if Same(current, x) then None else Some(Event(Update, x, Some(current)))
      case Err(_) => Some(Event(Create, x, None))
    else
      match Get(target, x.Kind(), x.Identifier())
      case Ok(_) => None
      case Err(_) => Some(Event(Delete, x, None))
  }

  // The raw action's effect on the gateway, a map by id: commit is an upsert,
  // remove erases, and a bind update does nothing.
  function Raw(remote: map<Ref, Entity>, e: Event): map<Ref, Entity> {
    match e.op
    case Create => remote[e.Row() := e.obj]
    case Update => if e.obj.Bind? then remote else remote[e.Row() := e.obj]
    case Delete => remote - {e.Row()}
  }

  // The raw bind update returns no result, which handleEvent treats as an error.
  predicate RawResultIsNil(e: Event) {
    e.op.Update? && e.obj.Bind?
  }

  // The post-process action's effect on the mirror.
  function Post(mirror: DB, e: Event): Result<DB> {
    match e.op
    case Create => Store.Add(mirror, e.obj)
    case Update => Store.Update(mirror, e.obj)
    case Delete => Store.Delete(mirror, e.obj.Kind(), e.obj.Identifier())
  }

  // ---- State -----------------------------------------------------------------

  datatype Error = CallFailed | NilResult | PostFailed | EnqueueFailed

  datatype Producer =
    | Starting                 // about to fetch the objects of the phase
    | Deciding                 // in the loop over them
    | Counting(event: Event)   // in queueEvent, before the atomic add
    | Sending(event: Event)    // in queueEvent's select
    | Waiting                  // spinning until InFlightOps is zero
    | Failing                  // sending errEnqueueFailed on errChan
    | Closing                  // about to close eventChan
    | Ended

  datatype Worker =
    | Idle
    | Calling(event: Event)    // before the call to the gateway
    | Posting(event: Event)    // before post-processing
    | Completing(event: Event, failure: Option<Error>)
    | Reporting(error: Error)  // sending on errChan
    | Exited

  datatype Collector = Selecting | Stopping | Collecting | Returned

  datatype Config = Config(current: DB, target: DB, parallelism: nat)

  const CAPACITY: nat := 10

  // `issued`, `base`, `frozen`, `failures`, `dropped` and `doneFired` are
  // history: no step depends on them.
  datatype State = State(
    producer: Producer,
    phase: nat,
    listing: seq<Entity>,
    next: nat,
    channel: seq<Event>,
    workers: seq<Worker>,
    inFlight: int,
    stopped: bool,
    errClosed: bool,
    collector: Collector,
    errs: seq<Error>,
    mirror: DB,
    remote: map<Ref, Entity>,
    issued: seq<Event>,        // every event the producer decided on
    base: nat,                 // how many of them belong to earlier phases
    frozen: DB,                // the mirror when the phase was listed
    failures: nat,             // events whose handling failed
    dropped: Option<Event>,    // the send the producer gave up, if any
    doneFired: bool)

  // syncer.Run returned no error and was not told to stop.
  predicate Clean(s: State) {
    s.collector.Returned? && s.errs == [] && !s.doneFired
  }

  // The gateway as far as dump.Get listed it; module SyncFrame has the rest of it.
  function Init(c: Config): State {
    State(Starting, 0, [], 0, [], seq(c.parallelism, _ => Idle), 0, false, false, Selecting, [],
          c.current, c.current.ids, [], 0, c.current, 0, None, false)
  }

  // ---- Steps -----------------------------------------------------------------

  datatype Label =
    // producer
    | ListPhase(rows: seq<Entity>) | EndListing | Skip | Issue | Count | Send | Abandon | Proceed | Spin
    | ReportAbandoned | Close
    // worker i
    | Take(i: nat) | Drained(i: nat) | CallOk(i: nat) | CallErr(i: nat, applied: bool) | PostStep(i: nat)
    | Complete(i: nat) | Report(i: nat)
    // Run, the collector
    | DoneFires | CloseErrors | SeeClosed | Stop | Finish

  predicate OfWorker(l: Label) {
    l.Take? || l.Drained? || l.CallOk? || l.CallErr? || l.PostStep? || l.Complete? || l.Report?
  }

  predicate OfCollector(l: Label) {
    l.DoneFires? || l.CloseErrors? || l.SeeClosed? || l.Stop? || l.Finish?
  }

  predicate Receiving(c: Collector) {
    c.Selecting? || c.Collecting?
  }

  // After a receive in the select the collector goes on to stop the producer.
  function AfterReceive(c: Collector): Collector {
    if c.Selecting? then Stopping else c
  }

  predicate Closed(s: State) {
    s.producer.Ended?
  }

  ghost predicate Enabled(c: Config, s: State, l: Label) {
    match l
    case ListPhase(rows) =>
      s.producer.Starting? && s.phase < PHASES
      && Lists(rows, if IsCreatePhase(s.phase) then c.target else s.mirror, PhaseKind(s.phase))
    case EndListing => s.producer.Deciding? && s.next >= |s.listing|
    case Skip => s.producer.Deciding? && s.next < |s.listing|
                 && Decide(s.mirror, c.target, s.phase, s.listing[s.next]).None?
    case Issue => s.producer.Deciding? && s.next < |s.listing|
                  && Decide(s.mirror, c.target, s.phase, s.listing[s.next]).Some?
    case Count => s.producer.Counting?
    case Send => s.producer.Sending? && |s.channel| < CAPACITY
    case Abandon => s.producer.Sending? && s.stopped
    case Proceed => s.producer.Waiting? && s.inFlight == 0
    case Spin => s.producer.Waiting? && s.inFlight != 0
    case ReportAbandoned => s.producer.Failing? && Receiving(s.collector)
    case Close => s.producer.Closing?
    case Take(i) => i < |s.workers| && s.workers[i].Idle? && s.channel != []
    case Drained(i) => i < |s.workers| && s.workers[i].Idle? && s.channel == [] && Closed(s)
    case CallOk(i) => i < |s.workers| && s.workers[i].Calling?
    case CallErr(i, _) => i < |s.workers| && s.workers[i].Calling?
    case PostStep(i) => i < |s.workers| && s.workers[i].Posting?
    case Complete(i) => i < |s.workers| && s.workers[i].Completing?
    case Report(i) => i < |s.workers| && s.workers[i].Reporting? && Receiving(s.collector)
    case DoneFires => s.collector.Selecting?
    case CloseErrors => Closed(s) && !s.errClosed && forall w | w in s.workers :: w.Exited?
    case SeeClosed => s.collector.Selecting? && s.errClosed
    case Stop => s.collector.Stopping?
    case Finish => s.collector.Collecting? && s.errClosed
  }

  ghost function Apply(c: Config, s: State, l: Label): State
    requires Enabled(c, s, l)
  {
    match l
    case ListPhase(rows) =>
      s.(producer := Deciding, listing := rows, next := 0, base := |s.issued|, frozen := s.mirror)
    case EndListing => s.(producer := Waiting)
    case Skip => s.(next := s.next + 1)
    case Issue =>
      var e := Decide(s.mirror, c.target, s.phase, s.listing[s.next]).value;
      s.(producer := Counting(e), next := s.next + 1, issued := s.issued + [e])
    case Count => s.(producer := Sending(s.producer.event), inFlight := s.inFlight + 1)
    case Send => s.(producer := Deciding, channel := s.channel + [s.producer.event])
    case Abandon => s.(producer := Failing, dropped := Some(s.producer.event))
    case Proceed =>
      s.(phase := s.phase + 1, producer := if s.phase + 1 < PHASES then Starting else Closing)
    case Spin => s
    case ReportAbandoned => s.(producer := Closing, collector := AfterReceive(s.collector))
    case Close => s.(producer := Ended)
    case Take(i) => s.(workers := s.workers[i := Calling(s.channel[0])], channel := s.channel[1..])
    case Drained(i) => s.(workers := s.workers[i := Exited])
    case CallOk(i) =>
      var e := s.workers[i].event;
      var nil := RawResultIsNil(e);
      s.(workers := s.workers[i := if nil then Completing(e, Some(NilResult)) else Posting(e)],
         remote := Raw(s.remote, e),
         failures := s.failures + if nil then 1 else 0)
    case CallErr(i, applied) =>
      var e := s.workers[i].event;
      s.(workers := s.workers[i := Completing(e, Some(CallFailed))], failures := s.failures + 1,
         remote := if applied then Raw(s.remote, e) else s.remote)
    case PostStep(i) =>
      var e := s.workers[i].event;
      var done := Post(s.mirror, e);
      s.(workers := s.workers[i := Completing(e, if done.Ok? then None else Some(PostFailed))],
         mirror := if done.Ok? then done.value else s.mirror,
         failures := s.failures + if done.Ok? then 0 else 1)
    case Complete(i) =>
      s.(workers := s.workers[i := if s.workers[i].failure.Some?
                                   then Reporting(s.workers[i].failure.value) else Idle],
         inFlight := s.inFlight - 1)
    case Report(i) =>
      s.(workers := s.workers[i := Exited], collector := AfterReceive(s.collector),
         errs := s.errs + [s.workers[i].error])
    case DoneFires => s.(collector := Stopping, doneFired := true)
    case CloseErrors => s.(errClosed := true)
    case SeeClosed => s.(collector := Stopping)
    case Stop => s.(collector := Collecting, stopped := true)
    case Finish => s.(collector := Returned)
  }

  // A run is a sequence of labels; it yields a state when each was enabled.
  ghost function Execute(c: Config, run: seq<Label>): Option<State> {
    if run == [] then Some(Init(c))
    else match Execute(c, run[..|run| - 1])
         case None => None
         case Some(s) =>
           var l := run[|run| - 1];
           if Enabled(c, s, l) then Some(Apply(c, s, l)) else None
  }
}
